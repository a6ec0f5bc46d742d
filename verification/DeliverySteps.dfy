/** Each kind of step of the buffered writer keeps the books of `Delivery` in order. */
module DeliverySteps {
  import opened Upsert
  import opened Records
  import opened Writer
  import opened WriterTheorems
  import opened Spooling
  import opened Attempts
  import opened Delivery
  import opened Sealing

  // --- directories -------------------------------------------------------------------------

  lemma {:induction false} NamesWithout(fs: seq<File>, gone: set<Name>)
    ensures Names(Without(fs, gone)) == Names(fs) - gone
  {
    if fs != [] {
      var n := |fs| - 1;
      NamesWithout(fs[..n], gone);
      if fs[n].name !in gone {
        NamesSnoc(Without(fs[..n], gone), fs[n]);
      } else {
        assert Without(fs, gone) == Without(fs[..n], gone);
      }
    }
  }

  lemma {:induction false} NameIn(fs: seq<File>, f: File)
    requires f in fs
    ensures f.name in Names(fs)
  {
    var i :| 0 <= i < |fs| && fs[i] == f;
    NamesHas(fs, i);
  }

  /** A directory with fewer files, or with more of them set aside. */
  ghost predicate Shrunk(files: seq<File>, idle: set<Name>, files': seq<File>, idle': set<Name>) {
    (forall f :: f in files' ==> f in files) && Names(files') <= Names(files) && idle <= idle'
  }

  lemma {:induction false} ShrunkWithout(files: seq<File>, idle: set<Name>, gone: set<Name>)
    requires Sorted(files)
    ensures Shrunk(files, idle, Without(files, gone), idle)
  {
    WithoutIs(files, gone);
    NamesWithout(files, gone);
  }

  lemma {:induction false} OrderShrinks(batches: seq<seq<Record>>, origin: map<Name, nat>, reach: int,
        files: seq<File>, idle: set<Name>, files': seq<File>, idle': set<Name>)
    requires Held(batches, origin, files) && Ahead(origin, reach, files, idle) && Shrunk(files, idle, files', idle')
    ensures Held(batches, origin, files') && Ahead(origin, reach, files', idle')
  {
    assert Opens(Holding, Holding) && Opens(Leading, Leading);
  }

  // --- a submission begins --------------------------------------------------------------------

  function Begin(h: History, records: seq<Record>): History {
    h.(batches := h.batches + [records], fates := h.fates + [Pending])
  }

  lemma {:induction false} BeyondExtends(lost: Loss, batches: seq<seq<Record>>, more: seq<seq<Record>>,
        cs: seq<Committed>)
    requires AreCommits(cs, batches) && batches <= more
    ensures BeyondAll(lost, batches, cs) == BeyondAll(lost, more, cs)
  {
    if cs != [] {
      BeyondExtends(lost, batches, more, cs[..|cs| - 1]);
    }
  }

  lemma {:induction false} BeginOrder(h: History, records: seq<Record>, files: seq<File>, idle: set<Name>)
    requires Held(h.batches, h.origin, files) && CommitsInOrder(h.batches, h.commits)
    requires Placed(h.fates, h.origin, files, idle)
    ensures var k := Begin(h, records);
            Held(k.batches, k.origin, files) && CommitsInOrder(k.batches, k.commits)
                && Placed(k.fates, k.origin, files, idle)
  {
    assert Opens(Holding, Holding) && Opens(Placing, Placing) && Opens(Committing, Committing);
    var k := Begin(h, records);
    forall f | f in files ensures Holds(k.batches, k.origin, f) { assert Holds(h.batches, h.origin, f); }
  }

  lemma {:induction false} BeginBooks(lost: Loss, h: History, records: seq<Record>, corrupt: set<Name>,
        unread: seq<Name>, beyond: multiset<Table>)
    requires AllBacked(h, corrupt, unread) && Counted(lost, h, beyond)
    ensures AllBacked(Begin(h, records), corrupt, unread) && Counted(lost, Begin(h, records), beyond)
  {
    assert Opens(Backing, Backing) && Opens(Counting, Counting);
    var k := Begin(h, records);
    BeyondExtends(lost, h.batches, k.batches, h.acked);
    DroppedSnoc(h.fates, Pending);
    forall i | 0 <= i < |k.fates| ensures Backed(k, i, k.fates[i], corrupt, unread) {
      if i < |h.fates| { BackedGrows(h, k, i, h.fates[i], corrupt, corrupt, unread, unread); }
    }
  }

  // --- fates -----------------------------------------------------------------------------------

  lemma {:induction false} DroppedSnoc(fates: seq<Fate>, x: Fate)
    ensures Dropped(fates + [x]) == Dropped(fates) + if x.Superseded? then 1 else 0
  {
    assert (fates + [x])[..|fates|] == fates;
  }

  lemma {:induction false} DroppedUpdate(fates: seq<Fate>, i: nat, x: Fate)
    requires i < |fates| && !fates[i].Superseded?
    ensures Dropped(fates[i := x]) == Dropped(fates) + if x.Superseded? then 1 else 0
  {
    var n := |fates| - 1;
    if i < n {
      DroppedUpdate(fates[..n], i, x);
      assert fates[i := x][..n] == fates[..n][i := x];
    } else {
      assert fates[i := x][..n] == fates[..n];
    }
  }

  lemma {:induction false} DroppedSame(fates: seq<Fate>, fates': seq<Fate>)
    requires |fates| == |fates'| && forall i :: 0 <= i < |fates| ==> fates[i].Superseded? == fates'[i].Superseded?
    ensures Dropped(fates) == Dropped(fates')
  {
    if fates != [] {
      DroppedSame(fates[..|fates| - 1], fates'[..|fates| - 1]);
    }
  }

  ghost predicate Grows(h: History, k: History) {
    && h.batches <= k.batches && h.evicted <= k.evicted && h.log <= k.log
    && Ids(h.acked) <= Ids(k.acked) && h.failed <= k.failed && h.unkept <= k.unkept
    && (forall n :: n in h.origin ==> n in k.origin && k.origin[n] == h.origin[n])
  }

  lemma {:induction false} ToldStays(log: seq<Notice>, more: seq<Notice>, n: Name)
    requires log <= more && Told(log, n)
    ensures Told(more, n)
  {
    var i :| 0 <= i < |log| && log[i].what.BatchQuarantined? && log[i].what.file == Some(n);
    assert more[i] == log[i];
  }

  lemma {:induction false} BackedGrows(h: History, k: History, i: nat, x: Fate, corrupt: set<Name>,
        corrupt': set<Name>, unread: seq<Name>, unread': seq<Name>)
    requires Backed(h, i, x, corrupt, unread) && Grows(h, k) && corrupt <= corrupt'
    requires forall n :: n in unread ==> n in unread' || Told(k.log, n)
    ensures Backed(k, i, x, corrupt', unread')
  {
    match x
    case InCorrupt(n) => if Told(h.log, n) { ToldStays(h.log, k.log, n); }
    case Evicted =>
      var j :| 0 <= j < |h.evicted| && h.evicted[j].name in h.origin && h.origin[h.evicted[j].name] == i;
      assert k.evicted[j] == h.evicted[j];
    case _ =>
  }

  lemma {:induction false} BooksGrow(h: History, k: History, corrupt: set<Name>, corrupt': set<Name>,
        unread: seq<Name>, unread': seq<Name>)
    requires AllBacked(h, corrupt, unread) && Grows(h, k) && corrupt <= corrupt'
    requires forall n :: n in unread ==> n in unread' || Told(k.log, n)
    requires k.fates == h.fates && |k.batches| == |h.batches| && k.failed == h.failed && k.unkept == h.unkept
    requires k.batchesSuperseded == h.batchesSuperseded
    ensures AllBacked(k, corrupt', unread')
  {
    assert Opens(Backing, Backing);
    forall i | 0 <= i < |k.fates| ensures Backed(k, i, k.fates[i], corrupt', unread') {
      BackedGrows(h, k, i, h.fates[i], corrupt, corrupt', unread, unread');
    }
  }

  /** One submission gets a new fate, for which there is backing. */
  lemma {:induction false} Rebook(h: History, k: History, i: nat, x: Fate, corrupt: set<Name>, corrupt': set<Name>,
        unread: seq<Name>, unread': seq<Name>)
    requires AllBacked(h, corrupt, unread) && Grows(h, k) && corrupt <= corrupt'
    requires forall n :: n in unread ==> n in unread' || Told(k.log, n)
    requires i < |h.fates| && (h.fates[i].Spooled? || h.fates[i].Pending?)
    requires k.fates == h.fates[i := x] && |k.batches| == |h.batches|
    requires Backed(k, i, x, corrupt', unread')
    requires k.failed == h.failed + (if x == WriteFailed then {i} else {})
             && k.unkept == h.unkept + (if x == NotKept then {i} else {})
    requires k.batchesSuperseded == h.batchesSuperseded + if x == Superseded then 1 else 0
    ensures AllBacked(k, corrupt', unread')
  {
    assert Opens(Backing, Backing);
    DroppedUpdate(h.fates, i, x);
    forall j | 0 <= j < |k.fates| ensures Backed(k, j, k.fates[j], corrupt', unread') {
      if j != i { BackedGrows(h, k, j, h.fates[j], corrupt, corrupt', unread, unread'); }
    }
  }

  /** A waiting file leaves the directory with a new fate. */
  lemma {:induction false} RetireGone(fates: seq<Fate>, origin: map<Name, nat>, files: seq<File>, idle: set<Name>,
        f: File, x: Fate)
    requires Sorted(files) && Placed(fates, origin, files, idle) && f in files && f.name !in idle && !x.Spooled?
    ensures f.name in origin && origin[f.name] < |fates| && fates[origin[f.name]] == Spooled(f.name)
    ensures Placed(fates[origin[f.name] := x], origin, Without(files, {f.name}), idle)
  {
    var left := Without(files, {f.name});
    assert forall g :: g in left ==> g in files && g.name != f.name by { WithoutIs(files, {f.name}); }
    NamesWithout(files, {f.name});
    OthersStay(fates, origin, files, idle, f, x, left, idle);
  }

  /** A waiting file is set aside, its fate settled or unchanged. */
  lemma {:induction false} RetireAside(fates: seq<Fate>, origin: map<Name, nat>, files: seq<File>, idle: set<Name>,
        f: File, x: Fate)
    requires Placed(fates, origin, files, idle) && f in files && f.name !in idle
             && (x.Spooled? ==> x == Spooled(f.name))
    ensures f.name in origin && origin[f.name] < |fates| && fates[origin[f.name]] == Spooled(f.name)
    ensures Placed(fates[origin[f.name] := x], origin, files, idle + {f.name})
  {
    NameIn(files, f);
    OthersStay(fates, origin, files, idle, f, x, files, idle + {f.name});
  }

  lemma {:induction false} OthersStay(fates: seq<Fate>, origin: map<Name, nat>, files: seq<File>, idle: set<Name>,
        f: File, x: Fate, files': seq<File>, idle': set<Name>)
    requires Placed(fates, origin, files, idle) && f in files && f.name !in idle
    requires forall g :: g in files' && g.name !in idle' ==> g in files && g.name !in idle && g.name != f.name
    requires Names(files) - {f.name} <= Names(files')
    requires x.Spooled? ==> x == Spooled(f.name) && f.name in Names(files')
    ensures f.name in origin && origin[f.name] < |fates| && fates[origin[f.name]] == Spooled(f.name)
    ensures Placed(fates[origin[f.name] := x], origin, files', idle')
  {
    assert Opens(Placing, Placing);
    var id := origin[f.name];
    forall g | g in files' && g.name !in idle'
      ensures g.name in origin && origin[g.name] < |fates| && fates[id := x][origin[g.name]] == Spooled(g.name)
    {
      assert fates[origin[g.name]] == Spooled(g.name);
    }
    var more := fates[id := x];
    forall i | 0 <= i < |more| && more[i].Spooled?
      ensures more[i].name in Names(files') && more[i].name in origin && origin[more[i].name] == i
    {
      if i != id { assert fates[i].Spooled? && fates[i].name != f.name; }
    }
  }

  // --- replay -----------------------------------------------------------------------------------

  /** Committing a submission that no waiting file precedes. */
  lemma {:induction false} CommitKeeps(batches: seq<seq<Record>>, origin: map<Name, nat>, commits: seq<Committed>,
        files: seq<File>, idle: set<Name>, c: Committed)
    requires CommitsInOrder(batches, commits) && c.id < |batches| && Reach(commits) <= c.id
    requires Ahead(origin, c.id, files, idle)
    ensures CommitsInOrder(batches, commits + [c]) && Ahead(origin, Reach(commits + [c]), files, idle)
  {
    assert Opens(Leading, Leading) && Opens(Committing, Committing);
    var more := commits + [c];
    forall i, j | 0 <= i < j < |more| ensures more[i].id <= more[j].id {
      if j == |commits| { assert commits[i].id <= commits[|commits| - 1].id; }
    }
  }

  /** An acknowledged commit's retention losses join the unreported ones. */
  lemma {:induction false} AckCounts(lost: Loss, h: History, beyond: multiset<Table>, c: Committed)
    requires Counted(lost, h, beyond) && c.id < |h.batches| && c in h.commits
    ensures Counted(lost, h.(acked := h.acked + [c]), beyond + lost(h.batches[c.id], c.now))
    ensures c.id in Ids(h.acked + [c]) && Ids(h.acked) <= Ids(h.acked + [c])
  {
    assert Opens(Counting, Counting);
    assert (h.acked + [c])[..|h.acked|] == h.acked;
    IdsSnoc(h.acked, c);
  }

  lemma {:induction false} CountedCommit(lost: Loss, h: History, beyond: multiset<Table>, c: Committed)
    requires Counted(lost, h, beyond)
    ensures Counted(lost, h.(commits := h.commits + [c]), beyond)
  {
    assert Opens(Counting, Counting);
  }

  lemma {:induction false} HeadShrinks(h: History, failures: map<Name, nat>, files: seq<File>, skip: set<Name>,
        max: int, failures': map<Name, nat>, files': seq<File>, skip': set<Name>)
    requires HeadKept(h, failures, files, skip, max) && Shrunk(files, skip, files', skip')
    requires forall n :: n in failures' ==> n in failures
    requires forall f :: f in files' && f.name !in skip' ==> Tries(failures', f.name) == Tries(failures, f.name)
    ensures HeadKept(h, failures', files', skip', max)
  {
    assert Opens(Heading, Heading);
  }

  lemma {:induction false} CappedShrinks(h: History, files: seq<File>, skip: set<Name>, max: int, files': seq<File>,
        skip': set<Name>)
    requires CappedFairly(h, files, skip, max) && Shrunk(files, skip, files', skip')
    ensures CappedFairly(h, files', skip', max)
  {
    assert Opens(Capping, Capping);
    forall i | 0 <= i < |h.log| && h.log[i].what.BatchQuarantined?
      ensures Fair(h, h.log[i].what, files', skip', max)
    {
      assert Fair(h, h.log[i].what, files, skip, max);
    }
  }

  lemma {:induction false} CappedLog(h: History, files: seq<File>, skip: set<Name>, max: int, n: Notice)
    requires CappedFairly(h, files, skip, max)
    requires n.what.BatchQuarantined? ==> Fair(h, n.what, files, skip, max)
    ensures CappedFairly(h.(log := h.log + [n]), files, skip, max)
  {
    assert Opens(Capping, Capping);
    var k := h.(log := h.log + [n]);
    forall i | 0 <= i < |k.log| && k.log[i].what.BatchQuarantined? ensures Fair(k, k.log[i].what, files, skip, max) {
      assert Fair(h, k.log[i].what, files, skip, max);
    }
  }

  /** One more try does not take away what justified a quarantine, unless it blames the file. */
  lemma {:induction false} FairStays(h: History, t: Try, w: What, files: seq<File>, skip: set<Name>, max: int,
        files': seq<File>, skip': set<Name>)
    requires w.BatchQuarantined? && Fair(h, w, files, skip, max)
    requires w.cause.Repeated? && w.file.Some? ==> !Blames(t, w.file.value)
    requires Shrunk(files, skip, files', skip')
    ensures Fair(h.(tries := h.tries + [t]), w, files', skip', max)
  {
    match w.cause
    case Repeated(_) => AnsweredSnoc(h.tries, t, w.file.value);
    case Unreadable =>
    case _ =>
      var i :| 0 <= i < |h.batches| && WasRefused(h.tries, h.batches[i])
               && (w.file.Some? ==> w.file.value in h.origin && h.origin[w.file.value] == i);
      RefusedStays(h.tries, t, h.batches[i]);
  }

  /** A try that blames no file. */
  lemma {:induction false} HeadTries(h: History, failures: map<Name, nat>, files: seq<File>, skip: set<Name>,
        max: int, t: Try)
    requires HeadKept(h, failures, files, skip, max) && CappedFairly(h, files, skip, max)
    requires forall n :: !Blames(t, n)
    ensures var k := h.(tries := h.tries + [t]);
            HeadKept(k, failures, files, skip, max) && CappedFairly(k, files, skip, max)
  {
    assert Opens(Heading, Heading) && Opens(Capping, Capping);
    var k := h.(tries := h.tries + [t]);
    forall n ensures Answered(k.tries, n) == Answered(h.tries, n) { AnsweredSnoc(h.tries, t, n); }
    forall i | 0 <= i < |k.log| && k.log[i].what.BatchQuarantined? ensures Fair(k, k.log[i].what, files, skip, max) {
      FairStays(h, t, h.log[i].what, files, skip, max, files, skip);
    }
  }

  /** The failures of the files after one more of `f`. */
  lemma {:induction false} BlamedOne(h: History, t: Try, f: Name)
    requires Blames(t, f)
    ensures forall n :: Answered(h.tries + [t], n) == Answered(h.tries, n) + if n == f then 1 else 0
  {
    forall n ensures Answered(h.tries + [t], n) == Answered(h.tries, n) + if n == f then 1 else 0 {
      AnsweredSnoc(h.tries, t, n);
    }
  }

  /** A file that waits has not been given up. */
  lemma {:induction false} NotGivenUp(h: History, w: What, files: seq<File>, skip: set<Name>, max: int, f: File)
    requires w.BatchQuarantined? && Fair(h, w, files, skip, max) && f in files && f.name !in skip
    ensures w.cause.Repeated? ==> w.file.Some? && w.file.value != f.name
  {
    NameIn(files, f);
  }

  lemma {:induction false} CappedBlames(h: History, files: seq<File>, skip: set<Name>, max: int, f: File, t: Try,
        files': seq<File>, skip': set<Name>)
    requires CappedFairly(h, files, skip, max) && f in files && f.name !in skip && Blames(t, f.name)
    requires Shrunk(files, skip, files', skip')
    ensures CappedFairly(h.(tries := h.tries + [t]), files', skip', max)
  {
    assert Opens(Capping, Capping);
    var k := h.(tries := h.tries + [t]);
    forall i | 0 <= i < |k.log| && k.log[i].what.BatchQuarantined? ensures Fair(k, k.log[i].what, files', skip', max) {
      NotGivenUp(h, h.log[i].what, files, skip, max, f);
      FairStays(h, t, h.log[i].what, files, skip, max, files', skip');
    }
  }

  /** A failure of a waiting file while the database answered, below the cap. */
  lemma {:induction false} HeadStops(h: History, failures: map<Name, nat>, files: seq<File>, skip: set<Name>,
        max: int, f: File, t: Try)
    requires HeadKept(h, failures, files, skip, max) && CappedFairly(h, files, skip, max)
    requires f in files && f.name !in skip && f.name in h.origin && Tries(failures, f.name) + 1 < max
    requires Blames(t, f.name)
    ensures var k := h.(tries := h.tries + [t]);
            HeadKept(k, failures[f.name := Tries(failures, f.name) + 1], files, skip, max)
            && CappedFairly(k, files, skip, max)
  {
    CappedBlames(h, files, skip, max, f, t, files, skip);
    BlamedOne(h, t, f.name);
    assert Opens(Heading, Heading);
  }

  /** The failure that reaches the cap: the file is set aside or gone. */
  lemma {:induction false} HeadCaps(h: History, failures: map<Name, nat>, files: seq<File>, skip: set<Name>, max: int,
        f: File, t: Try, files': seq<File>, skip': set<Name>)
    requires HeadKept(h, failures, files, skip, max) && CappedFairly(h, files, skip, max)
    requires f in files && f.name !in skip && f.name in h.origin && Blames(t, f.name)
    requires Shrunk(files, skip, files', skip') && (f.name in Names(files') ==> f.name in skip')
    ensures var k := h.(tries := h.tries + [t]);
            HeadKept(k, failures - {f.name}, files', skip', max) && CappedFairly(k, files', skip', max)
  {
    CappedBlames(h, files, skip, max, f, t, files', skip');
    BlamedOne(h, t, f.name);
    assert Opens(Heading, Heading);
    forall g | g in files' && g.name !in skip'
      ensures g.name != f.name && Tries(failures - {f.name}, g.name) == Tries(failures, g.name)
    {
      NameIn(files', g);
    }
  }

  // --- storing ------------------------------------------------------------------------------------

  function EvictFates(fates: seq<Fate>, gone: set<Name>): seq<Fate> {
    seq(|fates|, i requires 0 <= i < |fates| => if fates[i].Spooled?
        && fates[i].name in gone then Evicted else fates[i])
  }

  function Within(fs: seq<File>, names: set<Name>): seq<File> {
    if fs == [] then []
    else Within(fs[..|fs| - 1], names) + if fs[|fs| - 1].name in names then [fs[|fs| - 1]] else []
  }

  lemma {:induction false} CountSplit(fs: seq<File>, names: set<Name>)
    ensures Count(fs) == Count(Without(fs, names)) + Count(Within(fs, names))
  {
    if fs != [] {
      var n := |fs| - 1;
      CountSplit(fs[..n], names);
      var a, b := Without(fs[..n], names), Within(fs[..n], names);
      assert (a + [fs[n]])[..|a|] == a && (b + [fs[n]])[..|b|] == b;
      assert fs[n].name in names ==> Without(fs, names) == a;
      assert fs[n].name !in names ==> Within(fs, names) == b;
    }
  }

  lemma {:induction false} CountAppend(fs: seq<File>, gs: seq<File>)
    ensures Count(fs + gs) == Count(fs) + Count(gs)
  {
    if gs == [] {
      assert fs + gs == fs;
    } else {
      assert (fs + gs)[..|fs + gs| - 1] == fs + gs[..|gs| - 1];
      CountAppend(fs, gs[..|gs| - 1]);
    }
  }

  lemma {:induction false} EvictPlaces(fates: seq<Fate>, origin: map<Name, nat>, files: seq<File>, idle: set<Name>,
        gone: set<Name>)
    requires Sorted(files) && Placed(fates, origin, files, idle)
    ensures Placed(EvictFates(fates, gone), origin, Without(files, gone), idle)
  {
    assert Opens(Placing, Placing);
    var left, after := Without(files, gone), EvictFates(fates, gone);
    assert forall f :: f in left ==> f in files && f.name !in gone by { WithoutIs(files, gone); }
    NamesWithout(files, gone);
    forall f | f in left && f.name !in idle
      ensures f.name in origin && origin[f.name] < |after| && after[origin[f.name]] == Spooled(f.name)
    {
      assert fates[origin[f.name]] == Spooled(f.name);
    }
    forall i | 0 <= i < |after| && after[i].Spooled?
      ensures after[i].name in Names(left) && after[i].name in origin && origin[after[i].name] == i
    {
      assert after[i] == fates[i];
    }
  }

  /** The books after files have been dropped for room. */
  function Drop(h: History, dropped: seq<File>, unread: set<Name>): History {
    h.(fates := EvictFates(h.fates, Names(dropped)), evicted := h.evicted + dropped,
        uncounted := h.uncounted + Within(dropped, unread))
  }

  lemma {:induction false} DropBooks(h: History, dropped: seq<File>, unread: set<Name>, corrupt: set<Name>,
        pending: seq<Name>, files: seq<File>, idle: set<Name>)
    requires AllBacked(h, corrupt, pending) && Placed(h.fates, h.origin, files, idle)
    ensures AllBacked(Drop(h, dropped, unread), corrupt, pending)
  {
    assert Opens(Backing, Backing) && Opens(Placing, Placing);
    var k := Drop(h, dropped, unread);
    DroppedSame(h.fates, k.fates);
    forall i | 0 <= i < |k.fates| ensures Backed(k, i, k.fates[i], corrupt, pending) {
      if h.fates[i].Spooled? && h.fates[i].name in Names(dropped) {
        var j := NamesFrom(dropped, h.fates[i].name);
        assert k.evicted[|h.evicted| + j] == dropped[j];
      } else {
        BackedGrows(h, k, i, h.fates[i], corrupt, corrupt, pending, pending);
      }
    }
  }

  /** A file for the newest submission is added behind the others. */
  lemma {:induction false} AddPlaces(h: History, files: seq<File>, idle: set<Name>, files': seq<File>, id: nat,
        number: nat, stamp: int)
    requires |files'| == |files| + 1 && files'[..|files|] == files
    requires Held(h.batches, h.origin, files) && Placed(h.fates, h.origin, files, idle) && Monotone(h.origin)
             && Known(h.origin, number, stamp)
    requires id + 1 == |h.batches| == |h.fates| && h.fates[id] == Pending && files'[|files|].records == h.batches[id]
    requires var n := files'[|files|].name; number < n.number && stamp <= n.stamp && n !in idle
    requires Assigned(h.origin, id)
    ensures var n := files'[|files|].name;
            var origin, fates := h.origin[n := id], h.fates[id := Spooled(n)];
            Held(h.batches, origin, files') && Placed(fates, origin, files', idle) && Monotone(origin) && n !in h.origin
  {
    assert Opens(Holding, Holding) && Opens(Placing, Placing);
    var f := files'[|files|];
    var n := f.name;
    var origin, fates := h.origin[n := id], h.fates[id := Spooled(n)];
    assert files' == files + [f];
    NamesSnoc(files, f);
    assert n !in h.origin;
    forall g | g in files' ensures Holds(h.batches, origin, g) {
      if g != f { assert g in files; }
    }
    forall g | g in files' && g.name !in idle
      ensures g.name in origin && origin[g.name] < |fates| && fates[origin[g.name]] == Spooled(g.name)
    {
      if g != f { assert g in files && Holds(h.batches, h.origin, g); }
    }
    forall i | 0 <= i < |fates| && fates[i].Spooled?
      ensures fates[i].name in Names(files') && fates[i].name in origin && origin[fates[i].name] == i
    {
      if i != id { assert fates[i] == h.fates[i]; }
    }
    forall a, b | a in origin && b in origin && Earlier(a, b) ensures origin[a] < origin[b] {
      if a == n { assert false; }
    }
  }

  lemma {:induction false} AheadAdds(h: History, files: seq<File>, idle: set<Name>, f: File, id: nat)
    requires CommitsInOrder(h.batches, h.commits) && Ahead(h.origin, Reach(h.commits), files, idle)
    requires id + 1 == |h.batches| && f.name !in h.origin
    ensures Ahead(h.origin[f.name := id], Reach(h.commits), files + [f], idle)
  {
    assert Opens(Leading, Leading) && Opens(Committing, Committing);
    assert Reach(h.commits) <= id by { if h.commits != [] { assert h.commits[|h.commits| - 1].id < |h.batches|; } }
  }

  lemma {:induction false} DropCounts(lost: Loss, h: History, beyond: multiset<Table>, dropped: seq<File>,
        unread: set<Name>, n: Notice)
    requires Counted(lost, h, beyond)
    requires n.what == SpoolDropped(|dropped|, Count(Without(dropped, unread)))
    ensures var k := Drop(h, dropped, unread);
            Counted(lost, k.(log := k.log + [n]), beyond)
  {
    assert Opens(Counting, Counting);
    SumSnoc(h.log, n);
    CountSplit(dropped, unread);
    CountAppend(h.evicted, dropped);
    CountAppend(h.uncounted, Within(dropped, unread));
    var d := Drop(h, dropped, unread);
    var k := d.(log := d.log + [n]);
    assert Sum(k.log) == Plus(Sum(h.log), n.what);
    DropTally(lost, h, k, Sum(h.log), beyond, n, |dropped|, Count(dropped));
  }

  lemma {:induction false} DropTally(lost: Loss, h: History, k: History, t: Tally, beyond: multiset<Table>, n: Notice,
        files: nat, records: nat)
    requires AddsUp(lost, h, t, beyond) && n.what.SpoolDropped?
    requires n.what.dropped == files && n.what.lost + Count(k.uncounted) == records + Count(h.uncounted)
    requires |k.evicted| == |h.evicted| + files && Count(k.evicted) == Count(h.evicted) + records
    requires k == h.(log := k.log, fates := k.fates, evicted := k.evicted, uncounted := k.uncounted)
    ensures AddsUp(lost, k, Plus(t, n.what), beyond)
  {
  }
}
