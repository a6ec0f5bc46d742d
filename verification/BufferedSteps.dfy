/** Every step of the buffered writer keeps its books sound, whatever disk and server do. */
module BufferedSteps {
  import opened Upsert
  import opened Records
  import opened Writer
  import opened WriterTheorems
  import opened Spooling
  import opened Attempts
  import opened Delivery
  import opened Sealing
  import opened DeliverySteps

  /** A file replay still looks at. */
  ghost predicate Waiting(w: World, f: File) {
    f in w.files && f.name !in w.skip
  }

  function Log(h: History, n: Notice): History { h.(log := h.log + [n]) }

  /** Notices that say nothing about the outage. */
  lemma {:induction false} OutageUnmoved(p: Params, h: History, w: World, n: Notice)
    requires OutageKept(h, w.since, w.retry, w.delay, p.base, p.cap, w.batches, w.records, w.superseded)
    requires !n.what.DatabaseUnavailable? && !n.what.DatabaseRecovered?
    ensures OutageKept(Log(h, n), w.since, w.retry, w.delay, p.base, p.cap, w.batches, w.records, w.superseded)
  {
    assert Opens(Outages, Outages);
    SumSnoc(h.log, n);
    OutageTally(p, h, w, Sum(h.log), n);
  }

  lemma {:induction false} OutageTally(p: Params, h: History, w: World, t: Tally, n: Notice)
    requires OutageAgrees(h, t, w.since, w.retry, w.delay, p.base, p.cap, w.batches, w.records, w.superseded)
    requires !n.what.DatabaseUnavailable? && !n.what.DatabaseRecovered?
    ensures OutageAgrees(Log(h, n), Plus(t, n.what), w.since, w.retry, w.delay, p.base, p.cap, w.batches, w.records,
            w.superseded)
  {
  }

  lemma {:induction false} OneMore(s: set<nat>, id: nat)
    requires id !in s
    ensures |s + {id}| == |s| + 1
  {
  }

  lemma {:induction false} UnkeptTally(lost: Loss, h: History, t: Tally, beyond: multiset<Table>, id: nat, n: Notice)
    requires AddsUp(lost, h, t, beyond) && id !in h.unkept && n.what.BatchQuarantined? && n.what.file == None
    ensures AddsUp(lost, Log(h, n).(unkept := h.unkept + {id}), Plus(t, n.what), beyond)
  {
    OneMore(h.unkept, id);
  }

  lemma {:induction false} UnkeptCounts(lost: Loss, h: History, beyond: multiset<Table>, id: nat, n: Notice)
    requires Counted(lost, h, beyond) && id !in h.unkept && n.what.BatchQuarantined? && n.what.file == None
    ensures Counted(lost, Log(h, n).(unkept := h.unkept + {id}), beyond)
  {
    assert Opens(Counting, Counting);
    SumSnoc(h.log, n);
    UnkeptTally(lost, h, Sum(h.log), beyond, id, n);
  }

  lemma {:induction false} FailedTally(lost: Loss, h: History, t: Tally, beyond: multiset<Table>, id: nat, n: Notice)
    requires AddsUp(lost, h, t, beyond) && id !in h.failed && n.what == SpoolWriteFailed
    ensures AddsUp(lost, Log(h, n).(failed := h.failed + {id}), Plus(t, n.what), beyond)
  {
    OneMore(h.failed, id);
  }

  lemma {:induction false} FailedCounts(lost: Loss, h: History, beyond: multiset<Table>, id: nat, n: Notice)
    requires Counted(lost, h, beyond) && id !in h.failed && n.what == SpoolWriteFailed
    ensures Counted(lost, Log(h, n).(failed := h.failed + {id}), beyond)
  {
    assert Opens(Counting, Counting);
    SumSnoc(h.log, n);
    FailedTally(lost, h, Sum(h.log), beyond, id, n);
  }

  /** Notices that count towards nothing but what they say. */
  lemma {:induction false} NeutralCounts(lost: Loss, h: History, beyond: multiset<Table>, n: Notice)
    requires Counted(lost, h, beyond) && n.what.BatchQuarantined? && n.what.file.Some?
    ensures Counted(lost, Log(h, n), beyond)
  {
    assert Opens(Counting, Counting);
    SumSnoc(h.log, n);
    assert Plus(Sum(h.log), n.what) == Sum(h.log);
  }

  lemma {:induction false} NeutralNotice(p: Params, h: History, w: World, n: Notice)
    requires Counted(p.lost, h, w.beyond)
    requires OutageKept(h, w.since, w.retry, w.delay, p.base, p.cap, w.batches, w.records, w.superseded)
    requires n.what.BatchQuarantined? && n.what.file.Some?
    ensures Counted(p.lost, Log(h, n), w.beyond)
    ensures OutageKept(Log(h, n), w.since, w.retry, w.delay, p.base, p.cap, w.batches, w.records, w.superseded)
  {
    NeutralCounts(p.lost, h, w.beyond, n);
    OutageUnmoved(p, h, w, n);
  }

  lemma {:induction false} OriginOf(p: Params, h: History, w: World, f: File)
    requires Sound(p, h, w) && f in w.files
    ensures f.name in h.origin && h.origin[f.name] < |h.batches| == |h.fates|
            && h.batches[h.origin[f.name]] == f.records
    ensures f.name !in w.skip ==> h.fates[h.origin[f.name]] == Spooled(f.name)
  {
    assert Opens(Holding, Holding) && Opens(Placing, Placing);
    assert Holds(h.batches, h.origin, f);
  }

  /** The file's submission is known. */
  ghost predicate Settleable(h: History, f: File) {
    f.name in h.origin && h.origin[f.name] < |h.batches| == |h.fates| && h.batches[h.origin[f.name]] == f.records
  }

  lemma {:induction false} FileSettleable(p: Params, h: History, w: World, f: File)
    requires BooksKept(p, h, w) && f in w.files
    ensures Settleable(h, f) && (f.name !in w.skip ==> h.fates[h.origin[f.name]] == Spooled(f.name))
  {
    assert Opens(Whole, Whole);
    OriginOf(p, h, w, f);
  }

  /** A waiting file leaves the directory. */
  function Gone(w: World, f: File): World {
    w.(files := Without(w.files, {f.name}), failures := w.failures - {f.name})
  }

  /** A waiting file is set aside for the rest of the process. */
  function Aside(w: World, f: File): World {
    w.(skip := w.skip + {f.name}, failures := w.failures - {f.name})
  }

  lemma {:induction false} GoneShrinks(w: World, f: File)
    requires Sorted(w.files)
    ensures Sorted(Gone(w, f).files)
    ensures Shrunk(w.files, w.skip, Gone(w, f).files, w.skip)
    ensures Shrunk(w.files, w.skip + w.stuck, Gone(w, f).files, w.skip + w.stuck)
    ensures f.name !in Names(Gone(w, f).files)
    ensures forall g :: g in Gone(w, f).files ==> g.name != f.name
  {
    WithoutIs(w.files, {f.name});
    NamesWithout(w.files, {f.name});
  }

  /** Dealing with one file touches nothing else the scan relies on. */
  ghost predicate Past(h: History, w: World, k: History, v: World, f: File) {
    && k.batches == h.batches && k.origin == h.origin && k.phase == h.phase && |k.fates| == |h.fates|
    && (forall i :: 0 <= i < |h.fates| && (f.name !in h.origin || i != h.origin[f.name]) ==> k.fates[i] == h.fates[i])
    && (f.name in h.origin && h.origin[f.name] < |k.fates| ==> k.fates[h.origin[f.name]] != Pending)
    && (v.files == w.files || v.files == Without(w.files, {f.name}))
    && (v.skip == w.skip || v.skip == w.skip + {f.name})
    && (v.stuck == w.stuck || v.stuck == w.stuck + {f.name})
    && v.since == w.since && v.retry == w.retry && v.delay == w.delay
  }

  /** Replay has no more business with the file in this process. */
  ghost predicate IsOut(w: World, f: File) {
    f !in w.files || f.name in w.skip + w.stuck
  }

  ghost predicate SameTries(w: World, v: World) {
    forall g :: g in v.files && g.name !in v.skip ==> Tries(v.failures, g.name) == Tries(w.failures, g.name)
  }

  /** The file has been dealt with. */
  ghost predicate DoneWith(h: History, w: World, k: History, v: World, f: File) {
    forall z :: Opens(z, Finishing) ==> Past(h, w, k, v, f) && IsOut(v, f) && SameTries(w, v)
  }

  /** Only the file's own submission may have changed. */
  ghost predicate OnlyFate(h: History, k: History, f: File) {
    && k.batches == h.batches && k.origin == h.origin && k.phase == h.phase && |k.fates| == |h.fates|
    && (forall i :: 0 <= i < |h.fates| && (f.name !in h.origin || i != h.origin[f.name]) ==> k.fates[i] == h.fates[i])
    && (f.name in h.origin && h.origin[f.name] < |k.fates| ==> k.fates[h.origin[f.name]] != Pending)
  }

  lemma {:induction false} DoneGone(p: Params, h: History, w: World, k: History, v: World, f: File)
    requires BooksKept(p, h, w) && OnlyFate(h, k, f)
    requires v.files == Without(w.files, {f.name}) && v.skip == w.skip && v.stuck == w.stuck
    requires v.failures == w.failures - {f.name} || v.failures == w.failures
    requires v.since == w.since && v.retry == w.retry && v.delay == w.delay
    ensures DoneWith(h, w, k, v, f)
  {
    assert Opens(Whole, Whole) && Opens(Listing, Listing);
    WithoutIs(w.files, {f.name});
  }

  lemma {:induction false} DoneAside(h: History, w: World, k: History, v: World, f: File)
    requires OnlyFate(h, k, f) && v.files == w.files
    requires v.skip + v.stuck == w.skip + w.stuck + {f.name}
    requires (v.skip == w.skip || v.skip == w.skip + {f.name}) && (v.stuck == w.stuck || v.stuck == w.stuck + {f.name})
    requires v.failures == w.failures || (v.failures == w.failures - {f.name} && f.name in v.skip)
    requires v.since == w.since && v.retry == w.retry && v.delay == w.delay
    ensures DoneWith(h, w, k, v, f)
  {
  }

  /** The parts of the books that only care which files are waiting. */
  lemma {:induction false} RetireOrder(p: Params, h: History, w: World, v: World, f: File)
    requires Sound(p, h, w) && Waiting(w, f) && (v == Gone(w, f) || v == Aside(w, f))
    ensures Listed(v.files) && Held(h.batches, h.origin, v.files)
    ensures Ahead(h.origin, Reach(h.commits), v.files, v.skip + v.stuck)
    ensures v.skip + v.stuck <= h.origin.Keys
    ensures HeadKept(h, v.failures, v.files, v.skip, p.max) && CappedFairly(h, v.files, v.skip, p.max)
  {
    OriginOf(p, h, w, f);
    assert Opens(Listing, Listing);
    GoneShrinks(w, f);
    OrderShrinks(h.batches, h.origin, Reach(h.commits), w.files, w.skip + w.stuck, v.files, v.skip + v.stuck);
    HeadShrinks(h, w.failures, w.files, w.skip, p.max, v.failures, v.files, v.skip);
    CappedShrinks(h, w.files, w.skip, p.max, v.files, v.skip);
  }

  lemma {:induction false} RetirePlaces(p: Params, h: History, w: World, v: World, f: File, x: Fate)
    requires Sound(p, h, w) && Waiting(w, f)
    requires (v == Gone(w, f) && !x.Spooled?) || (v == Aside(w, f) && (x.Spooled? ==> x == Spooled(f.name)))
    ensures f.name in h.origin && h.origin[f.name] < |h.fates| && h.fates[h.origin[f.name]] == Spooled(f.name)
    ensures Placed(h.fates[h.origin[f.name] := x], h.origin, v.files, v.skip)
  {
    if v == Gone(w, f) && !x.Spooled? {
      RetireGone(h.fates, h.origin, w.files, w.skip, f, x) by { assert Opens(Listing, Listing); }
    } else {
      RetireAside(h.fates, h.origin, w.files, w.skip, f, x);
    }
  }

  // --- a superseded live-only batch -----------------------------------------------------------

  function Supersede(h: History, f: File): History
    requires f.name in h.origin && h.origin[f.name] < |h.fates|
  {
    h.(fates := h.fates[h.origin[f.name] := Superseded], batchesSuperseded := h.batchesSuperseded + 1)
  }

  /** It is deleted and counted. */
  lemma {:induction false} SupersededGone(p: Params, h: History, w: World, f: File)
    requires BooksKept(p, h, w) && Waiting(w, f) && AllLive(f.records)
    ensures f.name in h.origin && h.origin[f.name] < |h.fates|
    ensures BooksKept(p, Supersede(h, f), Gone(w, f).(superseded := w.superseded + 1))
  {
    assert Opens(Whole, Whole);
    OriginOf(p, h, w, f);
    var v := Gone(w, f);
    var k := Supersede(h, f);
    RetireOrder(p, h, w, v, f);
    RetirePlaces(p, h, w, v, f, Superseded);
    Rebook(h, k, h.origin[f.name], Superseded, Names(w.corrupt), Names(w.corrupt), w.unread, w.unread);
    SameHead(h, k, v.failures, v.files, v.skip, p.max);
    SupersededOutage(p, h, k, w);
    SameCounts(p.lost, h, k, w.beyond);
    assert Sound(p, k, v.(superseded := w.superseded + 1));
  }

  lemma {:induction false} SupersededOutage(p: Params, h: History, k: History, w: World)
    requires OutageKept(h, w.since, w.retry, w.delay, p.base, p.cap, w.batches, w.records, w.superseded)
    requires k == h.(fates := k.fates, batchesSuperseded := h.batchesSuperseded + 1)
    ensures OutageKept(k, w.since, w.retry, w.delay, p.base, p.cap, w.batches, w.records, w.superseded + 1)
  {
    assert Opens(Outages, Outages);
  }

  lemma {:induction false} SameCounts(lost: Loss, h: History, k: History, beyond: multiset<Table>)
    requires Counted(lost, h, beyond)
    requires k.log == h.log && k.evicted == h.evicted && k.uncounted == h.uncounted && k.failed == h.failed
             && k.unkept == h.unkept
    requires k.batches == h.batches && k.acked == h.acked && k.commits == h.commits
    ensures Counted(lost, k, beyond)
  {
    assert Opens(Counting, Counting);
  }

  lemma {:induction false} SameBacking(h: History, k: History, corrupt: set<Name>, unread: seq<Name>)
    requires AllBacked(h, corrupt, unread)
    requires k.fates == h.fates && k.batches == h.batches && k.origin == h.origin && k.acked == h.acked
             && k.evicted == h.evicted
    requires k.failed == h.failed && k.unkept == h.unkept && k.log == h.log
    requires k.batchesSuperseded == h.batchesSuperseded
    ensures AllBacked(k, corrupt, unread)
  {
    BooksGrow(h, k, corrupt, corrupt, unread, unread);
  }

  lemma {:induction false} SameOutage(p: Params, h: History, k: History, w: World)
    requires OutageKept(h, w.since, w.retry, w.delay, p.base, p.cap, w.batches, w.records, w.superseded)
    requires k.log == h.log && k.phase == h.phase && k.tries == h.tries && k.batchesSuperseded == h.batchesSuperseded
    ensures OutageKept(k, w.since, w.retry, w.delay, p.base, p.cap, w.batches, w.records, w.superseded)
  {
    assert Opens(Outages, Outages);
  }

  /** A file that cannot be deleted or moved is set aside where it is. */
  lemma {:induction false} AsideStep(p: Params, h: History, w: World, f: File)
    requires BooksKept(p, h, w) && Waiting(w, f)
    ensures BooksKept(p, h, Aside(w, f))
  {
    assert Opens(Whole, Whole);
    RetireOrder(p, h, w, Aside(w, f), f);
    RetirePlaces(p, h, w, Aside(w, f), f, Spooled(f.name));
    assert h.fates[h.origin[f.name] := Spooled(f.name)] == h.fates;
  }

  lemma {:induction false} SameHead(h: History, k: History, failures: map<Name, nat>, files: seq<File>,
        skip: set<Name>, max: int)
    requires HeadKept(h, failures, files, skip, max) && CappedFairly(h, files, skip, max)
    requires k.tries == h.tries && k.origin == h.origin && k.log == h.log && h.batches <= k.batches
    ensures HeadKept(k, failures, files, skip, max) && CappedFairly(k, files, skip, max)
  {
    assert Opens(Heading, Heading) && Opens(Capping, Capping);
    forall i | 0 <= i < |k.log| && k.log[i].what.BatchQuarantined? ensures Fair(k, k.log[i].what, files, skip, max) {
      FairGrows(h, k, h.log[i].what, files, skip, max);
    }
  }

  lemma {:induction false} FairGrows(h: History, k: History, w: What, files: seq<File>, skip: set<Name>, max: int)
    requires w.BatchQuarantined? && Fair(h, w, files, skip, max) && k.tries == h.tries && h.batches <= k.batches
    requires forall n :: n in h.origin ==> n in k.origin && k.origin[n] == h.origin[n]
    ensures Fair(k, w, files, skip, max)
  {
    if !w.cause.Repeated? && !w.cause.Unreadable? {
      var i :| 0 <= i < |h.batches| && WasRefused(h.tries, h.batches[i])
               && (w.file.Some? ==> w.file.value in h.origin && h.origin[w.file.value] == i);
      assert k.batches[i] == h.batches[i];
    }
  }

  /** What a refusal justifies. */
  lemma {:induction false} RefusalFair(h: History, w: What, id: nat, files: seq<File>, skip: set<Name>, max: int)
    requires w.BatchQuarantined? && !w.cause.Repeated? && id < |h.batches| && WasRefused(h.tries, h.batches[id])
    requires w.file.Some? ==> w.file.value in h.origin && h.origin[w.file.value] == id
    ensures Fair(h, w, files, skip, max)
  {
  }

  // --- a write is tried ------------------------------------------------------------------------

  /** A write that neither blames a file nor delivers one. */
  ghost predicate Neutral(t: Try) { !IsReplayed(t) && forall n :: !Blames(t, n) }

  function Tried(h: History, t: Try): History { h.(tries := h.tries + [t]) }

  lemma {:induction false} TryOutage(p: Params, h: History, w: World, t: Try)
    requires OutageKept(h, w.since, w.retry, w.delay, p.base, p.cap, w.batches, w.records, w.superseded)
    requires !IsReplayed(t)
    ensures OutageKept(Tried(h, t), w.since, w.retry, w.delay, p.base, p.cap, w.batches, w.records, w.superseded)
  {
    assert Opens(Outages, Outages);
    ReplayedSnoc(h.tries, t);
  }

  /** Tries play no part in the other books. */
  lemma {:induction false} TriesOnly(p: Params, h: History, t: Try, w: World)
    requires AllBacked(h, Names(w.corrupt), w.unread) && Counted(p.lost, h, w.beyond)
    ensures AllBacked(Tried(h, t), Names(w.corrupt), w.unread) && Counted(p.lost, Tried(h, t), w.beyond)
  {
    SameBacking(h, Tried(h, t), Names(w.corrupt), w.unread);
    SameCounts(p.lost, h, Tried(h, t), w.beyond);
  }

  lemma {:induction false} TryStep(p: Params, h: History, w: World, t: Try)
    requires BooksKept(p, h, w) && Neutral(t)
    ensures BooksKept(p, Tried(h, t), w)
  {
    assert Opens(Whole, Whole);
    TryOutage(p, h, w, t);
    TriesOnly(p, h, t, w);
    HeadTries(h, w.failures, w.files, w.skip, p.max, t);
  }

  // --- an unreadable batch --------------------------------------------------------------------

  /** It moves to corrupt/ and waits to be reported. */
  lemma {:induction false} UnreadableMoved(p: Params, h: History, w: World, f: File)
    requires BooksKept(p, h, w) && Waiting(w, f)
    ensures f.name in h.origin && h.origin[f.name] < |h.fates|
    ensures BooksKept(p, h.(fates := h.fates[h.origin[f.name] := InCorrupt(f.name)]),
                  w.(files := Without(w.files, {f.name}), corrupt := w.corrupt + [f], unread := w.unread + [f.name]))
  {
    assert Opens(Whole, Whole);
    OriginOf(p, h, w, f);
    var id := h.origin[f.name];
    var k := h.(fates := h.fates[id := InCorrupt(f.name)]);
    var v := w.(files := Without(w.files, {f.name}), corrupt := w.corrupt + [f], unread := w.unread + [f.name]);
    RetireOrder(p, h, w, Gone(w, f), f);
    RetirePlaces(p, h, w, Gone(w, f), f, InCorrupt(f.name));
    assert AllBacked(k, Names(v.corrupt), v.unread) by {
      NamesSnoc(w.corrupt, f);
      Rebook(h, k, id, InCorrupt(f.name), Names(w.corrupt), Names(v.corrupt), w.unread, v.unread);
    }
    HeadShrinks(h, w.failures, w.files, w.skip, p.max, w.failures, v.files, w.skip)
        by { assert Opens(Listing, Listing); GoneShrinks(w, f); }
    SameHead(h, k, v.failures, v.files, v.skip, p.max);
    SameCounts(p.lost, h, k, w.beyond);
    SameOutage(p, h, k, w);
    assert Sound(p, k, v);
  }

  /** It is stuck where it is, and waits to be reported. */
  lemma {:induction false} UnreadableStuck(p: Params, h: History, w: World, f: File)
    requires BooksKept(p, h, w) && Waiting(w, f)
    ensures BooksKept(p, h, w.(stuck := w.stuck + {f.name}, unread := w.unread + [f.name]))
  {
    assert Opens(Whole, Whole);
    OriginOf(p, h, w, f);
    var v := w.(stuck := w.stuck + {f.name}, unread := w.unread + [f.name]);
    OrderShrinks(h.batches, h.origin, Reach(h.commits), w.files, w.skip + w.stuck, v.files, v.skip + v.stuck);
    BooksGrow(h, h, Names(w.corrupt), Names(w.corrupt), w.unread, v.unread);
  }

  // --- a batch is committed ---------------------------------------------------------------------

  function Commits(h: History, c: Committed): History { h.(commits := h.commits + [c]) }

  /** Any commit, acknowledged or not, of a submission that no waiting file precedes. */
  lemma {:induction false} CommitStep(p: Params, h: History, w: World, c: Committed, db: Db)
    requires BooksKept(p, h, w) && c.id < |h.batches| && Reach(h.commits) <= c.id
    requires Ahead(h.origin, c.id, w.files, w.skip + w.stuck)
    requires db == p.tables(h.batches, h.commits + [c])
    ensures BooksKept(p, Commits(h, c), w.(db := db))
  {
    assert Opens(Whole, Whole);
    var k := Commits(h, c);
    CommitKeeps(h.batches, h.origin, h.commits, w.files, w.skip + w.stuck, c);
    CountedCommit(p.lost, h, w.beyond, c);
    BooksGrow(h, k, Names(w.corrupt), Names(w.corrupt), w.unread, w.unread);
    SameHead(h, k, w.failures, w.files, w.skip, p.max);
  }

  function Acknowledge(h: History, c: Committed): History
    requires c.id < |h.fates|
  {
    h.(acked := h.acked + [c], fates := h.fates[c.id := Delivered])
  }

  lemma {:induction false} AcknowledgeBooks(p: Params, h: History, w: World, c: Committed)
    requires Sound(p, h, w) && c in h.commits && c.id < |h.batches|
             && (h.fates[c.id].Spooled? || h.fates[c.id].Pending?)
    ensures AllBacked(Acknowledge(h, c), Names(w.corrupt), w.unread)
    ensures Counted(p.lost, Acknowledge(h, c), w.beyond + p.lost(h.batches[c.id], c.now))
  {
    var k := Acknowledge(h, c);
    AckCounts(p.lost, h, w.beyond, c);
    Rebook(h, k, c.id, Delivered, Names(w.corrupt), Names(w.corrupt), w.unread, w.unread);
  }

  /** The books once a spooled batch is known to be in the database. */
  function Delivers(h: History, c: Committed, t: Try): History
    requires c.id < |h.fates|
  {
    Tried(Acknowledge(h, c), t)
  }

  lemma {:induction false} DeliveredOutage(p: Params, h: History, w: World, t: Try)
    requires OutageKept(h, w.since, w.retry, w.delay, p.base, p.cap, w.batches, w.records, w.superseded)
    requires IsReplayed(t)
    ensures OutageKept(Tried(h, t), w.since, w.retry, w.delay, p.base, p.cap, w.batches + 1,
                       w.records + |t.records|, w.superseded)
  {
    assert Opens(Outages, Outages);
    ReplayedSnoc(h.tries, t);
  }

  lemma {:induction false} DeliveredStep(p: Params, h: History, w: World, f: File, c: Committed, v: World, t: Try)
    requires BooksKept(p, h, w) && Waiting(w, f) && c in h.commits && f.name in h.origin
             && c.id == h.origin[f.name] < |h.fates| == |h.batches|
    requires (v == Gone(w, f) || v == Aside(w, f)) && IsReplayed(t) && t.records == f.records
    ensures BooksKept(p, Delivers(h, c, t),
                  v.(batches := w.batches + 1, records := w.records + |f.records|,
                     beyond := w.beyond + p.lost(f.records, c.now)))
  {
    assert Opens(Whole, Whole);
    OriginOf(p, h, w, f);
    var a, k := Acknowledge(h, c), Delivers(h, c, t);
    var beyond := w.beyond + p.lost(f.records, c.now);
    AcknowledgeBooks(p, h, w, c);
    TriesOnly(p, a, t, w.(beyond := beyond));
    RetireOrder(p, h, w, v, f);
    RetirePlaces(p, h, w, v, f, Delivered);
    HeadTries(h, v.failures, v.files, v.skip, p.max, t);
    SameHead(Tried(h, t), k, v.failures, v.files, v.skip, p.max);
    DeliveredOutage(p, h, w, t);
    SameOutage(p, Tried(h, t), k, w.(batches := w.batches + 1, records := w.records + |f.records|));
    assert Sound(p, k, v.(batches := w.batches + 1, records := w.records + |f.records|, beyond := beyond));
  }

  // --- a spooled batch is given up ------------------------------------------------------------------

  /** The books once `f`'s batch is in corrupt/ and reported; `tries` if for repeated failure. */
  function Quarantines(h: History, f: File, n: Notice, moved: bool): History
    requires f.name in h.origin && h.origin[f.name] < |h.fates|
  {
    Log(if moved then h.(fates := h.fates[h.origin[f.name] := InCorrupt(f.name)]) else h, n)
  }

  lemma {:induction false} QuarantineBooks(p: Params, h: History, w: World, f: File, n: Notice, moved: bool)
    requires f.name in h.origin && h.origin[f.name] < |h.fates| && h.fates[h.origin[f.name]] == Spooled(f.name)
    requires AllBacked(h, Names(w.corrupt), w.unread) && Counted(p.lost, h, w.beyond)
    requires OutageKept(h, w.since, w.retry, w.delay, p.base, p.cap, w.batches, w.records, w.superseded)
    requires n.what.BatchQuarantined? && n.what.file == Some(f.name)
    ensures var k := Quarantines(h, f, n, moved);
            AllBacked(k, if moved then Names(w.corrupt + [f]) else Names(w.corrupt), w.unread)
            && Counted(p.lost, k, w.beyond)
            && OutageKept(k, w.since, w.retry, w.delay, p.base, p.cap, w.batches, w.records, w.superseded)
  {
    var k := Quarantines(h, f, n, moved);
    NeutralNotice(p, h, w, n);
    SameCounts(p.lost, Log(h, n), k, w.beyond);
    SameOutage(p, Log(h, n), k, w);
    if moved {
      NamesSnoc(w.corrupt, f);
      ToldGrows(h.log, n, f.name);
      Rebook(h, k, h.origin[f.name], InCorrupt(f.name), Names(w.corrupt), Names(w.corrupt + [f]), w.unread, w.unread);
    } else {
      BooksGrow(h, k, Names(w.corrupt), Names(w.corrupt), w.unread, w.unread);
    }
  }

  /** A batch the server refuses outright. */
  lemma {:induction false} RefusedStep(p: Params, h: History, w: World, f: File, n: Notice, moved: bool)
    requires BooksKept(p, h, w) && Waiting(w, f) && n.what == BatchQuarantined(Some(f.name), Refused)
    requires WasRefused(h.tries, f.records)
    ensures f.name in h.origin && h.origin[f.name] < |h.fates|
    ensures BooksKept(p, Quarantines(h, f, n, moved), if moved then Gone(w, f).(corrupt := w.corrupt + [f])
            else Aside(w, f))
  {
    assert Opens(Whole, Whole);
    OriginOf(p, h, w, f);
    var v := if moved then Gone(w, f) else Aside(w, f);
    var k := Quarantines(h, f, n, moved);
    QuarantineBooks(p, h, w, f, n, moved);
    RetireOrder(p, h, w, v, f);
    RetirePlaces(p, h, w, v, f, if moved then InCorrupt(f.name) else Spooled(f.name));
    assert !moved ==> h.fates[h.origin[f.name] := Spooled(f.name)] == h.fates;
    RefusalFair(h, n.what, h.origin[f.name], v.files, v.skip, p.max);
    CappedLog(h, v.files, v.skip, p.max, n);
    HeadLog(h, n, v.failures, v.files, v.skip, p.max);
    SameHead(Log(h, n), k, v.failures, v.files, v.skip, p.max);
  }

  /** The writer's count of failures of a waiting file is the history's. */
  lemma {:induction false} CountsAgree(h: History, w: World, f: File, max: int)
    requires HeadKept(h, w.failures, w.files, w.skip, max) && Waiting(w, f)
    ensures Tries(w.failures, f.name) == Answered(h.tries, f.name)
  {
    assert Opens(Heading, Heading);
  }

  /** A batch that has used up its attempts while the database answered. */
  lemma {:induction false} ExhaustedStep(p: Params, h: History, w: World, f: File, n: Notice, t: Try, moved: bool)
    requires BooksKept(p, h, w) && Waiting(w, f) && Blames(t, f.name)
    requires n.what == BatchQuarantined(Some(f.name), Repeated(Tries(w.failures, f.name) + 1))
             && p.max <= Tries(w.failures, f.name) + 1
    ensures f.name in h.origin && h.origin[f.name] < |h.fates|
    ensures BooksKept(p, Quarantines(Tried(h, t), f, n, moved),
                  if moved then Gone(w, f).(corrupt := w.corrupt + [f]) else Aside(w, f))
  {
    assert Opens(Whole, Whole);
    OriginOf(p, h, w, f);
    var v := if moved then Gone(w, f) else Aside(w, f);
    var e := Tried(h, t);
    var k := Quarantines(e, f, n, moved);
    TriesOnly(p, h, t, w);
    TryOutage(p, h, w, t);
    QuarantineBooks(p, e, w, f, n, moved);
    RetireOrder(p, h, w, v, f);
    RetirePlaces(p, h, w, v, f, if moved then InCorrupt(f.name) else Spooled(f.name));
    assert !moved ==> h.fates[h.origin[f.name] := Spooled(f.name)] == h.fates;
    ExhaustedHead(p, h, w, f, n, t, v);
    SameHead(Log(e, n), k, v.failures, v.files, v.skip, p.max);
    assert Sound(p, k, if moved then v.(corrupt := w.corrupt + [f]) else v);
  }

  lemma {:induction false} RetireShrinks(w: World, f: File, v: World)
    requires Listed(w.files) && (v == Gone(w, f) || v == Aside(w, f))
    ensures Shrunk(w.files, w.skip, v.files, v.skip) && (f.name in Names(v.files) ==> f.name in v.skip)
  {
    GoneShrinks(w, f) by { assert Opens(Listing, Listing); }
  }

  lemma {:induction false} ExhaustedHead(p: Params, h: History, w: World, f: File, n: Notice, t: Try, v: World)
    requires Listed(w.files) && HeadKept(h, w.failures, w.files, w.skip, p.max)
             && CappedFairly(h, w.files, w.skip, p.max)
    requires Waiting(w, f) && f.name in h.origin && (v == Gone(w, f) || v == Aside(w, f)) && Blames(t, f.name)
    requires n.what == BatchQuarantined(Some(f.name), Repeated(Tries(w.failures, f.name) + 1))
             && p.max <= Tries(w.failures, f.name) + 1
    ensures var k := Log(Tried(h, t), n);
            HeadKept(k, v.failures, v.files, v.skip, p.max) && CappedFairly(k, v.files, v.skip, p.max)
  {
    CountsAgree(h, w, f, p.max);
    RetireShrinks(w, f, v);
    HeadCaps(h, w.failures, w.files, w.skip, p.max, f, t, v.files, v.skip);
    AnsweredSnoc(h.tries, t, f.name);
    ExhaustedLog(Tried(h, t), n, f, v.failures, v.files, v.skip, p.max, Tries(w.failures, f.name) + 1);
  }

  lemma {:induction false} ExhaustedLog(e: History, n: Notice, f: File, failures: map<Name, nat>, files: seq<File>,
        skip: set<Name>, max: int, attempts: nat)
    requires HeadKept(e, failures, files, skip, max) && CappedFairly(e, files, skip, max)
    requires f.name in e.origin && Answered(e.tries, f.name) == attempts >= max
             && (f.name in Names(files) ==> f.name in skip)
    requires n.what == BatchQuarantined(Some(f.name), Repeated(attempts))
    ensures HeadKept(Log(e, n), failures, files, skip, max) && CappedFairly(Log(e, n), files, skip, max)
  {
    CappedLog(e, files, skip, max, n);
    HeadLog(e, n, failures, files, skip, max);
  }

  /** A failure below the cap while the database answered: the batch keeps its place. */
  lemma {:induction false} StopStep(p: Params, h: History, w: World, f: File, t: Try)
    requires BooksKept(p, h, w) && Waiting(w, f) && Tries(w.failures, f.name) + 1 < p.max && Blames(t, f.name)
    ensures BooksKept(p, Tried(h, t), w.(failures := w.failures[f.name := Tries(w.failures, f.name) + 1]))
  {
    assert Opens(Whole, Whole);
    OriginOf(p, h, w, f);
    HeadStops(h, w.failures, w.files, w.skip, p.max, f, t);
    TriesOnly(p, h, t, w);
    TryOutage(p, h, w, t);
  }

  // --- a submission begins ---------------------------------------------------------------------------

  lemma {:induction false} BeginStep(p: Params, h: History, w: World, records: seq<Record>)
    requires BooksKept(p, h, w) && w.db == p.tables(h.batches + [records], h.commits)
    ensures BooksKept(p, Begin(h, records), w)
    ensures Assigned(h.origin, |h.batches|)
  {
    assert Opens(Whole, Whole) && Opens(Naming, Naming);
    var k := Begin(h, records);
    BeginOrder(h, records, w.files, w.skip);
    BeginBooks(p.lost, h, records, Names(w.corrupt), w.unread, w.beyond);
    SameHead(h, k, w.failures, w.files, w.skip, p.max);
  }

  /** The newest submission, not yet settled. */
  ghost predicate Unsettled(h: History, id: nat) {
    id + 1 == |h.batches| == |h.fates| && h.fates[id] == Pending && Assigned(h.origin, id)
    && forall i :: 0 <= i < id ==> h.fates[i] != Pending
  }

  ghost predicate Settled(h: History) {
    forall i :: 0 <= i < |h.fates| ==> h.fates[i] != Pending
  }

  /** It turns out to be empty. */
  lemma {:induction false} EmptyStep(p: Params, h: History, w: World, id: nat)
    requires BooksKept(p, h, w) && Unsettled(h, id) && h.batches[id] == []
    ensures BooksKept(p, h.(fates := h.fates[id := Nothing]), w)
  {
    assert Opens(Whole, Whole);
    var k := h.(fates := h.fates[id := Nothing]);
    Rebook(h, k, id, Nothing, Names(w.corrupt), Names(w.corrupt), w.unread, w.unread);
    SettlePlaces(h, w, id, Nothing);
    SameHead(h, k, w.failures, w.files, w.skip, p.max);
    SameCounts(p.lost, h, k, w.beyond);
    SameOutage(p, h, k, w);
    assert Sound(p, k, w);
  }

  lemma {:induction false} SettlePlaces(h: History, w: World, id: nat, x: Fate)
    requires Unsettled(h, id) && Placed(h.fates, h.origin, w.files, w.skip) && !x.Spooled?
    ensures Placed(h.fates[id := x], h.origin, w.files, w.skip)
  {
    assert Opens(Placing, Placing);
    var after := h.fates[id := x];
    forall f | f in w.files && f.name !in w.skip
      ensures f.name in h.origin && h.origin[f.name] < |after| && after[h.origin[f.name]] == Spooled(f.name)
    {
      assert h.fates[h.origin[f.name]] == Spooled(f.name);
    }
    forall i | 0 <= i < |after| && after[i].Spooled?
      ensures after[i].name in Names(w.files) && after[i].name in h.origin && h.origin[after[i].name] == i
    {
      assert h.fates[i] == after[i];
    }
  }

  /** It is written at once, and known to be. */
  lemma {:induction false} FreshDelivered(p: Params, h: History, w: World, id: nat, c: Committed)
    requires BooksKept(p, h, w) && Unsettled(h, id) && c in h.commits && c.id == id
    ensures BooksKept(p, Acknowledge(h, c), w.(beyond := w.beyond + p.lost(h.batches[id], c.now)))
  {
    assert Opens(Whole, Whole);
    var k := Acknowledge(h, c);
    AcknowledgeBooks(p, h, w, c);
    SettlePlaces(h, w, id, Delivered);
    SameHead(h, k, w.failures, w.files, w.skip, p.max);
  }

  /** The server refuses it and it is not kept: the notice is the record. */
  lemma {:induction false} FreshNotKept(p: Params, h: History, w: World, id: nat, n: Notice)
    requires BooksKept(p, h, w) && Unsettled(h, id) && n.what.BatchQuarantined? && n.what.file == None
             && !n.what.cause.Repeated? && WasRefused(h.tries, h.batches[id])
    ensures BooksKept(p, Log(h, n).(fates := h.fates[id := NotKept], unkept := h.unkept + {id}), w)
  {
    assert Opens(Whole, Whole);
    var k := Log(h, n).(fates := h.fates[id := NotKept], unkept := h.unkept + {id});
    assert id !in h.unkept by { assert Opens(Backing, Backing); }
    Rebook(h, k, id, NotKept, Names(w.corrupt), Names(w.corrupt), w.unread, w.unread);
    SettlePlaces(h, w, id, NotKept);
    UnkeptCounts(p.lost, h, w.beyond, id, n);
    SameCounts(p.lost, Log(h, n).(unkept := h.unkept + {id}), k, w.beyond);
    OutageUnmoved(p, h, w, n);
    SameOutage(p, Log(h, n), k, w);
    RefusalFair(h, n.what, id, w.files, w.skip, p.max);
    CappedLog(h, w.files, w.skip, p.max, n);
    SameHead(Log(h, n), k, w.failures, w.files, w.skip, p.max) by { HeadLog(h, n, w.failures, w.files, w.skip, p.max); }
    assert Sound(p, k, w);
  }

  lemma {:induction false} HeadLog(h: History, n: Notice, failures: map<Name, nat>, files: seq<File>, skip: set<Name>,
        max: int)
    requires HeadKept(h, failures, files, skip, max)
    ensures HeadKept(Log(h, n), failures, files, skip, max)
  {
    assert Opens(Heading, Heading);
  }

  /** The server refuses it and it is kept in corrupt/ under a new name. */
  lemma {:induction false} FreshKept(p: Params, h: History, w: World, id: nat, f: File, n: Notice, v: World)
    requires BooksKept(p, h, w) && Unsettled(h, id) && f.records == h.batches[id]
    requires n.what == BatchQuarantined(Some(f.name), Refused) && WasRefused(h.tries, h.batches[id])
    requires w.number < f.name.number <= v.number && w.stamp <= f.name.stamp <= v.stamp
    requires v == w.(corrupt := w.corrupt + [f], number := v.number, stamp := v.stamp)
    ensures BooksKept(p, Log(h, n).(fates := h.fates[id := InCorrupt(f.name)], origin := h.origin[f.name := id]), v)
  {
    assert Opens(Whole, Whole);
    var k := Log(h, n).(fates := h.fates[id := InCorrupt(f.name)], origin := h.origin[f.name := id]);
    NewName(p, h, w, id, f.name);
    NamesSnoc(w.corrupt, f);
    ToldGrows(h.log, n, f.name);
    Rebook(h, k, id, InCorrupt(f.name), Names(w.corrupt), Names(v.corrupt), w.unread, w.unread);
    SettlePlaces(h, w, id, InCorrupt(f.name));
    NeutralNotice(p, h, w, n);
    SameCounts(p.lost, Log(h, n), k, w.beyond);
    SameOutage(p, Log(h, n), k, w);
    RefusedHead(p, h, w, id, f.name, n);
    SameHead(Log(h, n).(origin := h.origin[f.name := id]), k, w.failures, w.files, w.skip, p.max);
    NewNamePlaces(k.fates, h.origin, w, id, f.name);
    assert Sound(p, k, v);
  }

  lemma {:induction false} RefusedHead(p: Params, h: History, w: World, id: nat, name: Name, n: Notice)
    requires name !in h.origin && HeadKept(h, w.failures, w.files, w.skip, p.max)
             && CappedFairly(h, w.files, w.skip, p.max)
    requires n.what == BatchQuarantined(Some(name), Refused) && id < |h.batches| && WasRefused(h.tries, h.batches[id])
    ensures var k := Log(h, n).(origin := h.origin[name := id]);
            HeadKept(k, w.failures, w.files, w.skip, p.max) && CappedFairly(k, w.files, w.skip, p.max)
  {
    var m := h.(origin := h.origin[name := id]);
    NewNameHead(h, w, id, name, p.max);
    RefusalFair(m, n.what, id, w.files, w.skip, p.max);
    CappedLog(m, w.files, w.skip, p.max, n);
    HeadLog(m, n, w.failures, w.files, w.skip, p.max);
  }

  lemma {:induction false} NewName(p: Params, h: History, w: World, id: nat, n: Name)
    requires Sound(p, h, w) && Unsettled(h, id) && w.number < n.number && w.stamp <= n.stamp
    ensures var origin := h.origin[n := id];
            && n !in h.origin
            && (forall number: nat, stamp: int {:trigger NamesKept(origin, number, stamp, |h.batches|)} ::
                  n.number <= number && n.stamp <= stamp ==> NamesKept(origin, number, stamp, |h.batches|))
            && Held(h.batches, origin, w.files) && Ahead(origin, Reach(h.commits), w.files, w.skip + w.stuck)
  {
    assert Opens(Naming, Naming);
    var origin := h.origin[n := id];
    forall a, b | a in origin && b in origin && Earlier(a, b) ensures origin[a] < origin[b] {
      if a == n { assert false; }
    }
    assert Held(h.batches, origin, w.files) by {
      assert Opens(Holding, Holding);
      forall f | f in w.files ensures Holds(h.batches, origin, f) { assert Holds(h.batches, h.origin, f); }
    }
    assert Ahead(origin, Reach(h.commits), w.files, w.skip + w.stuck) by { assert Opens(Leading, Leading); }
  }

  lemma {:induction false} NewNameHead(h: History, w: World, id: nat, n: Name, max: int)
    requires n !in h.origin && HeadKept(h, w.failures, w.files, w.skip, max) && CappedFairly(h, w.files, w.skip, max)
    ensures var k := h.(origin := h.origin[n := id]);
            HeadKept(k, w.failures, w.files, w.skip, max) && CappedFairly(k, w.files, w.skip, max)
  {
    assert Opens(Heading, Heading) && Opens(Capping, Capping);
    var k := h.(origin := h.origin[n := id]);
    forall i | 0 <= i < |k.log| && k.log[i].what.BatchQuarantined?
      ensures Fair(k, k.log[i].what, w.files, w.skip, max)
    {
      FairGrows(h, k, h.log[i].what, w.files, w.skip, max);
    }
  }

  lemma {:induction false} NewNamePlaces(fates: seq<Fate>, origin: map<Name, nat>, w: World, id: nat, n: Name)
    requires n !in origin && Placed(fates, origin, w.files, w.skip)
    ensures Placed(fates, origin[n := id], w.files, w.skip)
  {
    assert Opens(Placing, Placing);
  }

  // --- a submission is spooled -----------------------------------------------------------------------

  lemma {:induction false} DropOrder(p: Params, h: History, w: World, gone: set<Name>)
    requires Sound(p, h, w)
    ensures var files := Without(w.files, gone);
            Listed(files) && Held(h.batches, h.origin, files)
                && Ahead(h.origin, Reach(h.commits), files, w.skip + w.stuck)
            && HeadKept(h, w.failures, files, w.skip, p.max) && CappedFairly(h, files, w.skip, p.max)
  {
    assert Opens(Listing, Listing);
    var files := Without(w.files, gone);
    assert Sorted(files) by { WithoutIs(w.files, gone); }
    ShrunkWithout(w.files, w.skip, gone);
    ShrunkWithout(w.files, w.skip + w.stuck, gone);
    OrderShrinks(h.batches, h.origin, Reach(h.commits), w.files, w.skip + w.stuck, files, w.skip + w.stuck);
    HeadShrinks(h, w.failures, w.files, w.skip, p.max, w.failures, files, w.skip);
    CappedShrinks(h, w.files, w.skip, p.max, files, w.skip);
  }

  lemma {:induction false} DropHead(h: History, dropped: seq<File>, unread: set<Name>, n: Notice,
        failures: map<Name, nat>, files: seq<File>, skip: set<Name>, max: int)
    requires HeadKept(h, failures, files, skip, max) && CappedFairly(h, files, skip, max) && n.what.SpoolDropped?
    ensures var k := Log(Drop(h, dropped, unread), n);
            HeadKept(k, failures, files, skip, max) && CappedFairly(k, files, skip, max)
  {
    CappedLog(h, files, skip, max, n);
    HeadLog(h, n, failures, files, skip, max);
    SameHead(Log(h, n), Log(Drop(h, dropped, unread), n), failures, files, skip, max);
  }

  /** Files are dropped to make room, and the drop is reported. */
  lemma {:induction false} DropStep(p: Params, h: History, w: World, dropped: seq<File>, unread: set<Name>, n: Notice)
    requires BooksKept(p, h, w) && n.what == SpoolDropped(|dropped|, Count(Without(dropped, unread)))
    ensures BooksKept(p, Log(Drop(h, dropped, unread), n), w.(files := Without(w.files, Names(dropped))))
  {
    assert Opens(Whole, Whole);
    var d, k := Drop(h, dropped, unread), Log(Drop(h, dropped, unread), n);
    var files := Without(w.files, Names(dropped));
    DropOrder(p, h, w, Names(dropped));
    EvictPlaces(h.fates, h.origin, w.files, w.skip, Names(dropped)) by { assert Opens(Listing, Listing); }
    assert AllBacked(k, Names(w.corrupt), w.unread) by {
      DropBooks(h, dropped, unread, Names(w.corrupt), w.unread, w.files, w.skip);
      BooksGrow(d, k, Names(w.corrupt), Names(w.corrupt), w.unread, w.unread);
    }
    DropCounts(p.lost, h, w.beyond, dropped, unread, n);
    OutageUnmoved(p, h, w, n);
    SameOutage(p, Log(h, n), k, w);
    DropHead(h, dropped, unread, n, w.failures, files, w.skip, p.max);
  }

  /** The batch is written behind the others. */
  lemma {:induction false} AddStep(p: Params, h: History, w: World, id: nat, f: File, v: World)
    requires BooksKept(p, h, w) && Unsettled(h, id) && f.records == h.batches[id]
    requires w.number < f.name.number <= v.number && w.stamp <= f.name.stamp <= v.stamp
    requires v == w.(files := w.files + [f], number := v.number, stamp := v.stamp) && Sorted(v.files)
    ensures f.name !in h.origin
    ensures BooksKept(p, h.(fates := h.fates[id := Spooled(f.name)], origin := h.origin[f.name := id]), v)
  {
    assert Opens(Whole, Whole);
    var k := h.(fates := h.fates[id := Spooled(f.name)], origin := h.origin[f.name := id]);
    NewName(p, h, w, id, f.name);
    AddPlaces(h, w.files, w.skip, v.files, id, w.number, w.stamp) by { assert Opens(Naming, Naming); }
    AheadAdds(h, w.files, w.skip + w.stuck, f, id);
    Rebook(h, k, id, Spooled(f.name), Names(w.corrupt), Names(w.corrupt), w.unread, w.unread);
    AddHead(p, h, w, id, f);
    SameHead(h.(origin := k.origin), k, w.failures, v.files, w.skip, p.max);
    SameCounts(p.lost, h, k, w.beyond);
    SameOutage(p, h, k, w);
    assert Sound(p, k, v);
  }

  lemma {:induction false} AddHead(p: Params, h: History, w: World, id: nat, f: File)
    requires Sound(p, h, w) && f.name !in h.origin
    ensures var k := h.(origin := h.origin[f.name := id]);
            HeadKept(k, w.failures, w.files + [f], w.skip, p.max) && CappedFairly(k, w.files + [f], w.skip, p.max)
  {
    NewNameHead(h, w, id, f.name, p.max);
    assert Opens(Heading, Heading) && Opens(Capping, Capping);
    NamesSnoc(w.files, f);
    var k := h.(origin := h.origin[f.name := id]);
    forall i | 0 <= i < |k.log| && k.log[i].what.BatchQuarantined?
      ensures Fair(k, k.log[i].what, w.files + [f], w.skip, p.max)
    {
      assert Fair(k, k.log[i].what, w.files, w.skip, p.max) && Fair(h, h.log[i].what, w.files, w.skip, p.max);
    }
  }

  /** It cannot be written, which is reported. */
  lemma {:induction false} WriteFailedStep(p: Params, h: History, w: World, id: nat, n: Notice, v: World)
    requires BooksKept(p, h, w) && Unsettled(h, id) && n.what == SpoolWriteFailed
    requires v == w.(number := v.number, stamp := v.stamp) && w.number <= v.number && w.stamp <= v.stamp
    ensures BooksKept(p, Log(h, n).(fates := h.fates[id := WriteFailed], failed := h.failed + {id}), v)
  {
    assert Opens(Whole, Whole);
    var k := Log(h, n).(fates := h.fates[id := WriteFailed], failed := h.failed + {id});
    assert id !in h.failed by { assert Opens(Backing, Backing); }
    Rebook(h, k, id, WriteFailed, Names(w.corrupt), Names(w.corrupt), w.unread, w.unread);
    SettlePlaces(h, w, id, WriteFailed);
    FailedCounts(p.lost, h, w.beyond, id, n);
    SameCounts(p.lost, Log(h, n).(failed := h.failed + {id}), k, w.beyond);
    OutageUnmoved(p, h, w, n);
    SameOutage(p, Log(h, n), k, w);
    CappedLog(h, w.files, w.skip, p.max, n);
    HeadLog(h, n, w.failures, w.files, w.skip, p.max);
    SameHead(Log(h, n), k, w.failures, w.files, w.skip, p.max);
  }

  // --- outage and recovery ------------------------------------------------------------------------------

  /** A notice that concerns the outage only. */
  lemma {:induction false} OutageNotice(p: Params, h: History, w: World, n: Notice)
    requires Sound(p, h, w) && (n.what.DatabaseUnavailable? || n.what.DatabaseRecovered?)
    ensures var k := Log(h, n);
            AllBacked(k, Names(w.corrupt), w.unread) && Counted(p.lost, k, w.beyond)
            && HeadKept(k, w.failures, w.files, w.skip, p.max) && CappedFairly(k, w.files, w.skip, p.max)
  {
    BooksGrow(h, Log(h, n), Names(w.corrupt), Names(w.corrupt), w.unread, w.unread);
    assert Counted(p.lost, Log(h, n), w.beyond) by { assert Opens(Counting, Counting); SumSnoc(h.log, n); }
    CappedLog(h, w.files, w.skip, p.max, n);
    HeadLog(h, n, w.failures, w.files, w.skip, p.max);
  }

  /** Parts of the history no invariant but the outage's looks at. */
  lemma {:induction false} OutageOnly(p: Params, h: History, k: History, w: World)
    requires Sound(p, h, w) && k == h.(phase := k.phase)
    ensures AllBacked(k, Names(w.corrupt), w.unread) && Counted(p.lost, k, w.beyond)
    ensures HeadKept(k, w.failures, w.files, w.skip, p.max) && CappedFairly(k, w.files, w.skip, p.max)
  {
    BooksGrow(h, k, Names(w.corrupt), Names(w.corrupt), w.unread, w.unread);
    assert Counted(p.lost, k, w.beyond) by { assert Opens(Counting, Counting); }
    SameHead(h, k, w.failures, w.files, w.skip, p.max);
  }

  /** The first failed attempt of an outage announces it and waits the base delay. */
  lemma {:induction false} OpenTally(p: Params, h: History, w: World, t: Tally, now: int, n: Notice)
    requires OutageAgrees(h, t, w.since, w.retry, w.delay, p.base, p.cap, w.batches, w.records, w.superseded)
    requires w.since.None? && n.what == DatabaseUnavailable
    ensures var d := Min(p.base, p.cap);
            OutageAgrees(Log(h, n).(phase := Struck(h.phase)), Plus(t, n.what), Some(now), Some(now + d), d,
                p.base, p.cap, w.batches, w.records, w.superseded)
  {
    assert Wait(p.base, p.cap, 1) == Min(p.base, p.cap);
  }

  lemma {:induction false} OutageOpens(p: Params, h: History, w: World, now: int, n: Notice)
    requires OutageKept(h, w.since, w.retry, w.delay, p.base, p.cap, w.batches, w.records, w.superseded)
    requires w.since.None? && n.what == DatabaseUnavailable
    ensures var d := Min(p.base, p.cap);
            OutageKept(Log(h, n).(phase := Struck(h.phase)), Some(now), Some(now + d), d,
                p.base, p.cap, w.batches, w.records, w.superseded)
  {
    assert Opens(Outages, Outages);
    SumSnoc(h.log, n);
    OpenTally(p, h, w, Sum(h.log), now, n);
  }

  /** The phase once everything is reported. */
  function Reported(h: History): Phase {
    Phase(0, h.phase.announced, h.phase.recovered + 1, ReplayedBatches(h.tries), h.batchesSuperseded)
  }

  lemma {:induction false} CloseTally(p: Params, h: History, w: World, t: Tally, n: Notice)
    requires OutageAgrees(h, t, w.since, w.retry, w.delay, p.base, p.cap, w.batches, w.records, w.superseded)
    requires n.what.DatabaseRecovered? && n.what.batches == w.batches && n.what.records == w.records
             && n.what.superseded == w.superseded
    ensures OutageAgrees(Log(h, n).(phase := Reported(h)), Plus(t, n.what), None, None, 0, p.base, p.cap, 0, 0, 0)
  {
  }

  lemma {:induction false} OutageCloses(p: Params, h: History, w: World, n: Notice)
    requires OutageKept(h, w.since, w.retry, w.delay, p.base, p.cap, w.batches, w.records, w.superseded)
    requires n.what.DatabaseRecovered? && n.what.batches == w.batches && n.what.records == w.records
             && n.what.superseded == w.superseded
    ensures OutageKept(Log(h, n).(phase := Reported(h)), None, None, 0, p.base, p.cap, 0, 0, 0)
  {
    assert Opens(Outages, Outages);
    SumSnoc(h.log, n);
    CloseTally(p, h, w, Sum(h.log), n);
  }

  /** An outage's notices and its count of failures play no part in the other books. */
  lemma {:induction false} PhaseOnly(p: Params, h: History, w: World, n: Notice, phase: Phase)
    requires Sound(p, h, w) && (n.what.DatabaseUnavailable? || n.what.DatabaseRecovered?)
    ensures var k := Log(h, n).(phase := phase);
            AllBacked(k, Names(w.corrupt), w.unread) && Counted(p.lost, k, w.beyond)
            && HeadKept(k, w.failures, w.files, w.skip, p.max) && CappedFairly(k, w.files, w.skip, p.max)
  {
    var k := Log(h, n).(phase := phase);
    OutageNotice(p, h, w, n);
    BooksGrow(Log(h, n), k, Names(w.corrupt), Names(w.corrupt), w.unread, w.unread);
    SameCounts(p.lost, Log(h, n), k, w.beyond);
    SameHead(Log(h, n), k, w.failures, w.files, w.skip, p.max);
  }

  lemma {:induction false} OutageBegins(p: Params, h: History, w: World, now: int, n: Notice)
    requires BooksKept(p, h, w) && w.since.None? && n.what == DatabaseUnavailable
    ensures BooksKept(p, Log(h, n).(phase := Struck(h.phase)),
                  w.(since := Some(now), delay := Min(p.base, p.cap), retry := Some(now + Min(p.base, p.cap))))
  {
    assert Opens(Whole, Whole);
    PhaseOnly(p, h, w, n, Struck(h.phase));
    OutageOpens(p, h, w, now, n);
  }

  /** A later one doubles the wait, up to the cap. */
  lemma {:induction false} OutageContinues(p: Params, h: History, w: World, now: int)
    requires BooksKept(p, h, w) && w.since.Some?
    ensures var d := Min(2 * w.delay, p.cap);
            BooksKept(p, h.(phase := Struck(h.phase)), w.(delay := d, retry := Some(now + d)))
  {
    assert Opens(Whole, Whole);
    var k, d := h.(phase := Struck(h.phase)), Min(2 * w.delay, p.cap);
    OutageOnly(p, h, k, w);
    assert OutageKept(k, w.since, Some(now + d), d, p.base, p.cap, w.batches, w.records, w.superseded) by {
      assert Opens(Outages, Outages);
      WaitDoubles(p.base, p.cap, h.phase.strikes);
    }
  }

  function Calm(w: World): World {
    w.(since := None, retry := None, delay := 0, batches := 0, records := 0, superseded := 0)
  }

  /** The end of an outage, or of a replay, is announced with what was replayed. */
  lemma {:induction false} RecoveredStep(p: Params, h: History, w: World, n: Notice)
    requires BooksKept(p, h, w) && n.what.DatabaseRecovered?
    requires n.what.batches == w.batches && n.what.records == w.records && n.what.superseded == w.superseded
    ensures BooksKept(p, Log(h, n).(phase := Reported(h)), Calm(w))
  {
    assert Opens(Whole, Whole);
    PhaseOnly(p, h, w, n, Reported(h));
    OutageCloses(p, h, w, n);
  }

  /** Without an outage or a replay there is nothing to announce. */
  lemma {:induction false} NothingToRecover(p: Params, h: History, w: World)
    requires BooksKept(p, h, w) && w.since.None? && w.batches == 0 && w.superseded == 0
    ensures BooksKept(p, h, Calm(w)) && h.phase == Ended(h.phase, ReplayedBatches(h.tries), h.batchesSuperseded)
  {
    assert Opens(Whole, Whole);
    assert Opens(Outages, Outages);
  }

  lemma {:induction false} RetryCleared(p: Params, h: History, w: World)
    requires BooksKept(p, h, w)
    ensures BooksKept(p, h, w.(retry := None))
  {
    assert Opens(Whole, Whole);
  }

  // --- the end of a submit --------------------------------------------------------------------------------

  /** The oldest unreported unreadable batch is reported. */
  lemma {:induction false} TellStep(p: Params, h: History, w: World, n: Notice)
    requires BooksKept(p, h, w) && w.unread != [] && n.what == BatchQuarantined(Some(w.unread[0]), Unreadable)
    ensures BooksKept(p, Log(h, n), w.(unread := w.unread[1..]))
  {
    assert Opens(Whole, Whole);
    var k := Log(h, n);
    ToldGrows(h.log, n, w.unread[0]);
    forall m | m in w.unread ensures m in w.unread[1..] || Told(k.log, m) {}
    BooksGrow(h, k, Names(w.corrupt), Names(w.corrupt), w.unread, w.unread[1..]);
    NeutralNotice(p, h, w, n);
    CappedLog(h, w.files, w.skip, p.max, n);
    HeadLog(h, n, w.failures, w.files, w.skip, p.max);
  }

  /** The retention losses are reported. */
  lemma {:induction false} BeyondStep(p: Params, h: History, w: World, n: Notice)
    requires BooksKept(p, h, w) && n.what == RowsBeyondRetention(w.beyond)
    ensures BooksKept(p, Log(h, n), w.(beyond := multiset{}))
  {
    assert Opens(Whole, Whole);
    var k := Log(h, n);
    BooksGrow(h, k, Names(w.corrupt), Names(w.corrupt), w.unread, w.unread);
    assert Counted(p.lost, k, multiset{}) by { assert Opens(Counting, Counting); SumSnoc(h.log, n); }
    OutageUnmoved(p, h, w, n);
    SameOutage(p, Log(h, n), k, w);
    CappedLog(h, w.files, w.skip, p.max, n);
    HeadLog(h, n, w.failures, w.files, w.skip, p.max);
  }

  // --- a scan of the spool -----------------------------------------------------------------------------------

  /** `list`, from `i` on, is all the scan still has to look at. */
  ghost predicate Scanning(w: World, list: seq<File>, i: nat) {
    && i <= |list|
    && (forall g :: g in w.files ==> g.name in w.skip + w.stuck || g in list[i..])
    && (forall g :: g in list[i..] ==> g in w.files && g.name !in w.skip)
  }

  lemma {:induction false} ScanStarts(w: World)
    requires Sorted(w.files)
    ensures Sorted(Without(w.files, w.skip)) && Scanning(w, Without(w.files, w.skip), 0)
    ensures forall g :: g in Without(w.files, w.skip) ==> g in w.files
  {
    var list := Without(w.files, w.skip);
    WithoutIs(w.files, w.skip);
    assert list[0..] == list;
  }

  lemma {:induction false} ScanMoves(h: History, w: World, k: History, v: World, list: seq<File>, i: nat)
    requires Sorted(w.files) && Sorted(list) && i < |list| && Scanning(w, list, i)
    requires Past(h, w, k, v, list[i]) && IsOut(v, list[i])
    ensures Scanning(v, list, i + 1)
  {
    LaterDiffer(list, i);
    PastFiles(h, w, k, v, list[i]);
    NextFiles(list, i);
    ScanOn(w.files, w.skip, w.stuck, v.files, v.skip, v.stuck, list[i], list[i..], list[i + 1..]);
  }

  lemma {:induction false} PastFiles(h: History, w: World, k: History, v: World, f: File)
    requires Sorted(w.files) && Past(h, w, k, v, f)
    ensures forall g :: g in v.files ==> g in w.files
    ensures forall g :: g in w.files && g.name != f.name ==> g in v.files
    ensures w.skip <= v.skip <= w.skip + {f.name} && w.stuck <= v.stuck
  {
    WithoutIs(w.files, {f.name});
  }

  lemma {:induction false} ScanOn(files: seq<File>, skip: set<Name>, stuck: set<Name>, files': seq<File>,
        skip': set<Name>, stuck': set<Name>, f: File, rest: seq<File>, rest': seq<File>)
    requires forall g :: g in files ==> g.name in skip + stuck || g in rest
    requires forall g :: g in rest ==> g in files && g.name !in skip
    requires forall g :: g in rest <==> g == f || g in rest'
    requires forall g :: g in rest' ==> g.name != f.name
    requires forall g :: g in files' ==> g in files
    requires forall g :: g in files && g.name != f.name ==> g in files'
    requires skip <= skip' <= skip + {f.name} && stuck <= stuck'
    requires f !in files' || f.name in skip' + stuck'
    ensures forall g :: g in files' ==> g.name in skip' + stuck' || g in rest'
    ensures forall g :: g in rest' ==> g in files' && g.name !in skip'
  {
  }

  lemma {:induction false} NextFiles(list: seq<File>, i: nat)
    requires i < |list|
    ensures forall g :: g in list[i..] <==> g == list[i] || g in list[i + 1..]
  {
    assert list[i..] == [list[i]] + list[i + 1..];
  }

  lemma {:induction false} LaterDiffer(list: seq<File>, i: nat)
    requires Sorted(list) && i < |list|
    ensures forall g :: g in list[i + 1..] ==> g.name != list[i].name
  {
    forall g | g in list[i + 1..] ensures g.name != list[i].name {
      var j :| 0 <= j < |list[i + 1..]| && list[i + 1..][j] == g;
      assert list[i + 1 + j] == g;
    }
  }

  /** The file under the scan is the oldest that waits, so committing it keeps the order. */
  lemma {:induction false} ScanLeads(p: Params, h: History, w: World, list: seq<File>, i: nat)
    requires BooksKept(p, h, w) && Sorted(list) && i < |list| && Scanning(w, list, i)
    ensures list[i] in w.files && list[i].name !in w.skip && list[i].name in h.origin
    ensures Ahead(h.origin, h.origin[list[i].name], w.files, w.skip + w.stuck)
    ensures list[i].name !in w.stuck ==> Reach(h.commits) <= h.origin[list[i].name]
  {
    assert Opens(Whole, Whole);
    assert list[i..][0] == list[i];
    var f := list[i];
    OriginOf(p, h, w, f);
    assert Opens(Leading, Leading) && Opens(Holding, Holding) && Opens(Naming, Naming);
    forall g | g in w.files && g.name !in w.skip + w.stuck ensures g.name in h.origin
        && h.origin[f.name] <= h.origin[g.name] {
      assert g in list[i..] && Holds(h.batches, h.origin, g);
      var j :| 0 <= j < |list[i..]| && list[i..][j] == g;
      assert list[i + j] == g;
      if j > 0 { assert Earlier(list[i].name, list[i + j].name); }
    }
  }

  lemma {:induction false} ScanEnds(w: World, list: seq<File>)
    requires Scanning(w, list, |list|)
    ensures forall g :: g in w.files ==> g.name in w.skip + w.stuck
  {
  }

  lemma {:induction false} PastSettles(p: Params, h: History, w: World, k: History, v: World, f: File, id: nat)
    requires BooksKept(p, h, w) && f in w.files && f.name !in w.skip && Unsettled(h, id) && Past(h, w, k, v, f)
    ensures Unsettled(k, id)
  {
    assert Opens(Whole, Whole);
    OriginOf(p, h, w, f);
  }

  /** Nothing waits, so a fresh batch may be committed. */
  lemma {:induction false} NoneWaiting(p: Params, h: History, w: World, id: nat)
    requires BooksKept(p, h, w) && Unsettled(h, id) && forall g :: g in w.files ==> g.name in w.skip + w.stuck
    ensures Ahead(h.origin, id, w.files, w.skip + w.stuck) && Reach(h.commits) <= id
  {
    assert Opens(Whole, Whole);
    assert Opens(Leading, Leading) && Opens(Committing, Committing);
    if h.commits != [] { assert h.commits[|h.commits| - 1].id < |h.batches|; }
  }

  // --- the measure that empties a fixed spool --------------------------------------------------------------

  lemma {:induction false} CreditFalls(files: seq<File>, idle: set<Name>, failures: map<Name, nat>, cap: nat,
        idle': set<Name>, failures': map<Name, nat>)
    requires idle <= idle'
    requires forall f :: f in files && f.name !in idle' ==> Tries(failures, f.name) <= Tries(failures', f.name)
    ensures Credit(files, idle', failures', cap) <= Credit(files, idle, failures, cap)
  {
    if files != [] {
      CreditFalls(files[..|files| - 1], idle, failures, cap, idle', failures');
      assert files[|files| - 1] in files;
    }
  }

  lemma {:induction false} CreditWithout(files: seq<File>, gone: set<Name>, idle: set<Name>, failures: map<Name, nat>,
        cap: nat)
    ensures Credit(Without(files, gone), idle, failures, cap) <= Credit(files, idle, failures, cap)
  {
    if files != [] {
      var n := |files| - 1;
      CreditWithout(files[..n], gone, idle, failures, cap);
      var w := Without(files[..n], gone);
      if files[n].name in gone {
        assert Without(files, gone) == w;
      } else {
        assert (w + [files[n]])[..|w|] == w;
      }
    }
  }

  lemma {:induction false} CreditSpent(files: seq<File>, idle: set<Name>, failures: map<Name, nat>, cap: nat, f: File)
    requires f in files && f.name !in idle && Tries(failures, f.name) < cap
    ensures Credit(files, idle, failures[f.name := Tries(failures, f.name) + 1], cap)
            < Credit(files, idle, failures, cap)
  {
    var n := |files| - 1;
    var more := failures[f.name := Tries(failures, f.name) + 1];
    CreditFalls(files[..n], idle, failures, cap, idle, more);
    if files[n].name != f.name {
      assert f in files[..n];
      CreditSpent(files[..n], idle, failures, cap, f);
    }
  }

  /** Dealing with a file never adds attempts. */
  lemma {:induction false} PastCredit(h: History, w: World, k: History, v: World, f: File, cap: nat)
    requires Sorted(w.files) && Past(h, w, k, v, f)
    requires forall g :: g in v.files && g.name !in v.skip + v.stuck ==>
             Tries(w.failures, g.name) <= Tries(v.failures, g.name)
    ensures Credit(v.files, v.skip + v.stuck, v.failures, cap) <= Credit(w.files, w.skip + w.stuck, w.failures, cap)
  {
    CreditFalls(v.files, w.skip + w.stuck, w.failures, cap, v.skip + v.stuck, v.failures);
    CreditWithout(w.files, {f.name}, w.skip + w.stuck, w.failures, cap);
  }

  // --- times of events -----------------------------------------------------------------------------------------

  function Types(ns: seq<Notice>): multiset<Type> {
    if ns == [] then multiset{} else Types(ns[..|ns| - 1]) + multiset{TypeOf(ns[|ns| - 1].what)}
  }

  /** The i-th event of a type within one submit is stamped i microseconds after its time. */
  ghost predicate Stamped(ns: seq<Notice>, now: int) {
    ns == [] || (Stamped(ns[..|ns| - 1], now) && ns[|ns| - 1].ts
        == now + Types(ns[..|ns| - 1])[TypeOf(ns[|ns| - 1].what)])
  }

  lemma {:induction false} StampedSnoc(ns: seq<Notice>, n: Notice, now: int)
    requires Stamped(ns, now) && n.ts == now + Types(ns)[TypeOf(n.what)]
    ensures Stamped(ns + [n], now) && Types(ns + [n]) == Types(ns) + multiset{TypeOf(n.what)}
  {
    assert (ns + [n])[..|ns|] == ns;
  }

  /** So no two events of one submit share the key (type, time) that the table dedupes on. */
  lemma {:induction false} StampsDiffer(ns: seq<Notice>, now: int, i: nat, j: nat)
    requires Stamped(ns, now) && i < j < |ns| && TypeOf(ns[i].what) == TypeOf(ns[j].what)
    ensures ns[i].ts < ns[j].ts
  {
    var n := |ns| - 1;
    if j < n {
      StampsDiffer(ns[..n], now, i, j);
    } else {
      StampBound(ns[..n], now, i);
    }
  }

  lemma {:induction false} StampBound(ns: seq<Notice>, now: int, i: nat)
    requires Stamped(ns, now) && i < |ns|
    ensures ns[i].ts < now + Types(ns)[TypeOf(ns[i].what)]
  {
    if i < |ns| - 1 {
      StampBound(ns[..|ns| - 1], now, i);
    }
  }

  // --- the beginning --------------------------------------------------------------------------------------------

  function Origins(files: seq<File>): map<Name, nat> {
    if files == [] then map[] else Origins(files[..|files| - 1])[files[|files| - 1].name := |files| - 1]
  }

  /** The batches an earlier process left on the spool are the first submissions. */
  function FirstHistory(files: seq<File>): History {
    History(seq(|files|, i requires 0 <= i < |files| => files[i].records),
            seq(|files|, i requires 0 <= i < |files| => Spooled(files[i].name)),
            Origins(files), [], [], [], [], {}, {}, [], [], [], Phase(0, 0, 0, 0, 0), 0)
  }

  lemma {:induction false} OriginsAre(files: seq<File>)
    requires Sorted(files)
    ensures forall i :: 0 <= i < |files| ==> files[i].name in Origins(files) && Origins(files)[files[i].name] == i
    ensures Origins(files).Keys == Names(files)
  {
    if files != [] {
      var n := |files| - 1;
      OriginsAre(files[..n]);
      forall i | 0 <= i < n ensures files[i].name in Origins(files) && Origins(files)[files[i].name] == i {
        assert files[..n][i] == files[i];
      }
    }
  }

  lemma {:induction false} OriginsMonotone(files: seq<File>)
    requires Sorted(files)
    ensures Monotone(Origins(files)) && Assigned(Origins(files), |files|)
  {
    OriginsAre(files);
    var origin := Origins(files);
    forall m | m in origin ensures origin[m] < |files| { var i := NamesFrom(files, m); }
    forall m, n | m in origin && n in origin && Earlier(m, n) ensures origin[m] < origin[n] {
      var i := NamesFrom(files, m);
      var j := NamesFrom(files, n);
    }
  }

  function FirstWorld(files: seq<File>, number: nat, stamp: int, db: Db): World {
    World(files, [], [], {}, number, stamp, {}, map[], None, None, 0, 0, 0, 0, multiset{}, db)
  }

  lemma {:induction false} StartFiled(files: seq<File>, number: nat, stamp: int)
    requires Sorted(files) && Filed(files, number, stamp)
    ensures NamesKept(Origins(files), number, stamp, |files|)
  {
    OriginsAre(files);
    OriginsMonotone(files);
    forall n | n in Origins(files) ensures n.number <= number && n.stamp <= stamp {
      var i := NamesFrom(files, n);
      assert files[i] in files;
    }
  }

  lemma {:induction false} StartHeld(files: seq<File>)
    requires Sorted(files)
    ensures var h := FirstHistory(files);
            Held(h.batches, h.origin, files) && Ahead(h.origin, -1, files, {} + {})
  {
    var h := FirstHistory(files);
    OriginsAre(files);
    forall f | f in files ensures Holds(h.batches, h.origin, f) {
      var i :| 0 <= i < |files| && files[i] == f;
    }
  }

  lemma {:induction false} StartPlaced(files: seq<File>)
    requires Sorted(files)
    ensures var h := FirstHistory(files); Placed(h.fates, h.origin, files, {})
  {
    var h := FirstHistory(files);
    OriginsAre(files);
    forall f | f in files ensures f.name in h.origin && h.origin[f.name] < |h.fates|
        && h.fates[h.origin[f.name]] == Spooled(f.name) {
      var i :| 0 <= i < |files| && files[i] == f;
    }
    forall i | 0 <= i < |h.fates| && h.fates[i].Spooled?
      ensures h.fates[i].name in Names(files) && h.fates[i].name in h.origin && h.origin[h.fates[i].name] == i
    {
      NamesHas(files, i);
    }
  }

  lemma {:induction false} StartBooks(p: Params, files: seq<File>)
    ensures var h := FirstHistory(files);
            AllBacked(h, {}, []) && Counted(p.lost, h, multiset{})
                && OutageKept(h, None, None, 0, p.base, p.cap, 0, 0, 0)
            && HeadKept(h, map[], files, {}, p.max) && CappedFairly(h, files, {}, p.max)
                && CommitsInOrder(h.batches, h.commits)
  {
    StartBacked(files);
  }

  lemma {:induction false} StartBacked(files: seq<File>)
    ensures AllBacked(FirstHistory(files), {}, [])
  {
    NoneDropped(FirstHistory(files).fates);
  }

  lemma {:induction false} NoneDropped(fates: seq<Fate>)
    requires forall i :: 0 <= i < |fates| ==> !fates[i].Superseded?
    ensures Dropped(fates) == 0
  {
    if fates != [] {
      NoneDropped(fates[..|fates| - 1]);
    }
  }

  lemma {:induction false} StartSound(p: Params, files: seq<File>, number: nat, stamp: int)
    requires Sorted(files) && Filed(files, number, stamp)
    ensures BooksKept(p, FirstHistory(files),
                      FirstWorld(files, number, stamp, p.tables(FirstHistory(files).batches, [])))
  {
    StartFiled(files, number, stamp);
    StartHeld(files);
    StartPlaced(files);
    StartBooks(p, files);
    assert Names([]) == {};
  }
}
