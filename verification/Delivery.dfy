/**
  The books of the store-and-forward path: what became of every submitted batch, what has been
  committed, and what has been reported.  Everything here is a pure statement about histories;
  the buffered writer keeps one and each of its steps preserves these invariants.
 */
module Delivery {
  import opened Upsert
  import opened Records
  import opened Writer
  import opened WriterTheorems
  import opened Spooling
  import opened Attempts
  import opened Sealing

  // --- notices ---------------------------------------------------------------------------

  /** Why a batch was quarantined. */
  datatype Cause = Unreadable | Refused | Repeated(attempts: int) | LiveNotKept

  /** The collector-level events `submit` returns. */
  datatype What =
    | DatabaseUnavailable
    | DatabaseRecovered(outage: Option<int>, batches: nat, records: nat, superseded: nat)
    | SpoolDropped(dropped: nat, lost: nat)
    | SpoolWriteFailed
    | BatchQuarantined(file: Option<Name>, cause: Cause)
    | RowsBeyondRetention(rows: multiset<Table>)

  datatype Type = UnavailableType | RecoveredType | DroppedType | WriteFailedType | QuarantinedType | BeyondType

  function TypeOf(w: What): Type {
    match w
    case DatabaseUnavailable => UnavailableType
    case DatabaseRecovered(_, _, _, _) => RecoveredType
    case SpoolDropped(_, _) => DroppedType
    case SpoolWriteFailed => WriteFailedType
    case BatchQuarantined(_, _) => QuarantinedType
    case RowsBeyondRetention(_) => BeyondType
  }

  datatype Notice = Notice(ts: int, what: What)

  /** What a log of notices adds up to.  `announced` and `recovered` count the notices of an
      outage's begin and end; `open`: an outage was announced and not yet its end; `proper`: no
      outage was announced while one was open. */
  datatype Tally = Tally(
    droppedBatches: nat, droppedRecords: nat, failed: nat, unkept: nat, beyond: multiset<Table>,
    batches: nat, records: nat, superseded: nat, announced: nat, recovered: nat, open: bool, proper: bool)

  function Plus(t: Tally, w: What): Tally {
    match w
    case DatabaseUnavailable => t.(announced := t.announced + 1, open := true, proper := t.proper && !t.open)
    case DatabaseRecovered(_, b, r, s) =>
      t.(recovered := t.recovered + 1, open := false,
         batches := t.batches + b, records := t.records + r, superseded := t.superseded + s)
    case SpoolDropped(b, r) => t.(droppedBatches := t.droppedBatches + b, droppedRecords := t.droppedRecords + r)
    case SpoolWriteFailed => t.(failed := t.failed + 1)
    case BatchQuarantined(file, _) => if file.None? then t.(unkept := t.unkept + 1) else t
    case RowsBeyondRetention(rows) => t.(beyond := t.beyond + rows)
  }

  function Sum(log: seq<Notice>): Tally {
    if log == [] then Tally(0, 0, 0, 0, multiset{}, 0, 0, 0, 0, 0, false, true)
    else Plus(Sum(log[..|log| - 1]), log[|log| - 1].what)
  }

  lemma {:induction false} SumSnoc(log: seq<Notice>, n: Notice)
    ensures Sum(log + [n]) == Plus(Sum(log), n.what)
  {
    assert (log + [n])[..|log|] == log;
  }

  lemma {:induction false} SumPrefix(log: seq<Notice>, i: nat)
    requires i <= |log| && Sum(log).proper
    ensures Sum(log[..i]).proper
  {
    if i < |log| {
      SumPrefix(log[..|log| - 1], i);
      assert log[..|log| - 1][..i] == log[..i];
    } else {
      assert log[..i] == log;
    }
  }

  /** In a proper log two announcements of an outage have a recovery between them. */
  lemma {:induction false} RecoveredBetween(log: seq<Notice>, i: nat, j: nat) returns (k: nat)
    requires Sum(log).proper && i < j < |log|
    requires log[i].what.DatabaseUnavailable? && log[j].what.DatabaseUnavailable?
    ensures i < k < j && log[k].what.DatabaseRecovered?
  {
    SumPrefix(log, j + 1);
    assert log[..j + 1][..j] == log[..j];
    k := ClosedBy(log[..j], i);
  }

  lemma {:induction false} ClosedBy(log: seq<Notice>, i: nat) returns (k: nat)
    requires i < |log| && log[i].what.DatabaseUnavailable? && !Sum(log).open
    ensures i < k < |log| && log[k].what.DatabaseRecovered?
  {
    var n := |log| - 1;
    if log[n].what.DatabaseRecovered? {
      k := n;
      assert i != n;
    } else {
      k := ClosedBy(log[..n], i);
    }
  }

  /** A batch's file has been reported as quarantined. */
  ghost predicate Told(log: seq<Notice>, n: Name) {
    exists i :: 0 <= i < |log| && log[i].what.BatchQuarantined? && log[i].what.file == Some(n)
  }

  lemma {:induction false} ToldGrows(log: seq<Notice>, n: Notice, name: Name)
    requires Told(log, name) || (n.what.BatchQuarantined? && n.what.file == Some(name))
    ensures Told(log + [n], name)
  {
    var more := log + [n];
    if Told(log, name) {
      var i :| 0 <= i < |log| && log[i].what.BatchQuarantined? && log[i].what.file == Some(name);
      assert more[i] == log[i];
    } else {
      assert more[|log|] == n;
    }
  }

  // --- what became of each submission ---------------------------------------------------------

  /** Where a submission is.  `Nothing` is an empty batch, `Superseded` a live-only batch that
      a newer one replaced, `NotKept` a rejected batch that could not be or was not kept. */
  datatype Fate =
    | Pending
    | Nothing
    | Spooled(name: Name)
    | Delivered
    | InCorrupt(name: Name)
    | Evicted
    | WriteFailed
    | NotKept
    | Superseded

  /** Where the outage stands: failed attempts since the last success, notices of a begin and of an
      end so far, and the replayed and superseded batches the latter have reported. */
  datatype Phase = Phase(strikes: nat, announced: nat, recovered: nat, batches: nat, superseded: nat)

  /** An attempt has failed; the first of an outage announces it. */
  function Struck(x: Phase): Phase {
    x.(strikes := x.strikes + 1, announced := x.announced + if x.strikes == 0 then 1 else 0)
  }

  /** An attempt has succeeded: if there was an outage, or anything was replayed or superseded since
      the last report, that is reported. */
  function Ended(x: Phase, replayed: nat, superseded: nat): Phase {
    if x.strikes > 0 || replayed > x.batches || superseded > x.superseded
    then Phase(0, x.announced, x.recovered + 1, replayed, superseded)
    else x
  }

  /** The record a buffered writer would have to keep to justify itself.  Submissions are
      numbered in order, those an earlier process left on the spool first. */
  datatype History = History(
    batches: seq<seq<Record>>,
    fates: seq<Fate>,
    origin: map<Name, nat>,        // the submission each spool file holds
    commits: seq<Committed>,       // every commit, acknowledged or not
    acked: seq<Committed>,         // those acknowledged
    evicted: seq<File>,            // files dropped for room
    uncounted: seq<File>,          // those of them whose records could not be counted
    failed: set<nat>,
    unkept: set<nat>,
    log: seq<Notice>,              // every notice ever made
    returned: seq<Notice>,         // those a submit has returned
    tries: seq<Try>,               // every write and what came of it
    phase: Phase,
    batchesSuperseded: nat)

  // Order: files hold submissions in order, and commits never go back.

  function Reach(cs: seq<Committed>): int {
    if cs == [] then -1 else cs[|cs| - 1].id
  }

  ghost predicate Holds(batches: seq<seq<Record>>, origin: map<Name, nat>, f: File) {
    f.name in origin && origin[f.name] < |batches| && batches[origin[f.name]] == f.records
  }

  ghost predicate Held(batches: seq<seq<Record>>, origin: map<Name, nat>, files: seq<File>) {
    forall k :: Opens(k, Holding) ==> forall f :: f in files ==> Holds(batches, origin, f)
  }

  /** Names are given out in submission order, and no later than the last given out. */
  ghost predicate Monotone(origin: map<Name, nat>) {
    forall m, n {:trigger Earlier(m, n)} :: m in origin && n in origin && Earlier(m, n) ==> origin[m] < origin[n]
  }

  ghost predicate Known(origin: map<Name, nat>, number: nat, stamp: int) {
    forall n :: n in origin ==> n.number <= number && n.stamp <= stamp
  }

  /** No waiting file is older than the newest commit. */
  ghost predicate Ahead(origin: map<Name, nat>, reach: int, files: seq<File>, idle: set<Name>) {
    forall k :: Opens(k, Leading) ==>
      forall f :: f in files && f.name !in idle ==> f.name in origin && reach <= origin[f.name]
  }

  ghost predicate CommitsInOrder(batches: seq<seq<Record>>, commits: seq<Committed>) {
    forall k :: Opens(k, Committing) ==> AreCommits(commits, batches) && InOrder(commits)
  }

  /** Every file on the spool that replay still looks at is accounted for as spooled, and
      nothing is said to be on the spool that is not. */
  ghost predicate Placed(fates: seq<Fate>, origin: map<Name, nat>, files: seq<File>, idle: set<Name>) {
    forall k :: Opens(k, Placing) ==> InPlace(fates, origin, files, idle)
  }

  ghost predicate InPlace(fates: seq<Fate>, origin: map<Name, nat>, files: seq<File>, idle: set<Name>) {
    && (forall f :: f in files && f.name !in idle ==>
          f.name in origin && origin[f.name] < |fates| && fates[origin[f.name]] == Spooled(f.name))
    && (forall i :: 0 <= i < |fates| && fates[i].Spooled? ==>
          fates[i].name in Names(files) && fates[i].name in origin && origin[fates[i].name] == i)
  }

  /** What stands behind a fate. */
  ghost predicate Backed(h: History, i: nat, x: Fate, corrupt: set<Name>, unread: seq<Name>) {
    match x
    case Pending => true
    case Nothing => i < |h.batches| && h.batches[i] == []
    case Spooled(_) => true
    case Delivered => i in Ids(h.acked)
    case InCorrupt(n) => n in h.origin && h.origin[n] == i && n in corrupt && (Told(h.log, n) || n in unread)
    case Evicted =>
      exists j :: 0 <= j < |h.evicted| && h.evicted[j].name in h.origin && h.origin[h.evicted[j].name] == i
    case WriteFailed => i in h.failed
    case NotKept => i in h.unkept
    case Superseded => i < |h.batches| && AllLive(h.batches[i])
  }

  ghost predicate AllBacked(h: History, corrupt: set<Name>, unread: seq<Name>) {
    |h.fates| == |h.batches| && forall k :: Opens(k, Backing) ==> EachBacked(h, corrupt, unread)
  }

  ghost predicate EachBacked(h: History, corrupt: set<Name>, unread: seq<Name>)
    requires |h.fates| == |h.batches|
  {
    && (forall i :: 0 <= i < |h.fates| ==> Backed(h, i, h.fates[i], corrupt, unread))
    && (forall i :: i in h.failed ==> i < |h.fates| && h.fates[i] == WriteFailed)
    && (forall i :: i in h.unkept ==> i < |h.fates| && h.fates[i] == NotKept)
    && Dropped(h.fates) == h.batchesSuperseded
  }

  /** The submissions dropped as superseded. */
  function Dropped(fates: seq<Fate>): nat {
    if fates == [] then 0 else Dropped(fates[..|fates| - 1]) + if fates[|fates| - 1].Superseded? then 1 else 0
  }

  /** The tables of the rows a batch loses to retention when committed at a time. */
  type Loss = (seq<Record>, int) -> multiset<Table>

  function BeyondAll(lost: Loss, batches: seq<seq<Record>>, cs: seq<Committed>): multiset<Table> {
    if cs == [] then multiset{}
    else
      var c := cs[|cs| - 1];
      BeyondAll(lost, batches, cs[..|cs| - 1]) + if c.id < |batches| then lost(batches[c.id], c.now) else multiset{}
  }

  /** The notices add up to what happened; `beyond` are retention losses not yet reported. */
  ghost predicate Counted(lost: Loss, h: History, beyond: multiset<Table>) {
    forall k :: Opens(k, Counting) ==> AddsUp(lost, h, Sum(h.log), beyond)
  }

  ghost predicate AddsUp(lost: Loss, h: History, t: Tally, beyond: multiset<Table>) {
    && t.droppedBatches == |h.evicted|
    && t.droppedRecords + Count(h.uncounted) == Count(h.evicted)
    && t.failed == |h.failed|
    && t.unkept == |h.unkept|
    && t.beyond + beyond == BeyondAll(lost, h.batches, h.acked)
    && CommitsIn(h.acked, h.commits) && AreCommits(h.acked, h.batches)
  }

  ghost predicate CommitsIn(cs: seq<Committed>, ds: seq<Committed>) {
    forall i :: 0 <= i < |cs| ==> cs[i] in ds
  }

  // --- outages --------------------------------------------------------------------------------

  function Pow2(n: nat): nat { if n == 0 then 1 else 2 * Pow2(n - 1) }

  /** `n` doublings of `x`. */
  function Doubled(x: nat, n: nat): nat { if n == 0 then x else 2 * Doubled(x, n - 1) }

  lemma {:induction false} DoubledIs(x: nat, n: nat)
    ensures Doubled(x, n) == x * Pow2(n)
  {
    if n > 0 {
      DoubledIs(x, n - 1);
      assert x * Pow2(n) == 2 * (x * Pow2(n - 1));
    }
  }

  /** How long the k-th failed attempt of an outage waits. */
  function Wait(base: nat, cap: nat, k: nat): int
    requires k > 0
  {
    Min(Doubled(base, k - 1), cap)
  }

  lemma {:induction false} WaitIs(base: nat, cap: nat, k: nat)
    requires k > 0
    ensures Wait(base, cap, k) == Min(base * Pow2(k - 1), cap)
  {
    DoubledIs(base, k - 1);
  }

  lemma {:induction false} WaitDoubles(base: nat, cap: nat, k: nat)
    requires k > 0
    ensures Wait(base, cap, k + 1) == Min(2 * Wait(base, cap, k), cap)
  {
    assert Doubled(base, k) == 2 * Doubled(base, k - 1);
  }

  ghost predicate OutageKept(h: History, since: Option<int>, retry: Option<int>, delay: int, base: nat, cap: nat,
        batches: nat, records: nat, superseded: nat) {
    forall k :: Opens(k, Outages) ==>
      OutageAgrees(h, Sum(h.log), since, retry, delay, base, cap, batches, records, superseded)
  }

  ghost predicate OutageAgrees(h: History, t: Tally, since: Option<int>, retry: Option<int>, delay: int, base: nat,
        cap: nat, batches: nat, records: nat, superseded: nat) {
    && t.proper && t.open == since.Some?
    && (since.Some? <==> h.phase.strikes > 0)
    && (h.phase.strikes > 0 ==> delay == Wait(base, cap, h.phase.strikes))
    && (retry.Some? ==> since.Some?)
    && (batches == 0 ==> records == 0)
    && t.announced == h.phase.announced && t.recovered == h.phase.recovered
    && t.batches == h.phase.batches && t.superseded == h.phase.superseded
    && t.batches + batches == ReplayedBatches(h.tries)
    && t.records + records == ReplayedRecords(h.tries)
    && t.superseded + superseded == h.batchesSuperseded
  }

  // --- batches that block the spool ------------------------------------------------------------

  function Tries(m: map<Name, nat>, n: Name): nat { if n in m then m[n] else 0 }

  /** The most often a file's write may fail while the database answers. */
  function Most(max: int): nat { if max > 1 then max else 1 }

  /** For every file replay still looks at the writer counts the failures while the database
      answered, and they are fewer than the cap; no file has failed more often than the cap. */
  ghost predicate HeadKept(h: History, failures: map<Name, nat>, files: seq<File>, skip: set<Name>, max: int) {
    forall k :: Opens(k, Heading) ==> HeadAgrees(h, failures, files, skip, max)
  }

  ghost predicate HeadAgrees(h: History, failures: map<Name, nat>, files: seq<File>, skip: set<Name>, max: int) {
    && (forall n :: Answered(h.tries, n) > 0 ==> n in h.origin)
    && (forall n :: Answered(h.tries, n) <= Most(max))
    && (forall n :: n in failures ==> n in h.origin)
    && (forall f :: f in files && f.name !in skip ==>
          Tries(failures, f.name) == Answered(h.tries, f.name) < Most(max))
  }

  /** Every quarantine that was reported is justified. */
  ghost predicate CappedFairly(h: History, files: seq<File>, skip: set<Name>, max: int) {
    forall k :: Opens(k, Capping) ==>
      forall i :: 0 <= i < |h.log| && h.log[i].what.BatchQuarantined? ==> Fair(h, h.log[i].what, files, skip, max)
  }

  /** A batch given up for repeated failure had failed that often with the database answering, and
      is out of replay's way for good; of one given up as refused the server has refused the
      records. */
  ghost predicate Fair(h: History, w: What, files: seq<File>, skip: set<Name>, max: int)
    requires w.BatchQuarantined?
  {
    match w.cause
    case Repeated(attempts) =>
      w.file.Some? && w.file.value in h.origin
      && Answered(h.tries, w.file.value) == attempts >= max
      && (w.file.value in Names(files) ==> w.file.value in skip)
    case Unreadable => true
    case _ => RefusedFairly(h.tries, h.batches, h.origin, w.file)
  }

  ghost predicate RefusedFairly(tries: seq<Try>, batches: seq<seq<Record>>, origin: map<Name, nat>,
        file: Option<Name>) {
    exists i :: 0 <= i < |batches| && WasRefused(tries, batches[i])
      && (file.Some? ==> file.value in origin && origin[file.value] == i)
  }

  /** Attempts the waiting files may still use up while the database answers. */
  function Credit(files: seq<File>, idle: set<Name>, failures: map<Name, nat>, cap: nat): nat {
    if files == [] then 0
    else
      var f := files[|files| - 1];
      Credit(files[..|files| - 1], idle, failures, cap)
      + if f.name in idle || cap <= Tries(failures, f.name) then 0 else cap - Tries(failures, f.name)
  }

  // --- all of it ---------------------------------------------------------------------------------

  /** What does not change: the tables a log of commits makes, the rows a commit loses to
      retention, the backoff and the cap on attempts. */
  datatype Params = Params(tables: (seq<seq<Record>>, seq<Committed>) -> Db, lost: Loss, base: nat, cap: nat, max: int)

  /** The state the books are about: the spool's, the database's and the writer's own. */
  datatype World = World(
    files: seq<File>, corrupt: seq<File>, unread: seq<Name>, stuck: set<Name>, number: nat, stamp: int,
    skip: set<Name>, failures: map<Name, nat>,
    since: Option<int>, retry: Option<int>, delay: int,
    batches: nat, records: nat, superseded: nat,
    beyond: multiset<Table>, db: Db)

  ghost predicate Assigned(origin: map<Name, nat>, n: nat) {
    forall m :: m in origin ==> origin[m] < n
  }

  ghost predicate Listed(files: seq<File>) {
    forall k :: Opens(k, Listing) ==> Sorted(files)
  }

  ghost predicate NamesKept(origin: map<Name, nat>, number: nat, stamp: int, n: nat) {
    forall k :: Opens(k, Naming) ==> Monotone(origin) && Known(origin, number, stamp) && Assigned(origin, n)
  }

  ghost predicate Sound(p: Params, h: History, w: World) {
    && Listed(w.files)
    && CommitsInOrder(h.batches, h.commits)
    && w.db == p.tables(h.batches, h.commits)
    && Held(h.batches, h.origin, w.files)
    && NamesKept(h.origin, w.number, w.stamp, |h.batches|)
    && w.skip + w.stuck <= h.origin.Keys
    && Ahead(h.origin, Reach(h.commits), w.files, w.skip + w.stuck)
    && Placed(h.fates, h.origin, w.files, w.skip)
    && AllBacked(h, Names(w.corrupt), w.unread)
    && Counted(p.lost, h, w.beyond)
    && OutageKept(h, w.since, w.retry, w.delay, p.base, p.cap, w.batches, w.records, w.superseded)
    && HeadKept(h, w.failures, w.files, w.skip, p.max)
    && CappedFairly(h, w.files, w.skip, p.max)
  }

  ghost predicate BooksKept(p: Params, h: History, w: World) {
    forall k :: Opens(k, Whole) ==> Sound(p, h, w)
  }
}
