/**
  What the buffered writer's invariant means to its caller.  Each guarantee is about a state
  between submits, so about every state any run can reach: `Submit` keeps `Valid` whatever the
  server, the disk and the clock do.
 */
module Guarantees {
  import opened Upsert
  import opened Records
  import opened Writer
  import opened WriterTheorems
  import opened DatabaseWriter
  import opened Spooling
  import opened Attempts
  import opened Delivery
  import opened Sealing
  import opened BufferedSteps
  import opened BufferedState
  import opened Buffered

  /** The submissions whose effect the tables show, each once, in submission order. */
  ghost function Effective(b: BufferedWriter): seq<Committed>
    reads b
  {
    Once(b.g.h.commits)
  }

  /** Whatever was committed twice, late or without acknowledgement, every table is as if each
      committed submission had been applied exactly once, in submission order, and every
      acknowledged one is among them. */
  lemma {:induction false} ExactlyOnce(b: BufferedWriter)
    requires b.Valid()
    ensures b.db.db == Replay(b.db.cfg, b.start, b.g.h.batches, Effective(b))
    ensures StrictlyInOrder(Effective(b)) && forall c :: c in Effective(b) ==> c.id < |b.g.h.batches|
    ensures forall i :: 0 <= i < |b.g.h.fates| && b.g.h.fates[i] == Delivered ==> i in Ids(Effective(b))
  {
    CommitsCount(b.p, b.db.cfg, b.start, b.g.h, b.g.w);
    AcknowledgedCount(b.p, b.g.h, b.g.w);
  }

  lemma {:induction false} CommitsCount(p: Params, cfg: Config, start: Db, h: History, w: World)
    requires Means(p, cfg, start) && BooksKept(p, h, w)
    ensures w.db == Replay(cfg, start, h.batches, Once(h.commits))
    ensures StrictlyInOrder(Once(h.commits)) && forall c :: c in Once(h.commits) ==> c.id < |h.batches|
  {
    assert Opens(Meaning, Meaning) && Opens(Whole, Whole) && Opens(Committing, Committing);
    OnceSuffices(cfg, start, h.batches, h.commits);
    OnceIncreases(h.commits);
    forall c | c in Once(h.commits) ensures c.id < |h.batches| {
      IdsHas(Once(h.commits), c);
      var d := IdsFrom(h.commits, c.id);
    }
  }

  lemma {:induction false} AcknowledgedCount(p: Params, h: History, w: World)
    requires BooksKept(p, h, w)
    ensures forall i :: 0 <= i < |h.fates| && h.fates[i] == Delivered ==> i in Ids(Once(h.commits))
  {
    assert Opens(Whole, Whole) && Opens(Committing, Committing) && Opens(Backing, Backing) && Opens(Counting, Counting);
    OnceIncreases(h.commits);
    forall i | 0 <= i < |h.fates| && h.fates[i] == Delivered ensures i in Ids(h.commits) {
      assert Backed(h, i, h.fates[i], Names(w.corrupt), w.unread);
      var c := IdsFrom(h.acked, i);
      IdsHas(h.commits, c);
    }
  }

  lemma {:induction false} IdsHas(cs: seq<Committed>, c: Committed)
    requires c in cs
    ensures c.id in Ids(cs)
  {
    if c != cs[|cs| - 1] {
      IdsHas(cs[..|cs| - 1], c);
    }
  }

  lemma {:induction false} IdsFrom(cs: seq<Committed>, id: nat) returns (c: Committed)
    requires id in Ids(cs)
    ensures c in cs && c.id == id
  {
    if cs[|cs| - 1].id == id {
      c := cs[|cs| - 1];
    } else {
      c := IdsFrom(cs[..|cs| - 1], id);
    }
  }

  /** Where a submission with durable records is, with the notices that say so. */
  ghost predicate Accounted(b: BufferedWriter, i: nat)
    requires i < |b.g.h.batches|
    reads b, b.spool
  {
    var h := b.g.h;
    || i in Ids(h.acked)
    || (exists f :: f in b.spool.files && f.name in h.origin && h.origin[f.name] == i && f.records == h.batches[i])
    || (exists f :: f in b.spool.corrupt && Told(h.log, f.name) && f.name in h.origin && h.origin[f.name] == i)
    || (exists f :: f in h.evicted && f.name in h.origin && h.origin[f.name] == i)
    || i in h.failed || i in h.unkept
  }

  /** Nothing vanishes silently: each submission holding a durable record is committed and
      acknowledged, on the spool, in corrupt/ and reported, or lost in a way the notices count exactly; and every
      notice has been returned or is carried to the next submit. */
  lemma {:induction false} NothingVanishes(b: BufferedWriter)
    requires b.Valid()
    ensures forall i :: 0 <= i < |b.g.h.batches| && !AllLive(b.g.h.batches[i]) ==> Accounted(b, i)
    ensures b.g.h.log == b.g.h.returned + b.state.carried
    ensures var t := Sum(b.g.h.log);
            && t.droppedBatches == |b.g.h.evicted| && t.droppedRecords + Count(b.g.h.uncounted) == Count(b.g.h.evicted)
            && t.failed == |b.g.h.failed| && t.unkept == |b.g.h.unkept|
            && t.beyond == BeyondAll(b.p.lost, b.g.h.batches, b.g.h.acked)
  {
    var h := b.g.h;
    assert h.log == h.returned + b.state.carried by { assert Opens(Telling, Telling); }
    assert Sound(b.p, h, b.g.w) by { assert Opens(Whole, Whole); }
    forall i | 0 <= i < |h.batches| && !AllLive(h.batches[i]) ensures Accounted(b, i) {
      FateAccounts(b.p, h, b.g.w, i);
    }
    assert Opens(Counting, Counting);
  }

  lemma {:induction false} FateAccounts(p: Params, h: History, w: World, i: nat)
    requires Sound(p, h, w) && Settled(h) && i < |h.batches| && !AllLive(h.batches[i]) && w.unread == []
    ensures || i in Ids(h.acked)
            || (exists f :: f in w.files && f.name in h.origin && h.origin[f.name] == i && f.records == h.batches[i])
            || (exists f :: f in w.corrupt && Told(h.log, f.name) && f.name in h.origin && h.origin[f.name] == i)
            || (exists f :: f in h.evicted && f.name in h.origin && h.origin[f.name] == i)
            || i in h.failed || i in h.unkept
  {
    assert Opens(Backing, Backing);
    assert Backed(h, i, h.fates[i], Names(w.corrupt), w.unread);
    match h.fates[i]
    case Spooled(n) =>
      assert Opens(Placing, Placing) && Opens(Holding, Holding);
      var j := NamesFrom(w.files, n);
      assert Holds(h.batches, h.origin, w.files[j]);
    case InCorrupt(n) =>
      var j := NamesFrom(w.corrupt, n);
      assert w.corrupt[j] in w.corrupt;
    case Evicted =>
      var j :| 0 <= j < |h.evicted| && h.evicted[j].name in h.origin && h.origin[h.evicted[j].name] == i;
      assert h.evicted[j] in h.evicted;
    case _ =>
  }

  /** Outages: two announcements always have a recovery between them.  The failed attempts of the
      outage, and the announcements and recoveries so far, are those that the submits, each failed
      or not by what the database did, add up to; the next attempt waits as the failures say; and
      what the recoveries report plus what the counters hold is all that was ever replayed. */
  lemma {:induction false} OutageProtocol(b: BufferedWriter)
    requires b.Valid()
    ensures forall i, j ::
              0 <= i < j < |b.g.h.log|
              && b.g.h.log[i].what.DatabaseUnavailable? && b.g.h.log[j].what.DatabaseUnavailable? ==>
              exists k :: i < k < j && b.g.h.log[k].what.DatabaseRecovered?
    ensures FailsJustly(b.g.turns, b.maxReplayAttempts) && b.db.log == b.before + AllCalls(TriesOf(b.g.turns))
    ensures var x, t := PhaseOf(b.g.turns), Sum(b.g.h.log);
            && t.announced == x.announced && t.recovered == x.recovered
            && (b.state.since.Some? <==> x.strikes > 0)
            && (b.state.since.Some? ==> b.state.delay == Min(b.base * Pow2(x.strikes - 1), b.cap))
    ensures var ts, t := TriesOf(b.g.turns), Sum(b.g.h.log);
            && t.batches + b.state.batches == ReplayedBatches(ts)
            && t.records + b.state.records == ReplayedRecords(ts)
            && t.superseded + b.state.superseded == Dropped(b.g.h.fates)
  {
    assert Opens(Outages, Outages);
    OutageAt(b.p, b.g.h, b.g.w);
  }

  lemma {:induction false} OutageAt(p: Params, h: History, w: World)
    requires BooksKept(p, h, w)
    ensures forall i, j ::
              0 <= i < j < |h.log| && h.log[i].what.DatabaseUnavailable? && h.log[j].what.DatabaseUnavailable? ==>
              exists k :: i < k < j && h.log[k].what.DatabaseRecovered?
    ensures w.since.Some? <==> h.phase.strikes > 0
    ensures w.since.Some? ==> w.delay == Min(p.base * Pow2(h.phase.strikes - 1), p.cap)
    ensures var t := Sum(h.log);
            && t.announced == h.phase.announced && t.recovered == h.phase.recovered
            && t.batches + w.batches == ReplayedBatches(h.tries) && t.records + w.records == ReplayedRecords(h.tries)
            && t.superseded + w.superseded == Dropped(h.fates)
  {
    assert Opens(Whole, Whole) && Opens(Outages, Outages) && Opens(Backing, Backing);
    if w.since.Some? {
      WaitIs(p.base, p.cap, h.phase.strikes);
    }
    forall i, j | 0 <= i < j < |h.log| && h.log[i].what.DatabaseUnavailable? && h.log[j].what.DatabaseUnavailable?
      ensures exists k :: i < k < j && h.log[k].what.DatabaseRecovered?
    {
      var k := RecoveredBetween(h.log, i, j);
    }
  }

  /** Head of line: no file's write fails more often than the cap while the database answers, and
      of a file that still waits it has failed less often; a batch was given up for repeated
      failure only once its write had failed that often with the database answering, and as refused
      only if the server had refused its records. */
  lemma {:induction false} HeadOfLine(b: BufferedWriter)
    requires b.Valid()
    ensures b.db.log == b.before + AllCalls(b.g.h.tries)
    ensures forall n :: Answered(b.g.h.tries, n) <= Most(b.maxReplayAttempts)
    ensures forall f :: f in b.spool.files && f.name !in b.state.skip ==>
              Answered(b.g.h.tries, f.name) < Most(b.maxReplayAttempts)
    ensures forall i :: 0 <= i < |b.g.h.log| && b.g.h.log[i].what.BatchQuarantined? ==>
              var w := b.g.h.log[i].what;
              && (w.cause.Repeated? ==>
                    w.file.Some? && Answered(b.g.h.tries, w.file.value) == w.cause.attempts >= b.maxReplayAttempts)
              && (w.cause.Refused? || w.cause.LiveNotKept? ==>
                    RefusedFairly(b.g.h.tries, b.g.h.batches, b.g.h.origin, w.file))
  {
    HeadAt(b.p, b.g.h, b.g.w);
  }

  lemma {:induction false} HeadAt(p: Params, h: History, w: World)
    requires BooksKept(p, h, w)
    ensures forall n :: Answered(h.tries, n) <= Most(p.max)
    ensures forall f :: f in w.files && f.name !in w.skip ==> Answered(h.tries, f.name) < Most(p.max)
    ensures forall i :: 0 <= i < |h.log| && h.log[i].what.BatchQuarantined? ==>
              Fair(h, h.log[i].what, w.files, w.skip, p.max)
  {
    assert Opens(Whole, Whole) && Opens(Heading, Heading) && Opens(Capping, Capping);
  }

  lemma {:induction false} CreditBounded(files: seq<File>, idle: set<Name>, failures: map<Name, nat>, cap: nat)
    ensures Credit(files, idle, failures, cap) <= |files| * cap
  {
    if files != [] {
      var n := |files| - 1;
      CreditBounded(files[..n], idle, failures, cap);
      assert |files| * cap == n * cap + cap;
    }
  }

  /** The last call of a replay that stopped is the ping that says so. */
  lemma {:induction false} LastCall(before: seq<Call>, ts: seq<Try>, ts': seq<Try>, now: int, max: int, answered: bool)
    requires StopTold(ts, ts', now, max, answered)
    ensures var calls := before + AllCalls(ts'); calls != [] && calls[|calls| - 1] == Pinging(answered)
  {
    assert Opens(Trying, Trying);
    assert AllCalls(ts') == AllCalls(ts'[..|ts'| - 1]) + CallsOf(ts'[|ts'| - 1]);
  }

  /** A spool nobody adds to drains: replays that stop while the database answers use up
      attempts, at most `max_replay_attempts - 1` for each file, so within that many rounds one
      ends drained, out of time, or with a ping the database did not answer. */
  method ReplayUntilDrained(b: BufferedWriter, now: int, ghost id: nat) returns (end: Replayed, rounds: nat)
    requires b.Ready() && b.Logged() && b.state.carried == [] && now == b.g.now && Unsettled(b.g.h, id)
    modifies b`state, b`g, b`ticks, b.spool`files, b.spool`corrupt, b.spool`stuck, b.spool`quarantined, b.db
    ensures b.Ready() && b.Logged() && end != Stopped(true)
    ensures end.Stopped? ==> b.db.log != [] && b.db.log[|b.db.log| - 1] == Pinging(false)
    ensures end.Drained? ==> AllIdle(b.spool.files, b.state.skip + b.spool.stuck)
    ensures rounds <= |old(b.spool.files)| * if b.maxReplayAttempts > 0 then b.maxReplayAttempts - 1 else 0
  {
    CreditBounded(b.spool.files, b.g.w.skip + b.g.w.stuck, b.g.w.failures, if b.p.max > 0 then b.p.max - 1 else 0);
    rounds, end := 0, Stopped(true);
    ghost var from := b.g.h.tries;
    while end == Stopped(true)
      invariant b.Ready() && b.Logged() && b.state.carried == [] && now == b.g.now && Unsettled(b.g.h, id)
      invariant end != Stopped(true) ==> EndTold(from, b.g.h.tries, now, b.maxReplayAttempts, end)
      invariant end.Drained? ==> AllIdle(b.spool.files, b.state.skip + b.spool.stuck)
      invariant rounds + CreditOf(b.p, b.g.w) <= CreditOf(b.p, old(b.g.w))
      decreases CreditOf(b.p, b.g.w), if end == Stopped(true) then 1 else 0
    {
      from := b.g.h.tries;
      ghost var sent;
      end, sent := b.ReplayAll(now, id);
      if end == Stopped(true) {
        rounds := rounds + 1;
      }
    }
    if end.Stopped? {
      LastCall(b.before, from, b.g.h.tries, now, b.maxReplayAttempts, end.answered);
    }
  }
}
