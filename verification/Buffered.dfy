/**
  The buffered writer: batches go to the database, or to the spool while it is unreachable;
  the spool is replayed before anything newer is written (node_monitor/database/buffered.py).

  The books kept in ghost state number every submission and record what became of it; `Valid`
  says that they agree with the spool, the database and every event made so far.
 */
module Buffered {
  import opened Upsert
  import opened Records
  import opened Writer
  import opened WriterTheorems
  import opened DatabaseWriter
  import opened Spooling
  import opened Attempts
  import opened Delivery
  import opened Sealing
  import opened BufferedSteps
  import opened BufferedState

  /** How dealing with one spooled batch ends: on to the next, written, or replay stops. */
  datatype Step = Passed | Wrote | Stop(answered: bool)

  /** How a replay ends. `Stopped` is DatabaseUnavailable raised. */
  datatype Replayed = Drained(wrote: bool) | OutOfTime(wrote: bool) | Stopped(answered: bool)

  /** How a submit ends: it returns events, or it raises and carries them to the next. */
  datatype Submitted = Returned(events: seq<Notice>) | Raised

  /** A clock reading after the first lies the budget or more behind it. */
  ghost predicate OverBudget(clock: nat -> int, from: nat, to: nat, budget: int) {
    exists j :: from < j < to && clock(j) - clock(from) >= budget
  }

  /** The writer takes every one of these files. */
  ghost predicate AllTaken(cfg: Config, files: seq<File>, now: int) {
    forall f :: f in files ==> IsPlannable(cfg, f.records, now)
  }

  ghost predicate AllIdle(files: seq<File>, idle: set<Name>) {
    forall f :: f in files ==> f.name in idle
  }

  function FateOf(h: History, id: nat): Fate { if id < |h.fates| then h.fates[id] else Pending }

  /** Only spooled files' writes have been added. */
  ghost predicate Spooled(ts: seq<Try>, ts': seq<Try>, now: int) {
    Since(ts, ts', now) && forall i :: |ts| <= i < |ts'| ==> ts'[i].file.Some?
  }

  /** What dealing with one file added to the tries: at most one, and if replay stops there it
      failed, with the ping answered as the step says. */
  ghost predicate StepTold(ts: seq<Try>, ts': seq<Try>, now: int, max: int, step: Step) {
    forall k :: Opens(k, Trying) ==>
      && Spooled(ts, ts', now)
      && (step.Stop? <==> LastFails(ts', |ts|, max))
      && (step.Stop? ==> ts'[|ts'| - 1].answer == Some(step.answered))
      && (step.Wrote? <==> AnyWritten(ts', |ts|))
  }

  /** A replay that has not stopped. */
  ghost predicate SoFar(ts: seq<Try>, ts': seq<Try>, now: int, max: int, wrote: bool) {
    forall k :: Opens(k, Trying) ==>
      Spooled(ts, ts', now) && !LastFails(ts', |ts|, max) && (wrote <==> AnyWritten(ts', |ts|))
  }

  /** One that has. */
  ghost predicate StopTold(ts: seq<Try>, ts': seq<Try>, now: int, max: int, answered: bool) {
    forall k :: Opens(k, Trying) ==>
      Spooled(ts, ts', now) && LastFails(ts', |ts|, max) && ts'[|ts'| - 1].answer == Some(answered)
  }

  ghost predicate EndTold(ts: seq<Try>, ts': seq<Try>, now: int, max: int, end: Replayed) {
    if end.Stopped? then StopTold(ts, ts', now, max, end.answered) else SoFar(ts, ts', now, max, end.wrote)
  }

  /** One try, and the step it makes. */
  lemma {:induction false} OneStep(ts: seq<Try>, t: Try, now: int, max: int, step: Step)
    requires t.now == now && t.file.Some? && (step.Wrote? <==> t.outcome.Written?)
    requires step.Stop? <==> t.outcome.Unavailable?
                             && !(t.answer == Some(true) && Answered(ts + [t], t.file.value) >= max)
    requires step.Stop? ==> t.answer == Some(step.answered)
    ensures StepTold(ts, ts + [t], now, max, step)
  {
    assert (ts + [t])[|ts|] == t;
  }

  lemma {:induction false} NoStep(ts: seq<Try>, now: int, max: int)
    ensures StepTold(ts, ts, now, max, Passed) && SoFar(ts, ts, now, max, false)
  {
  }

  lemma {:induction false} SoFarStep(ts: seq<Try>, ts': seq<Try>, ts'': seq<Try>, now: int, max: int, wrote: bool,
        step: Step)
    requires SoFar(ts, ts', now, max, wrote) && StepTold(ts', ts'', now, max, step)
    ensures if step.Stop? then StopTold(ts, ts'', now, max, step.answered)
            else SoFar(ts, ts'', now, max, wrote || step.Wrote?)
  {
    assert Opens(Trying, Trying);
    if |ts''| == |ts'| {
      assert ts'' == ts';
    }
    assert forall i :: 0 <= i < |ts'| ==> ts''[i] == ts'[i];
    assert AnyWritten(ts'', |ts|) <==> AnyWritten(ts', |ts|) || AnyWritten(ts'', |ts'|);
  }

  /** What became of a batch once the spool was drained: it was written, if there was anything to
      write, and it is delivered, or the server refused it and the submit raises. */
  ghost predicate FreshTold(ts: seq<Try>, ts': seq<Try>, records: seq<Record>, fate: Fate, raised: bool) {
    forall k :: Opens(k, Trying) ==>
      if |ts'| > |ts| && ts'[|ts'| - 1].file.None? then
        var t := ts'[|ts'| - 1];
        t.records == records && (t.outcome.Written? ==> fate == Delivered) && (t.outcome.Rejected? <==> raised)
      else records == [] && !raised
  }

  /** The outage after the fresh write that followed a replay. */
  lemma {:induction false} FreshMoves(p: Params, g: Books, g': Books, g'': Books, t: Try, wrote: bool,
        retry: Option<int>, retry': Option<int>)
    requires SoFar(g.h.tries, g'.h.tries, g.now, p.max, wrote) && g'.h.phase == g.h.phase && g''.now == g.now
    requires g''.h.tries == g'.h.tries + [t] && t.file.None? && t.now == g.now
    requires g''.h.phase == NextPhase(g.h.phase, if t.outcome.Unavailable? then Fails else Drains,
                                      wrote || t.outcome.Written?, ReplayedBatches(g''.h.tries),
                                      g''.h.batchesSuperseded)
    requires retry' == NextRetry(retry, if t.outcome.Unavailable? then Fails else Drains, wrote || t.outcome.Written?,
                                 g.now, Wait(p.base, p.cap, g.h.phase.strikes + 1))
    ensures OutageMoves(p, g, g'', if t.outcome.Unavailable? then Fails else Drains, retry, retry')
  {
    assert Opens(Trying, Trying);
    var from, ts, ts' := |g.h.tries|, g'.h.tries, g''.h.tries;
    assert forall i :: 0 <= i < |ts| ==> ts'[i] == ts[i];
    assert ts'[|ts|] == t;
    assert AnyWritten(ts', from) <==> AnyWritten(ts, from) || t.outcome.Written?;
  }

  /** A drained spool and nothing to write. */
  lemma {:induction false} DrainMoves(p: Params, g: Books, g': Books, wrote: bool, retry: Option<int>,
        retry': Option<int>, fate: Fate)
    requires SoFar(g.h.tries, g'.h.tries, g.now, p.max, wrote) && g'.now == g.now
    requires g'.h.phase == NextPhase(g.h.phase, Drains, wrote, ReplayedBatches(g'.h.tries), g'.h.batchesSuperseded)
    requires retry' == if wrote then None else retry
    ensures OutageMoves(p, g, g', Drains, retry, retry') && FreshTold(g.h.tries, g'.h.tries, [], fate, false)
  {
    assert Opens(Trying, Trying);
  }

  /** A replay that ran out of time. */
  lemma {:induction false} RunOutMoves(p: Params, g: Books, g': Books, wrote: bool, retry: Option<int>,
        retry': Option<int>)
    requires SoFar(g.h.tries, g'.h.tries, g.now, p.max, wrote) && g'.now == g.now && g'.h.phase == g.h.phase
    requires retry' == if wrote then None else retry
    ensures OutageMoves(p, g, g', RunsOut, retry, retry')
  {
    assert Opens(Trying, Trying);
  }

  /** A replay that stopped. */
  lemma {:induction false} StopMoves(p: Params, g: Books, g': Books, answered: bool, retry: Option<int>,
        retry': Option<int>)
    requires StopTold(g.h.tries, g'.h.tries, g.now, p.max, answered) && g'.now == g.now
    requires g'.h.phase == Struck(g.h.phase)
    requires retry' == Some(g.now + Wait(p.base, p.cap, g'.h.phase.strikes))
    ensures OutageMoves(p, g, g', Fails, retry, retry')
  {
    assert Opens(Trying, Trying);
  }

  /** No attempt is made. */
  lemma {:induction false} WaitMoves(p: Params, g: Books, g': Books, retry: Option<int>)
    requires Calmly(g, g')
    ensures OutageMoves(p, g, g', Waits, retry, retry)
  {
  }

  /** What a fresh batch's write has come to. */
  lemma {:induction false} FreshIs(ts: seq<Try>, ts': seq<Try>, t: Try, fate: Fate, raised: bool)
    requires |ts| <= |ts'| && t.file.None?
    requires (t.outcome.Written? ==> fate == Delivered) && (t.outcome.Rejected? <==> raised)
    ensures FreshTold(ts, ts' + [t], t.records, fate, raised)
  {
    assert (ts' + [t])[|ts'|] == t;
  }

  lemma {:induction false} SoFarGrows(ts: seq<Try>, ts': seq<Try>, now: int, max: int, wrote: bool)
    requires SoFar(ts, ts', now, max, wrote)
    ensures |ts| <= |ts'|
  {
    assert Opens(Trying, Trying);
  }

  /** Nothing more is tried. */
  lemma {:induction false} MovesOn(p: Params, g: Books, g': Books, g'': Books, how: How, retry: Option<int>,
        retry': Option<int>)
    requires OutageMoves(p, g, g', how, retry, retry') && Calmly(g', g'') && g''.now == g'.now
    ensures OutageMoves(p, g, g'', how, retry, retry')
  {
    assert Opens(Trying, Trying);
  }

  lemma {:induction false} CallsAdd(before: seq<Call>, ts: seq<Try>, t: Try)
    ensures before + AllCalls(ts + [t])
            == before + AllCalls(ts) + [Writing(t.records, t.now, t.outcome)] + PingOf(t)
  {
    CallsSnoc(ts, t);
  }

  lemma {:induction false} FreshTried(p: Params, g: Books, s: State, before: seq<Call>, t: Try)
    requires AllKept(p, g, s) && t.file.None? && t.answer.None?
    ensures AllKept(p, TryBooks(g, t), s)
    ensures before + AllCalls(TryBooks(g, t).h.tries)
            == before + AllCalls(g.h.tries) + [Writing(t.records, t.now, t.outcome)]
    ensures t.outcome.Rejected? ==> WasRefused(TryBooks(g, t).h.tries, t.records)
  {
    TriedOk(p, g, s, t);
    CallsAdd(before, g.h.tries, t);
    if t.outcome.Rejected? {
      RefusedLast(g.h.tries, t);
    }
  }

  class BufferedWriter {
    const db: Database
    const spool: Spool
    const base: nat
    const cap: nat
    const maxReplayAttempts: int
    const replayBudget: int
    /** The readings of the clock that measures the replay budget, and how many were taken. */
    const clock: nat -> int
    var ticks: nat
    var state: State

    ghost const start: Db
    /** The calls made of the database before. */
    ghost const before: seq<Call>
    ghost const p: Params
    ghost var g: Books

    ghost function Look(): World
      reads this, spool, db
    {
      View(state, spool.files, spool.corrupt, spool.quarantined, spool.stuck, spool.seqNo, spool.lastStamp, db.db)
    }

    /** Holds throughout a submit. */
    ghost predicate Inv()
      reads this, spool, db
    {
      && p.base == base && p.cap == cap && p.max == maxReplayAttempts
      && spool.Valid() && g.w == Look() && AllKept(p, g, state)
    }

    ghost predicate Ready()
      reads this, spool, db
    {
      Means(p, db.cfg, start) && db.Valid() && Inv()
    }

    /** Every call made is one of a try, and a try's calls were made. */
    ghost predicate Logged()
      reads this, db
    {
      db.log == before + AllCalls(g.h.tries)
    }

    /** Holds between submits: every submission is settled and everything found is reported. */
    ghost predicate Valid()
      reads this, spool, db
    {
      && Ready() && Settled(g.h) && Logged() && TurnsKept(p, g)
      && state.events == [] && spool.quarantined == [] && state.beyond == multiset{}
    }

    constructor (db: Database, spool: Spool, base: nat, cap: nat, maxReplayAttempts: int, replayBudget: int,
          clock: nat -> int)
      requires db.Valid() && spool.Valid() && spool.quarantined == [] && spool.stuck == {} && spool.corrupt == []
      ensures Valid() && this.db == db && this.spool == spool && start == db.db && g.h == FirstHistory(spool.files)
      ensures this.base == base && this.cap == cap && this.maxReplayAttempts == maxReplayAttempts
              && this.replayBudget == replayBudget
      ensures this.clock == clock && before == db.log
    {
      this.db, this.spool, this.base, this.cap := db, spool, base, cap;
      this.maxReplayAttempts, this.replayBudget, this.clock, ticks := maxReplayAttempts, replayBudget, clock, 0;
      state := State(map[], false, None, None, 0, 0, 0, 0, multiset{}, [], {}, [], multiset{});
      start, before := db.db, db.log;
      ghost var first := db.db;
      p := Params((batches, commits) => Replay(db.cfg, first, batches, commits), (rs, now) => Beyond(db.cfg, rs, now),
          base, cap, maxReplayAttempts);
      g := Books(FirstHistory(spool.files), FirstWorld(spool.files, spool.seqNo, spool.lastStamp, db.db),
                 [], [], 0, []);
      new;
      StartSound(p, spool.files, spool.seqNo, spool.lastStamp) by { assert Opens(Filing, Filing); }
    }

    // --- replaying ----------------------------------------------------------------------------

    method DropSuperseded(f: File)
      requires Inv() && f in spool.files && f.name !in state.skip && f.name.live
      modifies this`state, this`g, spool`files
      ensures Inv() && DoneWith(old(g.h), old(g.w), g.h, g.w, f) && SameRun(old(g), g)
      ensures state.carried == old(state.carried) && g.h.commits == old(g.h.commits) && g.h.tries == old(g.h.tries)
    {
      LiveMark(spool.files, spool.corrupt, spool.seqNo, spool.lastStamp, f);
      spool.Remove(f);
      var gone := f !in spool.files;
      var next := Retired(state, f, gone);
      if gone {
        next := next.(superseded := next.superseded + 1);
      }
      ghost var books := SupersedeStep(p, g, state, f, gone, next);
      state, g := next, books;
    }

    /** A spooled batch is given up, for what its write has come to. */
    method QuarantineSpooled(f: File, now: int, cause: Cause, ghost t: Try)
      requires Inv() && state.carried == [] && now == g.now && f in spool.files && f.name !in state.skip
      requires Condemns(t, f, cause, state.failures, maxReplayAttempts)
      modifies this`state, this`g, spool`files, spool`corrupt
      ensures Inv() && DoneWith(old(g.h), old(g.w), g.h, g.w, f) && SameRun(old(g), g) && state.carried == []
      ensures g.h.log == old(g.h.log) + [Event(old(state), now, BatchQuarantined(Some(f.name), cause))]
      ensures g.h.commits == old(g.h.commits) && NoDrops(old(g.h), g.h) && g.h.tries == old(g.h.tries) + [t]
    {
      var moved := spool.Quarantine(f);
      var n := Event(state, now, BatchQuarantined(Some(f.name), cause));
      var next := Note(Retired(state, f, moved), n);
      ghost var books := QuarantineStep(p, g, state, f, cause, t, moved, next);
      state, g := next, books;
    }

    /** The batch is in the database and acknowledged: its file goes. */
    method Finish(f: File, lost: multiset<Table>, ghost c: Committed, ghost t: Try)
      requires Inv() && f in spool.files && f.name !in state.skip && c in g.h.commits
      requires f.name in g.h.origin && c.id == g.h.origin[f.name] && lost == p.lost(f.records, c.now)
      requires IsReplayed(t) && t.records == f.records
      modifies this`state, this`g, spool`files
      ensures Inv() && DoneWith(old(g.h), old(g.w), g.h, g.w, f) && SameRun(old(g), g)
      ensures state.carried == old(state.carried) && g.h.commits == old(g.h.commits) && NoDrops(old(g.h), g.h)
      ensures g.h.tries == old(g.h.tries) + [t] && FateOf(g.h, c.id) == Delivered
    {
      spool.Remove(f);
      var gone := f !in spool.files;
      var next := Retired(state, f, gone)
                  .(batches := state.batches + 1, records := state.records + |f.records|,
                      beyond := state.beyond + lost);
      ghost var books := FinishStep(p, g, state, f, c, t, gone, next);
      state, g := next, books;
    }

    /** Reads a spooled batch.  One that cannot be read is moved away or marked. */
    method Fetch(f: File) returns (batch: Option<seq<Record>>)
      requires Inv() && f in spool.files && f.name !in state.skip
      modifies this`g, spool`files, spool`corrupt, spool`stuck, spool`quarantined
      ensures Inv() && SameRun(old(g), g) && g.h.commits == old(g.h.commits) && NoDrops(old(g.h), g.h)
      ensures g.h.tries == old(g.h.tries)
      ensures batch.None? ==> DoneWith(old(g.h), old(g.w), g.h, g.w, f)
      ensures batch.Some? ==> batch.value == f.records && g == old(g) && f.name !in spool.stuck
    {
      batch := spool.Read(f);
      if batch.None? {
        if f.name in old(spool.stuck) {
          StuckPasses(p, g, state, f);
        } else {
          g := UnreadableStep(p, g, state, f, f !in spool.files);
        }
      }
    }

    /** One write of a batch whose turn it is. */
    method Send(records: seq<Record>, now: int, ghost id: nat)
        returns (outcome: Outcome, ghost c: Committed, ghost committed: bool)
      requires Ready() && id < |g.h.batches| && g.h.batches[id] == records && Leads(g, id)
      modifies this`g, db
      ensures Ready() && SameRun(old(g), g)
      ensures db.log == old(db.log) + [Writing(records, now, outcome)]
      ensures g.h == old(g.h).(commits := g.h.commits) && g.w == old(g.w).(db := g.w.db) && g.own == old(g.own)
              && Leads(g, id)
      ensures c == Committed(id, now) && g.h.commits == CommitsWith(old(g.h.commits), committed, c)
      ensures committed ==> IsPlannable(db.cfg, records, now)
      ensures outcome.Written? ==> committed && outcome.beyond == p.lost(records, c.now)
    {
      c := Committed(id, now);
      TablesSnoc(p, db.cfg, start, g, state, id, now);
      SendOk(p, g, state, c, p.tables(g.h.batches, g.h.commits + [c]));
      LossMeans(p, db.cfg, start, records, now);
      outcome, committed := db.Write(records, now);
      if committed {
        g := CommitBooks(g, c, db.db);
      }
    }

    /** The write of a spooled batch failed with an outage-class error.  If the database still
        answers, the batch itself is the suspect, and after too many such failures it is given up;
        if not, replay stops and nothing is held against it. */
    method Suspect(f: File, now: int) returns (step: Step, ghost t: Try)
      requires Inv() && state.carried == [] && now == g.now
      requires f in spool.files && f.name !in state.skip && f.name !in spool.stuck
      modifies this`state, this`g, spool`files, spool`corrupt, db`log
      ensures Inv() && state.carried == [] && SameRun(old(g), g)
      ensures t == Try(Some(f.name), f.records, now, Unavailable, t.answer) && t.answer.Some?
      ensures db.log == old(db.log) + [Pinging(t.answer.value)] && g.h.tries == old(g.h.tries) + [t]
      ensures g.h.commits == old(g.h.commits) && NoDrops(old(g.h), g.h)
      ensures step.Passed? || step.Stop?
      ensures step.Passed? <==> t.answer.value && Answered(g.h.tries, f.name) >= maxReplayAttempts
      ensures step.Passed? ==> DoneWith(old(g.h), old(g.w), g.h, g.w, f)
      ensures step.Stop? ==> step.answered == t.answer.value && Halted(p, old(g), g, f, step.answered)
    {
      var answered := db.Ping();
      t := Try(Some(f.name), f.records, now, Unavailable, Some(answered));
      if answered {
        step := Blame(f, now, t);
      } else {
        TriedOk(p, g, state, t);
        g := TryBooks(g, t);
        step := Stop(false);
      }
    }

    /** The write of a spooled batch failed while the database answered. */
    method Blame(f: File, now: int, ghost t: Try) returns (step: Step)
      requires Inv() && state.carried == [] && now == g.now
      requires f in spool.files && f.name !in state.skip && f.name !in spool.stuck
      requires Blames(t, f.name) && t.records == f.records
      modifies this`state, this`g, spool`files, spool`corrupt
      ensures Inv() && state.carried == [] && SameRun(old(g), g) && g.h.tries == old(g.h.tries) + [t]
      ensures g.h.commits == old(g.h.commits) && NoDrops(old(g.h), g.h)
      ensures step == if Answered(g.h.tries, f.name) >= maxReplayAttempts then Passed else Stop(true)
      ensures step.Passed? ==> DoneWith(old(g.h), old(g.w), g.h, g.w, f)
      ensures step.Stop? ==> Halted(p, old(g), g, f, true)
    {
      BlameCounts(p, g, state, f, t);
      var failures := Tries(state.failures, f.name) + 1;
      if failures < maxReplayAttempts {
        var next := state.(failures := state.failures[f.name := failures]);
        StopOk(p, g, state, f, t, next);
        state, g := next, StopBooks(g, f, t);
        return Stop(true);
      }
      QuarantineSpooled(f, now, Repeated(failures), t);
      return Passed;
    }

    /** Deals with one spooled batch that is not superseded: it is written once at most, and
        replay stops only if that write found the database unavailable. */
    method ReplayOne(f: File, now: int) returns (step: Step, ghost committed: bool)
      requires Ready() && Logged() && state.carried == [] && now == g.now && f in spool.files && f.name !in state.skip
      requires Settleable(g.h, f) && (f.name !in spool.stuck ==> Leads(g, g.h.origin[f.name]))
      modifies this`state, this`g, spool`files, spool`corrupt, spool`stuck, spool`quarantined, db
      ensures Ready() && Logged() && state.carried == [] && SameRun(old(g), g)
      ensures StepTold(old(g.h.tries), g.h.tries, now, maxReplayAttempts, step)
      ensures !step.Stop? ==> DoneWith(old(g.h), old(g.w), g.h, g.w, f)
      ensures step.Stop? ==> Halted(p, old(g), g, f, step.answered)
      ensures g.h.commits == CommitsWith(old(g.h.commits), committed, Committed(old(g.h.origin)[f.name], now))
      ensures committed ==> IsPlannable(db.cfg, f.records, now)
      ensures NoDrops(old(g.h), g.h) && g.h.origin == old(g.h.origin)
    {
      var batch := Fetch(f);
      if batch.None? {
        OriginStays(old(g), g, f);
        NoStep(g.h.tries, now, maxReplayAttempts);
        return Passed, false;
      }
      step, committed := ReplayBatch(f, now);
    }

    /** The same for a batch that could be read. */
    method ReplayBatch(f: File, now: int) returns (step: Step, ghost committed: bool)
      requires Ready() && Logged() && state.carried == [] && now == g.now && f in spool.files && f.name !in state.skip
      requires Settleable(g.h, f) && f.name !in spool.stuck && Leads(g, g.h.origin[f.name])
      modifies this`state, this`g, spool`files, spool`corrupt, db
      ensures Ready() && Logged() && state.carried == [] && SameRun(old(g), g)
      ensures StepTold(old(g.h.tries), g.h.tries, now, maxReplayAttempts, step)
      ensures !step.Stop? ==> DoneWith(old(g.h), old(g.w), g.h, g.w, f)
      ensures step.Stop? ==> Halted(p, old(g), g, f, step.answered)
      ensures g.h.commits == CommitsWith(old(g.h.commits), committed, Committed(old(g.h.origin)[f.name], now))
      ensures committed ==> IsPlannable(db.cfg, f.records, now)
      ensures NoDrops(old(g.h), g.h) && g.h.origin == old(g.h.origin)
    {
      var outcome; ghost var c;
      outcome, c, committed := Send(f.records, now, g.h.origin[f.name]);
      ghost var mid := g;
      ghost var t;
      step, t := Conclude(f, now, outcome, c);
      CallsAdd(before, old(g.h.tries), t);
      DoneSince(p, old(g), mid, g, f, step.Stop?, step.Stop? && step.answered);
    }

    /** What the outcome of its write means for a spooled batch. */
    method Conclude(f: File, now: int, outcome: Outcome, ghost c: Committed) returns (step: Step, ghost t: Try)
      requires Inv() && state.carried == [] && now == g.now
      requires f in spool.files && f.name !in state.skip && f.name !in spool.stuck
      requires f.name in g.h.origin && c.id == g.h.origin[f.name]
      requires outcome.Written? ==> c in g.h.commits && outcome.beyond == p.lost(f.records, c.now)
      modifies this`state, this`g, spool`files, spool`corrupt, db`log
      ensures Inv() && state.carried == [] && SameRun(old(g), g)
      ensures t == Try(Some(f.name), f.records, now, outcome, t.answer) && (t.answer.Some? <==> outcome.Unavailable?)
      ensures db.log == old(db.log) + PingOf(t) && g.h.tries == old(g.h.tries) + [t]
      ensures StepTold(old(g.h.tries), g.h.tries, now, maxReplayAttempts, step)
      ensures !step.Stop? ==> DoneWith(old(g.h), old(g.w), g.h, g.w, f)
      ensures step.Stop? ==> Halted(p, old(g), g, f, step.answered)
      ensures g.h.commits == old(g.h.commits) && NoDrops(old(g.h), g.h)
      ensures outcome.Written? ==> step.Wrote? && FateOf(g.h, c.id) == Delivered
    {
      match outcome {
        case Written(beyond) =>
          t := Try(Some(f.name), f.records, now, outcome, None);
          Finish(f, beyond, c, t);
          step := Step.Wrote;
        case Unavailable =>
          step, t := Suspect(f, now);
        case Rejected =>
          t := Try(Some(f.name), f.records, now, outcome, None);
          QuarantineSpooled(f, now, Refused, t);
          step := Passed;
      }
      OneStep(old(g.h.tries), t, now, maxReplayAttempts, step);
    }

    /** Deals with the file a replay has come to. */
    method ReplayNext(list: seq<File>, i: nat, now: int, superseded: set<Name>, ghost first: Books, ghost id: nat,
          ghost sent: seq<File>)
        returns (step: Step, ghost more: seq<File>)
      requires Ready() && Logged() && state.carried == [] && now == g.now
      requires Sorted(list) && superseded == SupersededOf(list)
      requires i < |list| && Progress(p, first, g, id) && Scanning(g.w, list, i)
               && Traced(first.h, g.h, list, i, now, sent)
      modifies this`state, this`g, spool`files, spool`corrupt, spool`stuck, spool`quarantined, db
      ensures Ready() && Logged() && state.carried == [] && now == g.now && Progress(p, first, g, id)
      ensures StepTold(old(g.h.tries), g.h.tries, now, maxReplayAttempts, step)
      ensures !step.Stop? ==> Scanning(g.w, list, i + 1) && Traced(first.h, g.h, list, i + 1, now, more)
      ensures step.Stop? ==> Traced(first.h, g.h, list, |list|, now, more)
      ensures step == Stop(true) ==> CreditOf(p, g.w) < CreditOf(p, first.w)
      ensures AllTaken(db.cfg, sent, now) ==> AllTaken(db.cfg, more, now)
    {
      ghost var before, was := g, state;
      LeadStarts(p, g, state, list, i);
      if list[i].name in superseded {
        SupersededLive(list, list[i]);
        DropSuperseded(list[i]);
        TraceDrops(first, before, g, list, i, now, sent);
        ProgressStep(p, first, before, g, was, id, list, i);
        return Passed, sent;
      }
      ghost var committed;
      step, committed := ReplayOne(list[i], now);
      more := if committed then sent + [list[i]] else sent;
      TraceOrigin(first.h, before.h, list, i, now, sent);
      TraceMoves(first.h, before.h, g.h, list, i, now, sent, committed);
      if step.Stop? {
        HaltStep(p, first, before, g, id, list[i], step.answered);
        TraceEnds(first.h, g.h, list, i + 1, now, more);
      } else {
        ProgressStep(p, first, before, g, was, id, list, i);
      }
    }

    /** Writes the waiting batches in order, as long as there are any and time is left.  A
        drained spool holds only files that are out of replay's reach, and a stop while the
        database answered uses up one of finitely many attempts.  `sent` are the files whose
        batches were committed; of the files not written only superseded ones are dropped. */
    method ReplayAll(now: int, ghost id: nat) returns (end: Replayed, ghost sent: seq<File>)
      requires Ready() && Logged() && state.carried == [] && now == g.now && Unsettled(g.h, id)
      modifies this`state, this`g, this`ticks, spool`files, spool`corrupt, spool`stuck, spool`quarantined, db
      ensures Ready() && Logged() && state.carried == [] && Progress(p, old(g), g, id) && old(ticks) <= ticks
      ensures EndTold(old(g.h.tries), g.h.tries, now, maxReplayAttempts, end)
      ensures end.Drained? ==> AllIdle(spool.files, state.skip + spool.stuck)
      ensures end == Stopped(true) ==> CreditOf(p, g.w) < CreditOf(p, old(g.w))
      ensures end.OutOfTime? ==> OverBudget(clock, old(ticks), ticks, replayBudget)
      ensures var list := Without(old(spool.files), old(state.skip)); Traced(old(g.h), g.h, list, |list|, now, sent)
      ensures AllTaken(db.cfg, sent, now)
    {
      var started := clock(ticks);
      ticks := ticks + 1;
      var list := Without(spool.files, state.skip);
      ScanStarts(g.w) by { assert Opens(Filing, Filing); }
      TraceStarts(g.h, list, now);
      var superseded := SupersededOf(list);
      var wrote := false;
      var i := 0;
      sent := [];
      NoStep(g.h.tries, now, maxReplayAttempts);
      while i < |list|
        invariant 0 <= i <= |list| && Sorted(list) && superseded == SupersededOf(list) && old(ticks) < ticks
        invariant SoFar(old(g.h.tries), g.h.tries, now, maxReplayAttempts, wrote)
        invariant Ready() && Logged() && state.carried == [] && Progress(p, old(g), g, id) && Scanning(g.w, list, i)
        invariant Traced(old(g.h), g.h, list, i, now, sent) && AllTaken(db.cfg, sent, now)
      {
        var reading := clock(ticks);
        ticks := ticks + 1;
        if reading - started >= replayBudget {
          TraceEnds(old(g.h), g.h, list, i, now, sent);
          return OutOfTime(wrote), sent;
        }
        var step; ghost var before := g.h.tries;
        step, sent := ReplayNext(list, i, now, superseded, old(g), id, sent);
        SoFarStep(old(g.h.tries), before, g.h.tries, now, maxReplayAttempts, wrote, step);
        if step.Stop? {
          return Stopped(step.answered), sent;
        }
        wrote := wrote || step.Wrote?;
        i := i + 1;
      }
      ScanEnds(g.w, list);
      return Drained(wrote), sent;
    }

    // --- settling the batch just submitted ------------------------------------------------------

    /** Spools a batch. */
    method Store(records: seq<Record>, now: int, ghost id: nat)
      requires Inv() && state.carried == [] && now == g.now && Unsettled(g.h, id) && g.h.batches[id] == records
      modifies this`state, this`g, spool`files, spool`seqNo, spool`lastStamp
      ensures Inv() && state.carried == [] && SameRun(old(g), g) && Settled(g.h) && Calmly(old(g), g)
      ensures state.since == old(state.since) && state.retry == old(state.retry) && state.delay == old(state.delay)
    {
      if records == [] {
        EmptyOk(p, g, state, id);
        g := SettleBooks(g, id, Nothing);
        return;
      }
      var r; ghost var dropped, held, unread;
      r, dropped, held, unread := spool.Append(records);
      ghost var books := StoreOk(p, g, state, id, dropped, unread, r, spool.files, spool.corrupt, spool.seqNo,
          spool.lastStamp, spool.bytes(records));
      state, g := StoreState(state, now, r), books;
    }

    /** Keeps a batch the server refuses in `corrupt/`; live state is not worth keeping. */
    method QuarantineFresh(records: seq<Record>, now: int, ghost id: nat)
      requires Inv() && state.carried == [] && now == g.now && Unsettled(g.h, id) && g.h.batches[id] == records
      requires WasRefused(g.h.tries, records)
      modifies this`state, this`g, spool`corrupt, spool`seqNo, spool`lastStamp
      ensures Inv() && state.carried == [] && SameRun(old(g), g) && Settled(g.h) && Calmly(old(g), g)
      ensures state.skip == old(state.skip) && state.retry == old(state.retry)
    {
      if records == [] {
        EmptyOk(p, g, state, id);
        g := SettleBooks(g, id, Nothing);
        return;
      }
      if AllLive(records) {
        var n := Event(state, now, BatchQuarantined(None, LiveNotKept));
        NotKeptOk(p, g, state, id, LiveNotKept);
        state, g := Note(state, n), NotKeptBook(g, id, n);
        return;
      }
      var name := spool.QuarantineRecords(records);
      RefusedOk(p, g, state, id, name, spool.corrupt, spool.seqNo, spool.lastStamp, spool.bytes(records));
      g := RefusedBook(g, state, id, name, spool.corrupt, spool.seqNo, spool.lastStamp);
      state := Note(state, Event(state, now, BatchQuarantined(name, Refused)));
    }

    // --- outages ----------------------------------------------------------------------------------

    method Fail(records: seq<Record>, now: int, ghost id: nat)
      requires Inv() && state.carried == [] && now == g.now && Unsettled(g.h, id) && g.h.batches[id] == records
      modifies this`state, this`g, spool`files, spool`seqNo, spool`lastStamp
      ensures Inv() && state.carried == [] && SameRun(old(g), g) && Settled(g.h)
      ensures g.h.phase == Struck(old(g.h.phase)) && g.h.tries == old(g.h.tries)
      ensures state.retry == Some(now + Wait(base, cap, g.h.phase.strikes))
    {
      FailOk(p, g, state, id);
      state, g := FailState(state, now, base, cap), FailBook(g, state, base, cap);
      DelayIs(p, g, state);
      Store(records, now, id);
    }

    method Recover(now: int)
      requires Inv() && state.carried == [] && now == g.now
      modifies this`state, this`g
      ensures Inv() && state.carried == [] && SameRun(old(g), g) && g.h.tries == old(g.h.tries)
      ensures g.h.phase == Ended(old(g.h.phase), ReplayedBatches(g.h.tries), g.h.batchesSuperseded)
      ensures g.h.fates == old(g.h.fates) && g.h.origin == old(g.h.origin) && g.w == Calm(old(g.w))
      ensures state.connected && state.retry == None && state.skip == old(state.skip)
    {
      RecoverOk(p, g, state);
      state, g := RecoverState(state, now), RecoverBook(g, state);
    }

    // --- a submit ---------------------------------------------------------------------------------

    /** Writes a fresh batch behind an empty spool.  A failure opens or prolongs the outage and the
        next attempt waits; a success, or a replay before it, ends it. */
    method WriteFresh(records: seq<Record>, now: int, replayed: bool, ghost id: nat)
        returns (raised: bool, ghost t: Try)
      requires Ready() && Logged() && state.carried == [] && now == g.now
      requires Unsettled(g.h, id) && g.h.batches[id] == records && AllIdle(spool.files, state.skip + spool.stuck)
      modifies this`state, this`g, spool`files, spool`corrupt, spool`seqNo, spool`lastStamp, db
      ensures Ready() && Logged() && state.carried == [] && SameRun(old(g), g) && Settled(g.h)
      ensures g.h.tries == old(g.h.tries) + [t] && t == Try(None, records, now, t.outcome, None)
      ensures var how := if t.outcome.Unavailable? then Fails else Drains;
              && g.h.phase == NextPhase(old(g.h.phase), how, replayed || t.outcome.Written?, ReplayedBatches(g.h.tries),
                                        g.h.batchesSuperseded)
              && state.retry == NextRetry(old(state.retry), how, replayed || t.outcome.Written?, now,
                                          Wait(base, cap, old(g.h.phase).strikes + 1))
      ensures (t.outcome.Rejected? <==> raised) && (t.outcome.Written? ==> FateOf(g.h, id) == Delivered)
      ensures !t.outcome.Unavailable? ==> spool.files == old(spool.files) && state.skip == old(state.skip)
    {
      NoneWaiting(p, g.h, g.w, id);
      var outcome; ghost var c; ghost var committed;
      outcome, c, committed := Send(records, now, id);
      t := Try(None, records, now, outcome, None);
      FreshTried(p, g, state, before, t);
      g := TryBooks(g, t);
      raised := Settle(records, now, replayed, outcome, id, c);
    }

    /** What the outcome of its write means for a fresh batch. */
    method Settle(records: seq<Record>, now: int, replayed: bool, outcome: Outcome, ghost id: nat, ghost c: Committed)
        returns (raised: bool)
      requires Inv() && state.carried == [] && now == g.now && Unsettled(g.h, id) && g.h.batches[id] == records
      requires c.id == id && (outcome.Rejected? ==> WasRefused(g.h.tries, records))
      requires outcome.Written? ==> c in g.h.commits && outcome.beyond == p.lost(records, c.now)
      modifies this`state, this`g, spool`files, spool`corrupt, spool`seqNo, spool`lastStamp
      ensures Inv() && state.carried == [] && SameRun(old(g), g) && Settled(g.h) && g.h.tries == old(g.h.tries)
      ensures var how := if outcome.Unavailable? then Fails else Drains;
              && g.h.phase == NextPhase(old(g.h.phase), how, replayed || outcome.Written?, ReplayedBatches(g.h.tries),
                                        g.h.batchesSuperseded)
              && state.retry == NextRetry(old(state.retry), how, replayed || outcome.Written?, now,
                                          Wait(base, cap, old(g.h.phase).strikes + 1))
      ensures (outcome.Rejected? <==> raised) && (outcome.Written? ==> FateOf(g.h, id) == Delivered)
      ensures !outcome.Unavailable? ==> spool.files == old(spool.files) && state.skip == old(state.skip)
    {
      raised := outcome.Rejected?;
      match outcome {
        case Unavailable =>
          Fail(records, now, id);
        case Rejected =>
          if replayed {
            Recover(now);
          }
          QuarantineFresh(records, now, id);
        case Written(beyond) =>
          Deliver(now, beyond, id, c);
      }
    }

    /** The fresh batch is in the database and acknowledged. */
    method Deliver(now: int, beyond: multiset<Table>, ghost id: nat, ghost c: Committed)
      requires Inv() && state.carried == [] && now == g.now && Unsettled(g.h, id) && c.id == id && c in g.h.commits
      requires beyond == p.lost(g.h.batches[id], c.now)
      modifies this`state, this`g
      ensures Inv() && state.carried == [] && SameRun(old(g), g) && Settled(g.h) && g.h.tries == old(g.h.tries)
      ensures g.h.phase == Ended(old(g.h.phase), ReplayedBatches(g.h.tries), g.h.batchesSuperseded)
      ensures state.retry == None
      ensures FateOf(g.h, id) == Delivered && state.skip == old(state.skip)
    {
      var next := state.(beyond := state.beyond + beyond);
      DeliverOk(p, g, state, c, next);
      state, g := next, DeliverBooks(p, g, c);
      Recover(now);
    }

    method Attempt(records: seq<Record>, now: int, ghost id: nat) returns (raised: bool, ghost how: How)
      requires Ready() && Logged() && state.carried == [] && now == g.now
      requires Unsettled(g.h, id) && g.h.batches[id] == records
      modifies this`state, this`g, this`ticks, spool`files, spool`corrupt, spool`stuck, spool`quarantined, spool`seqNo,
               spool`lastStamp, db
      ensures Ready() && Logged() && state.carried == [] && SameRun(old(g), g) && Settled(g.h)
      ensures OutageMoves(p, old(g), g, how, old(state.retry), state.retry) && !how.Waits?
      ensures how.RunsOut? ==> OverBudget(clock, old(ticks), ticks, replayBudget)
      ensures if how.Drains? then FreshTold(old(g.h.tries), g.h.tries, records, FateOf(g.h, id), raised) else !raised
      ensures how.Drains? ==> AllIdle(spool.files, state.skip + spool.stuck)
    {
      raised := false;
      var end; ghost var sent;
      end, sent := ReplayAll(now, id);
      match end {
        case OutOfTime(wrote) =>
          PutOff(records, now, wrote, id);
          how := RunsOut;
          RunOutMoves(p, old(g), g, wrote, old(state.retry), state.retry);
        case Stopped(answered) =>
          Fail(records, now, id);
          how := Fails;
          StopMoves(p, old(g), g, answered, old(state.retry), state.retry);
        case Drained(wrote) =>
          raised, how := Proceed(records, now, wrote, id, old(g), old(state.retry));
      }
    }

    /** Replay ran out of time: the batch waits its turn. */
    method PutOff(records: seq<Record>, now: int, wrote: bool, ghost id: nat)
      requires Inv() && state.carried == [] && now == g.now && Unsettled(g.h, id) && g.h.batches[id] == records
      modifies this`state, this`g, spool`files, spool`seqNo, spool`lastStamp
      ensures Inv() && state.carried == [] && SameRun(old(g), g) && Settled(g.h) && Calmly(old(g), g)
      ensures state.retry == if wrote then None else old(state.retry)
    {
      if wrote {
        ghost var next := state.(connected := true, retry := None);
        RetryOk(p, g, state, next);
        state, g := state.(connected := true, retry := None), g.(w := g.w.(retry := None));
      }
      Store(records, now, id);
    }

    /** The spool is drained: the batch is written, or with nothing to write the outage, if the
        replay has shown it to be over, ends. */
    method Proceed(records: seq<Record>, now: int, wrote: bool, ghost id: nat, ghost first: Books,
                   ghost retry: Option<int>) returns (raised: bool, ghost how: How)
      requires Ready() && Logged() && state.carried == [] && now == g.now
      requires Unsettled(g.h, id) && g.h.batches[id] == records && AllIdle(spool.files, state.skip + spool.stuck)
      requires SoFar(first.h.tries, g.h.tries, now, maxReplayAttempts, wrote) && g.h.phase == first.h.phase
      requires first.now == now && state.retry == retry
      modifies this`state, this`g, spool`files, spool`corrupt, spool`seqNo, spool`lastStamp, db
      ensures Ready() && Logged() && state.carried == [] && SameRun(old(g), g) && Settled(g.h)
      ensures OutageMoves(p, first, g, how, retry, state.retry) && (how.Fails? || how.Drains?)
      ensures if how.Drains? then FreshTold(first.h.tries, g.h.tries, records, FateOf(g.h, id), raised) else !raised
      ensures how.Drains? ==> AllIdle(spool.files, state.skip + spool.stuck)
    {
      if records != [] || (state.since.Some? && !wrote) {
        ghost var t;
        raised, t := WriteFresh(records, now, wrote, id);
        how := if t.outcome.Unavailable? then Fails else Drains;
        FreshMoves(p, first, old(g), g, t, wrote, retry, state.retry);
        SoFarGrows(first.h.tries, old(g.h.tries), now, maxReplayAttempts, wrote);
        if how.Drains? {
          FreshIs(first.h.tries, old(g.h.tries), t, FateOf(g.h, id), raised);
        }
        return;
      }
      EmptyOk(p, g, state, id);
      g := SettleBooks(g, id, Nothing);
      if wrote {
        Recover(now);
      }
      DrainMoves(p, first, g, wrote, retry, state.retry, FateOf(g.h, id));
      return false, Drains;
    }

    /** Adds the events for spool files found unreadable and for retention losses. */
    method FinishEvents(now: int)
      requires Inv() && state.carried == [] && now == g.now && Settled(g.h)
      modifies this`state, this`g, spool`quarantined
      ensures Inv() && state.carried == [] && SameRun(old(g), g) && Settled(g.h) && Calmly(old(g), g)
      ensures spool.quarantined == [] && state.beyond == multiset{} && state.retry == old(state.retry)
      ensures g.h.fates == old(g.h.fates) && state.skip == old(state.skip)
    {
      var names := spool.TakeQuarantined();
      var i := 0;
      assert names[0..] == names;
      while i < |names|
        invariant 0 <= i <= |names| && spool.Valid() && spool.quarantined == []
        invariant AllKept(p, g, state) && g.w == Look().(unread := names[i..])
        invariant state.carried == [] && SameRun(old(g), g) && g.h.fates == old(g.h.fates) && Calmly(old(g), g)
        invariant state == old(state).(events := state.events, counts := state.counts)
      {
        var n := Event(state, now, BatchQuarantined(Some(names[i]), Unreadable));
        TellOk(p, g, state);
        assert names[i..][1..] == names[i + 1..];
        state, g := Note(state, n), TellBook(g, n);
        i := i + 1;
      }
      if state.beyond != multiset{} {
        var n := Event(state, now, RowsBeyondRetention(state.beyond));
        var next := Note(state, n).(beyond := multiset{});
        BeyondOk(p, g, state, next);
        state, g := next, BeyondBook(g, n);
      }
    }

    /** Writes `records`, or spools them while the database is unreachable, and returns the
        events this makes; raises only if the server refuses `records` themselves. */
    method Submit(records: seq<Record>, now: int) returns (r: Submitted)
      requires Valid()
      modifies this`state, this`g, this`ticks, spool, db
      ensures Valid() && g.h.batches == old(g.h.batches) + [records] && g.now == now
      ensures EventsMove(old(g), old(state.carried), g, state.carried, r.Raised?,
              if r.Raised? then state.carried else r.events)
      // How it went, and that it did with the outage what its writes called for.
      ensures |g.turns| == |old(g.turns)| + 1 && g.turns[..|old(g.turns)|] == old(g.turns)
      ensures OutageMoves(p, old(g), g, g.turns[|g.turns| - 1].how, old(state.retry), state.retry)
      // Until the time of the next attempt it makes no call.
      ensures var how := g.turns[|g.turns| - 1].how;
              && (how.Waits? <==> old(state.retry).Some? && now < old(state.retry).value)
              && (how.Waits? ==> db.log == old(db.log) && db.db == old(db.db))
              && (how.RunsOut? ==> OverBudget(clock, old(ticks), ticks, replayBudget))
              // A drained spool holds nothing replay can still reach, and the batch has been written.
              && (how.Drains? ==> AllIdle(spool.files, state.skip + spool.stuck))
              && (if how.Drains?
                  then FreshTold(old(g.h.tries), g.h.tries, records, FateOf(g.h, |old(g.h.batches)|), r.Raised?)
                  else r.Returned?)
    {
      ghost var id := Begin(records, now);
      ghost var begun := g;
      var raised := false; ghost var how := Waits;
      if state.retry.Some? && now < state.retry.value {
        Store(records, now, id);
        WaitMoves(p, begun, g, state.retry);
      } else {
        raised, how := Attempt(records, now, id);
      }
      ghost var tried := g;
      FinishEvents(now);
      MovesOn(p, begun, tried, g, how, old(state.retry), state.retry);
      MovesFrom(p, old(g), begun, g, how, old(state.retry), state.retry);
      r := Close(raised, old(g), old(state), how);
    }

    /** A new submission, with the events the last one left. */
    method Begin(records: seq<Record>, now: int) returns (ghost id: nat)
      requires Valid()
      modifies this`state, this`g
      ensures Ready() && state.carried == [] && g.now == now && id == |old(g.h.batches)| && Unsettled(g.h, id)
      ensures g.h.batches == old(g.h.batches) + [records] && g.inherited == old(state.carried)
      ensures g.h.returned == old(g.h.returned) && g.turns == old(g.turns) && Calmly(old(g), g)
      ensures state.retry == old(state.retry)
    {
      id := |g.h.batches|;
      TablesExtend(p, db.cfg, start, g, state, records);
      BeginOk(p, g, state, records, now);
      state, g := BeginState(state), BeginBook(g, state, records, now);
    }

    /** The events are returned, or carried to the next submit if this one raises. */
    method Close(raised: bool, ghost first: Books, ghost was: State, ghost how: How) returns (r: Submitted)
      requires Ready() && Settled(g.h) && state.carried == [] && spool.quarantined == [] && state.beyond == multiset{}
      requires EventsKept(first, was) && was.events == [] && g.inherited == was.carried
               && g.h.returned == first.h.returned
      requires Logged() && TurnsKept(p, first) && g.turns == first.turns
      requires OutageMoves(p, first, g, how, was.retry, state.retry)
      modifies this`state, this`g
      ensures Valid() && r.Raised? == raised && g.now == old(g.now)
      ensures g.turns == old(g.turns) + [TurnOf(first, old(g), how)]
      ensures g.h == old(g.h).(returned := g.h.returned) && g.w == old(g.w) && state.retry == old(state.retry)
              && state.skip == old(state.skip)
      ensures EventsMove(first, was.carried, g, state.carried, r.Raised?, if r.Raised? then state.carried else r.events)
    {
      CloseOk(p, g, state, raised, TurnOf(first, g, how));
      EventsMoveOk(first, was, g, state, raised, TurnOf(first, g, how));
      r := if raised then Raised else Returned(state.events);
      ghost var turn := TurnOf(first, g, how);
      state, g := CloseState(state, raised), CloseBook(g, state, raised, turn);
      TurnsSnoc(p, first, g, turn, was.retry, state.retry);
    }
  }
}
