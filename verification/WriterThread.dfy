/**
  The one thread that writes: it drains the record queue into the buffered writer in rounds,
  durable records and events first, live state apart (node_monitor/collector/writer_thread.py).

  Producers run beside it.  Wherever they can interfere the thread's methods call `Others`,
  which puts any batches and may close the queue.
 */
module WriterThreads {
  import opened Codec
  import opened Records
  import opened RecordQueues
  import opened Coalescing
  import opened Spooling
  import opened Delivery
  import opened BufferedSteps
  import opened BufferedState
  import opened Writer
  import opened DatabaseWriter
  import opened Buffered
  import opened Sealing

  /** Rounds spent, after shutdown, on the events the last submits produced. */
  const FINAL_ROUNDS := 3

  ghost predicate AllEvents(rs: seq<Record>) { forall i :: 0 <= i < |rs| ==> rs[i].kind == CollectionEvent }

  function Rendered(ns: seq<Notice>, record: Notice -> Record): seq<Record> {
    if ns == [] then [] else Rendered(ns[..|ns| - 1], record) + [record(ns[|ns| - 1])]
  }

  lemma {:induction false} RenderedEvents(ns: seq<Notice>, record: Notice -> Record)
    requires forall n :: record(n).kind == CollectionEvent
    ensures AllEvents(Rendered(ns, record))
  {
    if ns != [] {
      RenderedEvents(ns[..|ns| - 1], record);
    }
  }

  function TypeName(t: Type): string {
    match t
    case UnavailableType => "database_unavailable"
    case RecoveredType => "database_recovered"
    case DroppedType => "spool_dropped"
    case WriteFailedType => "spool_write_failed"
    case QuarantinedType => "spool_batch_quarantined"
    case BeyondType => "rows_beyond_retention"
  }

  lemma {:induction false} TypeNamesDiffer(t: Type, u: Type)
    requires t != u
    ensures TypeName(t) != TypeName(u)
  {
    assert |TypeName(t)| != |TypeName(u)| || TypeName(t)[0] != TypeName(u)[0];
  }

  /** A notice as the collection_event record that is passed to the next submit. */
  function EventRecord(system: string, detail: What -> Value, n: Notice): Record {
    Record(CollectionEvent, map["system" := Str(system), "node" := Null, "ts" := Time(Aware(n.ts)),
                                "event_type" := Str(TypeName(TypeOf(n.what))), "detail" := detail(n.what)])
  }

  /** The events one submit makes never meet on collection_events' natural key, which would
      silently keep only the first. */
  lemma {:induction false} EventsKeepApart(system: string, detail: What -> Value, ns: seq<Notice>, now: int, i: nat,
        j: nat)
    requires Stamped(ns, now) && i < j < |ns|
    ensures EventStmt(EventRecord(system, detail, ns[i]).row).key
            != EventStmt(EventRecord(system, detail, ns[j]).row).key
  {
    var t, u := TypeOf(ns[i].what), TypeOf(ns[j].what);
    if t == u {
      StampsDiffer(ns, now, i, j);
      assert Micros(At(EventRecord(system, detail, ns[i]).row, "ts")) == ns[i].ts;
      assert Micros(At(EventRecord(system, detail, ns[j]).row, "ts")) == ns[j].ts;
    } else {
      TypeNamesDiffer(t, u);
      assert Text(At(EventRecord(system, detail, ns[i]).row, "event_type")) == TypeName(t);
      assert Text(At(EventRecord(system, detail, ns[j]).row, "event_type")) == TypeName(u);
    }
  }

  /** No batch mixes live state with durable records. */
  ghost predicate Unmixed(batches: seq<seq<Record>>) {
    forall i :: 0 <= i < |batches| ==> AllLive(batches[i]) || NoneLive(batches[i])
  }

  /** An empty batch is not submitted. */
  function Nonempty(rs: seq<Record>): seq<seq<Record>> { if rs == [] then [] else [rs] }

  // --- what the thread has passed on -----------------------------------------------------------

  /** One round: the records taken from the queue and the events carried into it. */
  datatype Pass = Pass(window: seq<Record>, carried: seq<Record>)

  /** The batches the rounds make, in the order they are submitted. */
  function Submissions(passes: seq<Pass>): seq<seq<Record>> {
    if passes == [] then []
    else
      var p := passes[|passes| - 1];
      Submissions(passes[..|passes| - 1]) + BatchesOf(p)
  }

  function TakenBy(passes: seq<Pass>): seq<Record> {
    if passes == [] then [] else TakenBy(passes[..|passes| - 1]) + passes[|passes| - 1].window
  }

  function CarriedBy(passes: seq<Pass>): seq<Record> {
    if passes == [] then [] else CarriedBy(passes[..|passes| - 1]) + passes[|passes| - 1].carried
  }

  ghost predicate EventsCarried(passes: seq<Pass>) {
    forall i :: 0 <= i < |passes| ==> AllEvents(passes[i].carried)
  }

  lemma {:induction false} PassSnoc(passes: seq<Pass>, p: Pass)
    ensures Submissions(passes + [p]) == Submissions(passes) + BatchesOf(p)
    ensures TakenBy(passes + [p]) == TakenBy(passes) + p.window
    ensures CarriedBy(passes + [p]) == CarriedBy(passes) + p.carried
  {
    assert (passes + [p])[..|passes|] == passes;
  }

  /** The durable records of a list of batches, events aside. */
  function DurableIn(batches: seq<seq<Record>>): seq<Record> {
    if batches == [] then [] else DurableIn(batches[..|batches| - 1]) + DurableOf(batches[|batches| - 1])
  }

  lemma {:induction false} DurableInAppend(xs: seq<seq<Record>>, ys: seq<seq<Record>>)
    ensures DurableIn(xs + ys) == DurableIn(xs) + DurableIn(ys)
  {
    if ys == [] {
      assert xs + ys == xs;
    } else {
      assert (xs + ys)[..|xs + ys| - 1] == xs + ys[..|ys| - 1];
      DurableInAppend(xs, ys[..|ys| - 1]);
    }
  }

  lemma {:induction false} DurableInStep(xs: seq<seq<Record>>, ys: seq<seq<Record>>, a: seq<Record>, b: seq<Record>)
    requires DurableIn(xs) == a && DurableIn(ys) == b
    ensures DurableIn(xs + ys) == a + b
  {
    DurableInAppend(xs, ys);
  }

  lemma {:induction false} DurableInOne(rs: seq<Record>)
    ensures DurableIn(Nonempty(rs)) == DurableOf(rs)
  {
    if rs != [] {
      assert [rs][..0] == [];
    }
  }

  lemma {:induction false} LiveHasNoDurable(rs: seq<Record>)
    requires AllLive(rs)
    ensures DurableOf(rs) == []
  {
    if rs != [] {
      LiveHasNoDurable(rs[..|rs| - 1]);
    }
  }

  lemma {:induction false} DurableTwice(rs: seq<Record>)
    requires NoneLive(rs)
    ensures DurableOf(rs) == rs
  {
    if rs != [] {
      DurableTwice(rs[..|rs| - 1]);
    }
  }

  /** The durable records put, with the events of each round before them: what the submitted
      batches hold of durable records, each once and in put order. */
  function Interleaved(passes: seq<Pass>): seq<Record> {
    if passes == [] then []
    else
      var p := passes[|passes| - 1];
      Interleaved(passes[..|passes| - 1]) + (p.carried + DurableOf(p.window))
  }

  /** The same without the events. */
  function PutDurable(passes: seq<Pass>): seq<Record> {
    if passes == [] then [] else PutDurable(passes[..|passes| - 1]) + DurableOf(passes[|passes| - 1].window)
  }

  lemma {:induction false} PutDurableIs(passes: seq<Pass>)
    ensures PutDurable(passes) == DurableOf(TakenBy(passes))
  {
    if passes != [] {
      var init, p := passes[..|passes| - 1], passes[|passes| - 1];
      PutDurableIs(init);
      DurableAppend(TakenBy(init), p.window);
    }
  }

  /** A round's two batches. */
  function BatchesOf(p: Pass): seq<seq<Record>> { Nonempty(p.carried + DurableOf(p.window))
        + Nonempty(LiveOf(p.window)) }

  lemma {:induction false} PassDurable(p: Pass)
    requires AllEvents(p.carried)
    ensures DurableIn(BatchesOf(p)) == p.carried + DurableOf(p.window)
  {
    var first, live := p.carried + DurableOf(p.window), LiveOf(p.window);
    DurableInAppend(Nonempty(first), Nonempty(live));
    DurableInOne(first);
    DurableInOne(live);
    DurableNotLive(p.window);
    DurableTwice(first);
    TakenLive(p.window);
    LiveHasNoDurable(live);
  }

  lemma {:induction false} SubmittedDurable(passes: seq<Pass>)
    requires EventsCarried(passes)
    ensures DurableIn(Submissions(passes)) == Interleaved(passes)
  {
    if passes != [] {
      var init, p := passes[..|passes| - 1], passes[|passes| - 1];
      SubmittedDurable(init);
      PassDurable(p);
      DurableInStep(Submissions(init), BatchesOf(p), Interleaved(init), p.carried + DurableOf(p.window));
    }
  }

  lemma {:induction false} SubmissionsUnmixed(passes: seq<Pass>)
    requires EventsCarried(passes)
    ensures Unmixed(Submissions(passes))
  {
    if passes != [] {
      SubmissionsUnmixed(passes[..|passes| - 1]);
      PassUnmixed(passes[|passes| - 1]);
      UnmixedAppend(Submissions(passes[..|passes| - 1]), BatchesOf(passes[|passes| - 1]));
    }
  }

  lemma {:induction false} UnmixedAppend(xs: seq<seq<Record>>, ys: seq<seq<Record>>)
    requires Unmixed(xs) && Unmixed(ys)
    ensures Unmixed(xs + ys)
  {
  }

  lemma {:induction false} PassUnmixed(p: Pass)
    requires AllEvents(p.carried)
    ensures Unmixed(BatchesOf(p))
  {
    DurableNotLive(p.window);
    TakenLive(p.window);
  }

  /** Every notice the writer has returned since the thread began is an event passed on or held. */
  ghost predicate Reported(returned: seq<Notice>, since: nat, record: Notice -> Record, events: seq<Record>) {
    forall i :: since <= i < |returned| ==> record(returned[i]) in events
  }

  /** What has been submitted is exactly what the rounds say, and every event the writer returned
      has been submitted again or is held for the next round. */
  ghost predicate PassedOn(h: History, before: seq<seq<Record>>, since: nat, record: Notice -> Record,
        passes: seq<Pass>, carried: seq<Record>) {
    forall k :: Opens(k, Telling) ==>
      && AllEvents(carried) && EventsCarried(passes) && h.batches == before + Submissions(passes)
      && since <= |h.returned| && Reported(h.returned, since, record, CarriedBy(passes) + carried)
  }

  lemma {:induction false} PassOn(h: History, before: seq<seq<Record>>, since: nat, record: Notice -> Record,
        passes: seq<Pass>, carried: seq<Record>, h': History, window: seq<Record>, news: seq<Notice>,
        next: seq<Record>)
    requires PassedOn(h, before, since, record, passes, carried) && AllEvents(next)
    requires h'.batches == h.batches + BatchesOf(Pass(window, carried)) && h'.returned == h.returned + news
    requires forall r :: r in Rendered(news, record) ==> r in next
    ensures PassedOn(h', before, since, record, passes + [Pass(window, carried)], next)
  {
    assert Opens(Telling, Telling);
    var p := Pass(window, carried);
    PassSnoc(passes, p);
    assert before + Submissions(passes + [p]) == (before + Submissions(passes)) + BatchesOf(p);
    ReportedMore(h.returned, since, record, CarriedBy(passes) + carried, news, CarriedBy(passes) + carried + next);
  }

  lemma {:induction false} RenderedHas(ns: seq<Notice>, record: Notice -> Record, i: nat)
    requires i < |ns|
    ensures record(ns[i]) in Rendered(ns, record)
  {
    if i < |ns| - 1 {
      RenderedHas(ns[..|ns| - 1], record, i);
    }
  }

  lemma {:induction false} ReportedMore(returned: seq<Notice>, since: nat, record: Notice -> Record,
        events: seq<Record>, news: seq<Notice>, more: seq<Record>)
    requires since <= |returned| && Reported(returned, since, record, events)
    requires forall r :: r in events || r in Rendered(news, record) ==> r in more
    ensures Reported(returned + news, since, record, more)
  {
    forall i | since <= i < |returned + news| ensures record((returned + news)[i]) in more {
      if i >= |returned| {
        RenderedHas(news, record, i - |returned|);
      }
    }
  }

  lemma {:induction false} RenderedAppend(xs: seq<Notice>, ys: seq<Notice>, record: Notice -> Record)
    ensures Rendered(xs + ys, record) == Rendered(xs, record) + Rendered(ys, record)
  {
    if ys == [] {
      assert xs + ys == xs;
    } else {
      assert (xs + ys)[..|xs + ys| - 1] == xs + ys[..|ys| - 1];
      RenderedAppend(xs, ys[..|ys| - 1], record);
    }
  }

  lemma {:induction false} TakenLive(rs: seq<Record>)
    ensures AllLive(ProcessesOf(rs)) && AllLive(NodesOf(rs)) && AllLive(LiveOf(rs))
  {
    if rs != [] {
      var init, r := rs[..|rs| - 1], rs[|rs| - 1];
      TakenLive(init);
      if r.kind == LiveProcesses { EnteredLive(ProcessesOf(init), r, false); }
      if r.kind == LiveNode { EnteredLive(NodesOf(init), r, true); }
    }
  }

  lemma {:induction false} EnteredLive(d: seq<Record>, r: Record, merge: bool)
    requires AllLive(d) && IsLive(r)
    ensures AllLive(Entered(d, r, merge))
  {
    if d != [] {
      EnteredLive(d[1..], r, merge);
    }
  }

  /** What a queue holds or held: every record accepted, in put order. */
  ghost function Accepted(q: RecordQueue): seq<Record>
    reads q
  {
    q.taken + q.window
  }

  /** Any number of puts and closes by other threads. */
  method Others(q: RecordQueue)
    requires q.Valid()
    modifies q
    ensures q.Valid() && q.taken == old(q.taken)
    ensures old(Accepted(q)) <= Accepted(q)
    ensures old(q.closed) ==> q.closed && q.window == old(q.window)
  {
    var n: int := *;
    while n > 0
      invariant q.Valid() && q.taken == old(q.taken)
      invariant old(Accepted(q)) <= Accepted(q)
      invariant old(q.closed) ==> q.closed && q.window == old(q.window)
    {
      var closing: bool := *;
      if closing {
        q.Close();
      } else {
        var rs: seq<Record> := *;
        if forall r | r in rs :: IsLive(r) ==> "node" in r.row {
          var accepted := q.Put(rs);
        }
      }
      n := n - 1;
    }
  }

  class WriterThread {
    const queue: RecordQueue
    const buffered: BufferedWriter
    /** The collection_event record of a notice. */
    const record: Notice -> Record
    var carried: seq<Record>
    /** The rounds so far, and what the writer had been given and had returned before them. */
    ghost var passes: seq<Pass>
    ghost const before: seq<seq<Record>>
    ghost const since: nat

    /** What has been submitted is exactly what the rounds say, and every event the writer
        returned has been submitted again or is held for the next round. */
    ghost predicate Ready()
      reads this, queue, buffered, buffered.spool, buffered.db
    {
      && queue.Valid() && buffered.Valid() && (forall n :: record(n).kind == CollectionEvent)
      && PassedOn(buffered.g.h, before, since, record, passes, carried)
    }

    /** Between rounds: the rounds hold everything taken from the queue, in put order. */
    ghost predicate Valid()
      reads this, queue, buffered, buffered.spool, buffered.db
    {
      Ready() && TakenBy(passes) == queue.taken
    }

    constructor (queue: RecordQueue, buffered: BufferedWriter, record: Notice -> Record)
      requires queue.Valid() && queue.taken == [] && buffered.Valid()
      requires forall n :: record(n).kind == CollectionEvent
      ensures Valid() && this.queue == queue && this.buffered == buffered && carried == [] && passes == []
      ensures before == buffered.g.h.batches && since == |buffered.g.h.returned|
    {
      this.queue, this.buffered, this.record := queue, buffered, record;
      carried, passes, before, since := [], [], buffered.g.h.batches, |buffered.g.h.returned|;
    }

    /** One batch, at the clock's time.  If the writer raises it carries its own events. */
    method Submit(records: seq<Record>) returns (events: seq<Record>, ghost news: seq<Notice>)
      requires buffered.Valid() && forall n :: record(n).kind == CollectionEvent
      modifies buffered`state, buffered`g, buffered`ticks, buffered.spool, buffered.db
      ensures buffered.Valid() && AllEvents(events) && events == Rendered(news, record)
      ensures buffered.g.h.batches == old(buffered.g.h.batches) + [records]
      ensures buffered.g.h.returned == old(buffered.g.h.returned) + news
    {
      var clock: int := *;
      var r := buffered.Submit(records, clock);
      if r.Raised? {
        return [], [];
      }
      RenderedEvents(r.events, record);
      return Rendered(r.events, record), r.events;
    }

    method SubmitBoth(first: seq<Record>, live: seq<Record>) returns (events: seq<Record>, ghost news: seq<Notice>)
      requires buffered.Valid() && forall n :: record(n).kind == CollectionEvent
      modifies buffered`state, buffered`g, buffered`ticks, buffered.spool, buffered.db
      ensures buffered.Valid() && AllEvents(events) && events == Rendered(news, record)
      ensures buffered.g.h.batches == old(buffered.g.h.batches) + (Nonempty(first) + Nonempty(live))
      ensures buffered.g.h.returned == old(buffered.g.h.returned) + news
    {
      events, news := SubmitSome(first);
      var more; ghost var others;
      more, others := SubmitSome(live);
      RenderedAppend(news, others, record);
      events, news := events + more, news + others;
    }

    method SubmitSome(records: seq<Record>) returns (events: seq<Record>, ghost news: seq<Notice>)
      requires buffered.Valid() && forall n :: record(n).kind == CollectionEvent
      modifies buffered`state, buffered`g, buffered`ticks, buffered.spool, buffered.db
      ensures buffered.Valid() && AllEvents(events) && events == Rendered(news, record)
      ensures buffered.g.h.batches == old(buffered.g.h.batches) + Nonempty(records)
      ensures buffered.g.h.returned == old(buffered.g.h.returned) + news
    {
      events, news := [], [];
      if records != [] {
        events, news := Submit(records);
      }
    }

    /** Upkeep's events; it never raises. */
    method Upkeep(tick: bool) returns (extra: seq<Record>)
      ensures AllEvents(extra)
    {
      extra := [];
      if tick {
        var events: seq<Record> := *;
        if forall i | 0 <= i < |events| :: events[i].kind == CollectionEvent {
          extra := events;
        }
      }
    }

    /** Events and durable records first, live state as a batch of its own. */
    method Round(durable: seq<Record>, live: seq<Record>, tick: bool, ghost window: seq<Record>)
      requires Ready() && durable == DurableOf(window) && live == LiveOf(window)
               && TakenBy(passes) + window == queue.taken
      modifies this`carried, this`passes, buffered`state, buffered`g, buffered`ticks, buffered.spool, buffered.db
      ensures Valid() && passes == old(passes) + [Pass(window, old(carried))]
    {
      ghost var h := buffered.g.h;
      var next; ghost var news;
      next, news := SubmitBoth(carried + durable, live);
      var extra := Upkeep(tick);
      next := next + extra;
      PassOn(h, before, since, record, passes, carried, buffered.g.h, window, news, next);
      PassSnoc(passes, Pass(window, carried));
      passes := passes + [Pass(window, carried)];
      carried := next;
    }

    /** One turn of the main loop; false once the queue is closed and empty. */
    method Turn() returns (again: bool)
      requires Valid()
      modifies this`carried, this`passes, queue, buffered`state, buffered`g, buffered`ticks, buffered.spool, buffered.db
      ensures Valid() && old(passes) <= passes
      ensures old(Accepted(queue)) <= Accepted(queue)
      ensures !again ==> queue.closed && queue.window == []
    {
      var durable, live; ghost var window;
      durable, live, window := TakeOver();
      Round(durable, live, true, window);
      again := MoreToCome();
    }

    method TakeOver() returns (durable: seq<Record>, live: seq<Record>, ghost window: seq<Record>)
      requires queue.Valid()
      modifies queue
      ensures queue.Valid() && durable == DurableOf(window) && live == LiveOf(window)
      ensures queue.taken == old(queue.taken) + window && old(Accepted(queue)) <= Accepted(queue)
    {
      Others(queue);
      window := queue.window;
      durable, live := queue.Take();
      Others(queue);
    }

    method MoreToCome() returns (again: bool)
      requires queue.Valid()
      modifies queue
      ensures queue.Valid() && queue.taken == old(queue.taken) && old(Accepted(queue)) <= Accepted(queue)
      ensures !again ==> queue.closed && queue.window == []
    {
      Others(queue);
      var closed := queue.closed;
      Others(queue);
      if !closed {
        return true;
      }
      var depth := queue.Depth();
      again := depth != 0;
    }

    /** A few more rounds for the last events, each of which is made. */
    method Drain() returns (rounds: nat)
      requires Valid()
      modifies this`carried, this`passes, buffered`state, buffered`g, buffered`ticks, buffered.spool, buffered.db
      ensures Valid() && old(passes) <= passes && |passes| == |old(passes)| + rounds
      ensures rounds <= FINAL_ROUNDS && (carried == [] || rounds == FINAL_ROUNDS)
    {
      rounds := 0;
      while rounds < FINAL_ROUNDS && carried != []
        invariant Valid() && old(passes) <= passes && |passes| == |old(passes)| + rounds && rounds <= FINAL_ROUNDS
      {
        assert TakenBy(passes) + [] == TakenBy(passes);
        Round([], [], false, []);
        rounds := rounds + 1;
      }
    }

    /**
      The thread's run, cut off after any number of turns of its main loop.  At all times the
      batches submitted are the rounds' (`Valid`); if the thread exits, the queue is closed and
      the rounds hold every record ever accepted, so each durable one has been submitted exactly
      once, in put order (`HandedOver`).
     */
    method Run(turns: nat) returns (exited: bool)
      requires Valid()
      modifies this`carried, this`passes, queue, buffered`state, buffered`g, buffered`ticks, buffered.spool, buffered.db
      ensures Valid() && old(passes) <= passes
      ensures old(Accepted(queue)) <= Accepted(queue)
      ensures exited ==> queue.closed && queue.window == [] && TakenBy(passes) == Accepted(queue)
    {
      var again := true;
      var i := 0;
      while i < turns && again
        invariant Valid() && old(passes) <= passes
        invariant old(Accepted(queue)) <= Accepted(queue)
        invariant !again ==> queue.closed && queue.window == []
        decreases turns - i
      {
        again := Turn();
        i := i + 1;
      }
      if again {
        return false;
      }
      var rounds := Drain();
      assert Accepted(queue) == queue.taken;
      return true;
    }

    /** What was submitted since the thread began holds the durable records taken from the queue,
        each once and in put order, with each round's events before its records; no batch mixes
        them with live state. */
    lemma {:induction false} HandedOver()
      requires Valid()
      ensures buffered.g.h.batches == before + Submissions(passes) && Unmixed(Submissions(passes))
      ensures DurableIn(Submissions(passes)) == Interleaved(passes) && PutDurable(passes) == DurableOf(queue.taken)
    {
      assert Opens(Telling, Telling);
      SubmissionsUnmixed(passes);
      SubmittedDurable(passes);
      PutDurableIs(passes);
    }
  }
}
