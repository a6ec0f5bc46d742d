/** The buffered writer's state and books as values, and what each of its operations does to them. */
module BufferedState {
  import opened Upsert
  import opened Records
  import opened Writer
  import opened WriterTheorems
  import opened Spooling
  import opened Attempts
  import opened Delivery
  import opened Sealing
  import opened DeliverySteps
  import opened BufferedSteps

  /** The attributes of a BufferedWriter. `events` and `beyond` belong to the submit in progress. */
  datatype State = State(
    failures: map<Name, nat>,
    connected: bool,
    since: Option<int>,
    retry: Option<int>,
    delay: int,
    batches: nat, records: nat, superseded: nat,
    counts: multiset<Type>,
    carried: seq<Notice>,
    skip: set<Name>,
    events: seq<Notice>,
    beyond: multiset<Table>)

  function View(s: State, files: seq<File>, corrupt: seq<File>, unread: seq<Name>, stuck: set<Name>, number: nat,
        stamp: int, db: Db): World {
    World(files, corrupt, unread, stuck, number, stamp, s.skip, s.failures, s.since, s.retry, s.delay,
          s.batches, s.records, s.superseded, s.beyond, db)
  }

  /** How a submit went: it had to wait, an attempt failed, replay ran out of time, or the spool was
      drained and the batch, if there was one, written or refused. */
  datatype How = Waits | Fails | RunsOut | Drains

  /** A submit: how it went, the writes it tried, and the batches superseded by then. */
  datatype Turn = Turn(how: How, tries: seq<Try>, superseded: nat)

  /** The books: history, the state it is about, the events the submit in progress made itself
      and those it inherited, its time, and the submits before it. */
  datatype Books = Books(h: History, w: World, own: seq<Notice>, inherited: seq<Notice>, now: int, turns: seq<Turn>)

  /** Every event is returned, carried or in the list of the submit in progress, in order. */
  ghost predicate EventsKept(g: Books, s: State) {
    forall k :: Opens(k, Telling) ==>
      && g.h.log == g.h.returned + s.carried + s.events
      && s.events == g.inherited + g.own
      && Stamped(g.own, g.now) && s.counts == Types(g.own)
  }

  ghost predicate AllKept(p: Params, g: Books, s: State) {
    BooksKept(p, g.h, g.w) && EventsKept(g, s)
  }

  /** The parameters stand for the writer's tables and retention. */
  ghost predicate Means(p: Params, cfg: Config, start: Db) {
    forall k :: Opens(k, Meaning) ==>
      && (forall batches, commits :: p.tables(batches, commits) == Replay(cfg, start, batches, commits))
      && (forall rs, now :: p.lost(rs, now) == Beyond(cfg, rs, now))
  }

  lemma {:induction false} LossMeans(p: Params, cfg: Config, start: Db, rs: seq<Record>, now: int)
    requires Means(p, cfg, start)
    ensures p.lost(rs, now) == Beyond(cfg, rs, now)
  {
    assert Opens(Meaning, Meaning);
  }

  /** Books of the same submit. */
  ghost predicate SameRun(g: Books, g': Books) {
    && g'.inherited == g.inherited && g'.now == g.now && g'.turns == g.turns
    && g'.h.returned == g.h.returned && g'.h.batches == g.h.batches
  }

  /** No write was tried, and the outage and what was superseded stand where they stood. */
  ghost predicate Calmly(g: Books, g': Books) {
    g'.h.tries == g.h.tries && g'.h.phase == g.h.phase && g'.h.batchesSuperseded == g.h.batchesSuperseded
  }

  // --- events -------------------------------------------------------------------------------

  /** The i-th event of a type is stamped i microseconds after the submit's time. */
  function Event(s: State, now: int, what: What): Notice {
    Notice(now + s.counts[TypeOf(what)], what)
  }

  function Note(s: State, n: Notice): State {
    s.(counts := s.counts + multiset{TypeOf(n.what)}, events := s.events + [n])
  }

  lemma {:induction false} NoteKeeps(g: Books, s: State, what: What, g': Books, s': State)
    requires EventsKept(g, s) && s.carried == []
    requires var n := Event(s, g.now, what);
             g'.h.log == g.h.log + [n] && g'.own == g.own + [n] && s'.events == s.events + [n]
             && s'.counts == s.counts + multiset{TypeOf(what)}
    requires g'.h.returned == g.h.returned && g'.inherited == g.inherited && g'.now == g.now && s'.carried == []
    ensures EventsKept(g', s')
  {
    assert Opens(Telling, Telling);
    StampedSnoc(g.own, Event(s, g.now, what), g.now);
  }

  lemma {:induction false} SameEvents(g: Books, s: State, g': Books, s': State)
    requires EventsKept(g, s)
    requires g'.h.log == g.h.log && g'.h.returned == g.h.returned && g'.own == g.own && g'.inherited == g.inherited
             && g'.now == g.now
    requires s'.carried == s.carried && s'.events == s.events && s'.counts == s.counts
    ensures EventsKept(g', s')
  {
    assert Opens(Telling, Telling);
  }

  // --- dealing with one file -----------------------------------------------------------------

  function Retired(s: State, f: File, gone: bool): State {
    s.(failures := s.failures - {f.name}, skip := if gone then s.skip else s.skip + {f.name})
  }

  function RetiredWorld(w: World, f: File, gone: bool): World {
    if gone then Gone(w, f) else Aside(w, f)
  }

  /** No submission has been newly dropped as superseded. */
  ghost predicate NoDrops(h: History, h': History) {
    forall i :: 0 <= i < |h'.fates| && h'.fates[i] == Superseded ==> i < |h.fates| && h.fates[i] == Superseded
  }

  /** Only the file's own submission has a new fate, if any. */
  lemma {:induction false} FateMoves(h: History, h': History, f: File, x: Fate)
    requires Settleable(h, f) && h'.batches == h.batches && h'.origin == h.origin && h'.phase == h.phase
    requires h'.fates == h.fates[h.origin[f.name] := x] && x != Pending
    ensures OnlyFate(h, h', f) && (x != Superseded ==> NoDrops(h, h'))
  {
  }

  lemma {:induction false} FateStays(h: History, h': History, f: File)
    requires Settleable(h, f) && h'.batches == h.batches && h'.origin == h.origin && h'.phase == h.phase
    requires h'.fates == h.fates && h.fates[h.origin[f.name]] != Pending
    ensures OnlyFate(h, h', f) && NoDrops(h, h')
  {
  }

  lemma {:induction false} SupersededStep(p: Params, g: Books, f: File) returns (h: History, w: World)
    requires BooksKept(p, g.h, g.w) && Waiting(g.w, f) && AllLive(f.records)
    ensures BooksKept(p, h, w) && DoneWith(g.h, g.w, h, w, f) && w == Gone(g.w, f).(superseded := g.w.superseded + 1)
    ensures h == g.h.(fates := h.fates, batchesSuperseded := h.batchesSuperseded)
  {
    FileSettleable(p, g.h, g.w, f);
    SupersededGone(p, g.h, g.w, f);
    h, w := Supersede(g.h, f), Gone(g.w, f).(superseded := g.w.superseded + 1);
    FateMoves(g.h, h, f, Superseded);
    DoneRetired(p, g.h, g.w, h, w, f, true);
  }

  lemma {:induction false} SetAsideStep(p: Params, g: Books, f: File)
    requires BooksKept(p, g.h, g.w) && Waiting(g.w, f)
    ensures BooksKept(p, g.h, Aside(g.w, f)) && DoneWith(g.h, g.w, g.h, Aside(g.w, f), f)
  {
    FileSettleable(p, g.h, g.w, f);
    AsideStep(p, g.h, g.w, f);
    FateStays(g.h, g.h, f);
    DoneRetired(p, g.h, g.w, g.h, Aside(g.w, f), f, false);
  }

  /** A superseded file, deleted and counted, or set aside if it could not be. */
  lemma {:induction false} SupersedeStep(p: Params, g: Books, s: State, f: File, gone: bool, s': State)
        returns (g': Books)
    requires AllKept(p, g, s) && Waiting(g.w, f) && AllLive(f.records)
    requires s'.carried == s.carried && s'.events == s.events && s'.counts == s.counts
    ensures AllKept(p, g', s') && DoneWith(g.h, g.w, g'.h, g'.w, f) && SameRun(g, g') && g'.h.commits == g.h.commits
    ensures g'.h.tries == g.h.tries
    ensures g'.w == RetiredWorld(g.w, f, gone).(superseded := if gone then g.w.superseded + 1 else g.w.superseded)
  {
    if gone {
      var h, w := SupersededStep(p, g, f);
      g' := g.(h := h, w := w);
    } else {
      SetAsideStep(p, g, f);
      g' := g.(w := Aside(g.w, f));
    }
    SameEvents(g, s, g', s');
  }

  /** What a write must have come to for its file to be given up for this cause. */
  ghost predicate Condemns(t: Try, f: File, cause: Cause, failures: map<Name, nat>, max: int) {
    t.file == Some(f.name) && t.records == f.records &&
    match cause
    case Refused => t.outcome.Rejected?
    case Repeated(attempts) => Blames(t, f.name) && attempts == Tries(failures, f.name) + 1 >= max
    case _ => false
  }

  lemma {:induction false} TriedOk(p: Params, g: Books, s: State, t: Try)
    requires AllKept(p, g, s) && Neutral(t)
    ensures AllKept(p, TryBooks(g, t), s)
  {
    TryStep(p, g.h, g.w, t);
    SameEvents(g, s, TryBooks(g, t), s);
  }

  function TryBooks(g: Books, t: Try): Books { g.(h := Tried(g.h, t)) }

  lemma {:induction false} QuarantineStep(p: Params, g: Books, s: State, f: File, cause: Cause, t: Try, moved: bool,
        s': State) returns (g': Books)
    requires AllKept(p, g, s) && Waiting(g.w, f) && s.carried == [] && Condemns(t, f, cause, g.w.failures, p.max)
    requires var n := Event(s, g.now, BatchQuarantined(Some(f.name), cause));
             s'.events == s.events + [n] && s'.counts == s.counts + multiset{QuarantinedType} && s'.carried == []
    ensures AllKept(p, g', s') && DoneWith(g.h, g.w, g'.h, g'.w, f) && SameRun(g, g') && g'.h.commits == g.h.commits
    ensures g'.h.log == g.h.log + [Event(s, g.now, BatchQuarantined(Some(f.name), cause))] && NoDrops(g.h, g'.h)
    ensures g'.h.tries == g.h.tries + [t]
    ensures g'.w == RetiredWorld(g.w, f, moved).(corrupt := if moved then g.w.corrupt + [f] else g.w.corrupt)
  {
    var what := BatchQuarantined(Some(f.name), cause);
    var n := Event(s, g.now, what);
    var v := RetiredWorld(g.w, f, moved);
    var w' := if moved then v.(corrupt := v.corrupt + [f]) else v;
    FileSettleable(p, g.h, g.w, f);
    if cause == Refused {
      TryStep(p, g.h, g.w, t);
      RefusedStays(g.h.tries, t, f.records);
      RefusedStep(p, Tried(g.h, t), g.w, f, n, moved);
    } else {
      ExhaustedStep(p, g.h, g.w, f, n, t, moved);
    }
    g' := g.(h := Quarantines(Tried(g.h, t), f, n, moved), w := w', own := g.own + [n]);
    if moved { FateMoves(g.h, g'.h, f, InCorrupt(f.name)); } else { FateStays(g.h, g'.h, f); }
    DoneRetired(p, g.h, g.w, g'.h, w', f, moved);
    NoteKeeps(g, s, what, g', s');
  }

  /** A spooled batch is written and acknowledged, and its file goes. */
  lemma {:induction false} FinishStep(p: Params, g: Books, s: State, f: File, c: Committed, t: Try, gone: bool,
        s': State) returns (g': Books)
    requires AllKept(p, g, s) && Waiting(g.w, f) && c in g.h.commits && IsReplayed(t) && t.records == f.records
    requires f.name in g.h.origin && c.id == g.h.origin[f.name]
    requires s'.carried == s.carried && s'.events == s.events && s'.counts == s.counts
    ensures AllKept(p, g', s') && DoneWith(g.h, g.w, g'.h, g'.w, f) && SameRun(g, g') && g'.h.commits == g.h.commits
    ensures g'.h.log == g.h.log && NoDrops(g.h, g'.h) && g'.h.tries == g.h.tries + [t]
    ensures g'.h.origin == g.h.origin && c.id < |g'.h.fates| && g'.h.fates[c.id] == Delivered
    ensures g'.w == RetiredWorld(g.w, f, gone).(batches := g.w.batches + 1, records := g.w.records + |f.records|,
                                                beyond := g.w.beyond + p.lost(f.records, c.now))
  {
    var h, w := FinishBooks(p, g, f, c, t, gone);
    g' := g.(h := h, w := w);
    SameEvents(g, s, g', s');
  }

  lemma {:induction false} FinishBooks(p: Params, g: Books, f: File, c: Committed, t: Try, gone: bool)
        returns (h: History, w: World)
    requires BooksKept(p, g.h, g.w) && Waiting(g.w, f) && c in g.h.commits && IsReplayed(t) && t.records == f.records
    requires f.name in g.h.origin && c.id == g.h.origin[f.name]
    ensures BooksKept(p, h, w) && DoneWith(g.h, g.w, h, w, f) && NoDrops(g.h, h)
    ensures h == g.h.(acked := h.acked, fates := h.fates, tries := g.h.tries + [t])
    ensures c.id < |h.fates| && h.fates[c.id] == Delivered
    ensures w == RetiredWorld(g.w, f, gone).(batches := g.w.batches + 1, records := g.w.records + |f.records|,
                                             beyond := g.w.beyond + p.lost(f.records, c.now))
  {
    FileSettleable(p, g.h, g.w, f);
    var v := RetiredWorld(g.w, f, gone);
    h, w := Delivers(g.h, c, t), v.(batches := v.batches + 1, records := v.records + |f.records|,
                                    beyond := v.beyond + p.lost(f.records, c.now));
    DeliveredStep(p, g.h, g.w, f, c, v, t);
    FinishDone(p, g, f, h, w, gone);
  }

  lemma {:induction false} FinishDone(p: Params, g: Books, f: File, h: History, w: World, gone: bool)
    requires BooksKept(p, g.h, g.w) && Settleable(g.h, f)
    requires h == g.h.(acked := h.acked, fates := g.h.fates[g.h.origin[f.name] := Delivered], tries := h.tries)
    requires w == RetiredWorld(g.w, f, gone).(batches := w.batches, records := w.records, beyond := w.beyond)
    ensures DoneWith(g.h, g.w, h, w, f) && NoDrops(g.h, h)
  {
    FateMoves(g.h, h, f, Delivered);
    DoneRetired(p, g.h, g.w, h, w, f, gone);
  }

  lemma {:induction false} DoneRetired(p: Params, h: History, w: World, h': History, w': World, f: File, gone: bool)
    requires BooksKept(p, h, w) && OnlyFate(h, h', f)
    requires var v := RetiredWorld(w, f, gone);
             w'.files == v.files && w'.skip == v.skip && w'.stuck == v.stuck && w'.failures == v.failures
             && w'.since == w.since && w'.retry == w.retry && w'.delay == w.delay
    ensures DoneWith(h, w, h', w', f)
  {
    if gone { DoneGone(p, h, w, h', w', f); } else { DoneAside(h, w, h', w', f); }
  }

  /** An unreadable batch, moved to corrupt/ or stuck. */
  lemma {:induction false} UnreadableStep(p: Params, g: Books, s: State, f: File, moved: bool) returns (g': Books)
    requires AllKept(p, g, s) && Waiting(g.w, f)
    ensures AllKept(p, g', s) && DoneWith(g.h, g.w, g'.h, g'.w, f) && SameRun(g, g') && g'.h.commits == g.h.commits
    ensures g'.h.log == g.h.log && NoDrops(g.h, g'.h) && g'.h.tries == g.h.tries
    ensures g'.w == if moved then g.w.(files := Without(g.w.files, {f.name}), corrupt := g.w.corrupt + [f],
            unread := g.w.unread + [f.name])
                    else g.w.(stuck := g.w.stuck + {f.name}, unread := g.w.unread + [f.name])
  {
    var unread := g.w.unread + [f.name];
    FileSettleable(p, g.h, g.w, f);
    if moved {
      UnreadableMoved(p, g.h, g.w, f);
      g' := g.(h := g.h.(fates := g.h.fates[g.h.origin[f.name] := InCorrupt(f.name)]),
               w := g.w.(files := Without(g.w.files, {f.name}), corrupt := g.w.corrupt + [f], unread := unread));
      FateMoves(g.h, g'.h, f, InCorrupt(f.name));
      DoneGone(p, g.h, g.w, g'.h, g'.w, f);
    } else {
      UnreadableStuck(p, g.h, g.w, f);
      g' := g.(w := g.w.(stuck := g.w.stuck + {f.name}, unread := unread));
      DoneAside(g.h, g.w, g'.h, g'.w, f);
    }
    SameEvents(g, s, g', s);
  }

  /** Replay stops at a file while the database answers. */
  function StopBooks(g: Books, f: File, t: Try): Books {
    g.(h := Tried(g.h, t), w := g.w.(failures := g.w.failures[f.name := Tries(g.w.failures, f.name) + 1]))
  }

  lemma {:induction false} StopOk(p: Params, g: Books, s: State, f: File, t: Try, s': State)
    requires AllKept(p, g, s) && Waiting(g.w, f) && Tries(g.w.failures, f.name) + 1 < p.max && Blames(t, f.name)
    requires s'.carried == s.carried && s'.events == s.events && s'.counts == s.counts
    ensures AllKept(p, StopBooks(g, f, t), s')
  {
    StopStep(p, g.h, g.w, f, t);
    SameEvents(g, s, StopBooks(g, f, t), s');
  }

  lemma {:induction false} BlameCounts(p: Params, g: Books, s: State, f: File, t: Try)
    requires AllKept(p, g, s) && Waiting(g.w, f) && Blames(t, f.name)
    ensures Answered(g.h.tries + [t], f.name) == Tries(g.w.failures, f.name) + 1
  {
    CountIs(p, g, s, f);
    AnsweredSnoc(g.h.tries, t, f.name);
  }

  /** The writer counts what happened to a waiting file. */
  lemma {:induction false} CountIs(p: Params, g: Books, s: State, f: File)
    requires AllKept(p, g, s) && Waiting(g.w, f)
    ensures Tries(g.w.failures, f.name) == Answered(g.h.tries, f.name)
  {
    assert Opens(Whole, Whole);
    CountsAgree(g.h, g.w, f, p.max);
  }

  // --- commits -----------------------------------------------------------------------------

  function CommitBooks(g: Books, c: Committed, db: Db): Books {
    g.(h := Commits(g.h, c), w := g.w.(db := db))
  }

  lemma {:induction false} CommitOk(p: Params, g: Books, s: State, c: Committed, db: Db)
    requires AllKept(p, g, s) && c.id < |g.h.batches| && Reach(g.h.commits) <= c.id
    requires Ahead(g.h.origin, c.id, g.w.files, g.w.skip + g.w.stuck)
    requires db == p.tables(g.h.batches, g.h.commits + [c])
    ensures AllKept(p, CommitBooks(g, c, db), s)
  {
    CommitStep(p, g.h, g.w, c, db);
    SameEvents(g, s, CommitBooks(g, c, db), s);
  }

  /** A batch of the history, once it leads, can be committed. */
  ghost predicate Leads(g: Books, id: nat) {
    Reach(g.h.commits) <= id && Ahead(g.h.origin, id, g.w.files, g.w.skip + g.w.stuck)
  }

  /** The tables once one more submission is committed. */
  lemma {:induction false} TablesSnoc(p: Params, cfg: Config, start: Db, g: Books, s: State, id: nat, now: int)
    requires Means(p, cfg, start) && AllKept(p, g, s) && id < |g.h.batches|
    ensures p.tables(g.h.batches, g.h.commits + [Committed(id, now)]) == Commit(cfg, g.w.db, g.h.batches[id], now)
  {
    assert g.w.db == p.tables(g.h.batches, g.h.commits) by { assert Opens(Whole, Whole); }
    TablesMean(p, cfg, start, g.h.batches, g.h.commits);
    TablesMean(p, cfg, start, g.h.batches, g.h.commits + [Committed(id, now)]);
    ReplaySnoc(cfg, start, g.h.batches, g.h.commits, Committed(id, now));
  }

  lemma {:induction false} SendOk(p: Params, g: Books, s: State, c: Committed, db: Db)
    requires AllKept(p, g, s) && c.id < |g.h.batches| && Leads(g, c.id)
             && db == p.tables(g.h.batches, g.h.commits + [c])
    ensures AllKept(p, CommitBooks(g, c, db), s) && c in CommitBooks(g, c, db).h.commits
            && Leads(CommitBooks(g, c, db), c.id)
  {
    CommitOk(p, g, s, c, db);
  }

  function DeliverBooks(p: Params, g: Books, c: Committed): Books {
    if c.id < |g.h.fates| == |g.h.batches| then
      g.(h := Acknowledge(g.h, c), w := g.w.(beyond := g.w.beyond + p.lost(g.h.batches[c.id], c.now)))
    else g
  }

  /** The fresh batch is written and known to be. */
  lemma {:induction false} DeliverOk(p: Params, g: Books, s: State, c: Committed, s': State)
    requires AllKept(p, g, s) && Unsettled(g.h, c.id) && c in g.h.commits
    requires s'.carried == s.carried && s'.events == s.events && s'.counts == s.counts
    ensures var g' := DeliverBooks(p, g, c);
            AllKept(p, g', s') && Settled(g'.h) && g'.w == g.w.(beyond := g.w.beyond
                + p.lost(g.h.batches[c.id], c.now)) && g'.now == g.now
  {
    FreshDelivered(p, g.h, g.w, c.id, c);
    SameEvents(g, s, DeliverBooks(p, g, c), s');
  }

  // --- a replay ------------------------------------------------------------------------------

  /** Attempts the spool may still use up while the database answers. */
  function CreditOf(p: Params, w: World): nat {
    Credit(w.files, w.skip + w.stuck, w.failures, if p.max > 0 then p.max - 1 else 0)
  }

  /** A replay has only moved spooled submissions on. */
  ghost predicate Progress(p: Params, g: Books, g': Books, id: nat) {
    && SameRun(g, g') && Unsettled(g'.h, id) && g'.h.phase == g.h.phase
    && g'.w.since == g.w.since && g'.w.retry == g.w.retry && g'.w.delay == g.w.delay
    && CreditOf(p, g'.w) <= CreditOf(p, g.w)
  }

  /** What follows a commit, seen from before it. */
  lemma {:induction false} DoneSince(p: Params, g: Books, mid: Books, g': Books, f: File, stops: bool, answered: bool)
    requires mid.h == g.h.(commits := mid.h.commits) && mid.w == g.w.(db := mid.w.db)
    requires SameRun(g, mid) && SameRun(mid, g') && NoDrops(mid.h, g'.h)
    requires if stops then Halted(p, mid, g', f, answered) else DoneWith(mid.h, mid.w, g'.h, g'.w, f)
    ensures SameRun(g, g') && NoDrops(g.h, g'.h) && g'.h.origin == g.h.origin
    ensures if stops then Halted(p, g, g', f, answered) else DoneWith(g.h, g.w, g'.h, g'.w, f)
  {
    assert Opens(Finishing, Finishing);
  }

  lemma {:induction false} StuckPasses(p: Params, g: Books, s: State, f: File)
    requires AllKept(p, g, s) && Waiting(g.w, f) && f.name in g.w.stuck
    ensures DoneWith(g.h, g.w, g.h, g.w, f)
  {
    FileSettleable(p, g.h, g.w, f);
  }

  lemma {:induction false} LeadStarts(p: Params, g: Books, s: State, list: seq<File>, i: nat)
    requires AllKept(p, g, s) && Sorted(list) && i < |list| && Scanning(g.w, list, i)
    ensures Waiting(g.w, list[i]) && Settleable(g.h, list[i])
    ensures list[i].name !in g.w.stuck ==> Leads(g, g.h.origin[list[i].name])
  {
    ScanLeads(p, g.h, g.w, list, i);
    FileSettleable(p, g.h, g.w, list[i]);
  }

  /** The names of all but the newest live-only file. */
  function SupersededOf(list: seq<File>): set<Name> {
    var live := Marked(list, true);
    if live == [] then {} else Names(live[..|live| - 1])
  }

  lemma {:induction false} SupersededLive(list: seq<File>, f: File)
    requires Sorted(list) && f.name in SupersededOf(list)
    ensures f.name.live
  {
    MarkedIs(list, true);
    var live := Marked(list, true);
    var j := NamesFrom(live[..|live| - 1], f.name);
    assert live[j] in live;
  }

  lemma {:induction false} ProgressStep(p: Params, g: Books, g': Books, g'': Books, s: State, id: nat,
        list: seq<File>, i: nat)
    requires AllKept(p, g', s) && Progress(p, g, g', id) && Sorted(list) && i < |list| && Scanning(g'.w, list, i)
    requires DoneWith(g'.h, g'.w, g''.h, g''.w, list[i]) && SameRun(g', g'')
    ensures Progress(p, g, g'', id) && Scanning(g''.w, list, i + 1)
  {
    assert Opens(Finishing, Finishing);
    assert Sorted(g'.w.files) by { assert Opens(Whole, Whole) && Opens(Listing, Listing); }
    ScanMoves(g'.h, g'.w, g''.h, g''.w, list, i);
    PastSettles(p, g'.h, g'.w, g''.h, g''.w, list[i], id);
    PastCredit(g'.h, g'.w, g''.h, g''.w, list[i], if p.max > 0 then p.max - 1 else 0);
  }

  function CommitsWith(cs: seq<Committed>, committed: bool, c: Committed): seq<Committed> {
    if committed then cs + [c] else cs
  }

  /** The commits of a list of files, all at one time. */
  function CommitsOf(files: seq<File>, origin: map<Name, nat>, now: int): seq<Committed> {
    if files == [] then []
    else
      var f := files[|files| - 1];
      CommitsOf(files[..|files| - 1], origin, now) + [Committed(if f.name in origin then origin[f.name] else 0, now)]
  }

  /** Every submission newly dropped as superseded was in one of these files. */
  ghost predicate DroppedOnly(h: History, h': History, names: set<Name>) {
    forall i :: 0 <= i < |h'.fates| && h'.fates[i] == Superseded ==>
      (i < |h.fates| && h.fates[i] == Superseded) || exists n :: n in names && n in h.origin && h.origin[n] == i
  }

  /** What a replay of `list` has done so far, from its first `i` files: `sent` have been committed,
      in order, and of the rest only superseded files have been dropped. */
  ghost predicate Traced(h: History, h': History, list: seq<File>, i: nat, now: int, sent: seq<File>) {
    forall z :: Opens(z, Tracing) ==>
      && i <= |list| && h'.origin == h.origin && h'.commits == h.commits + CommitsOf(sent, h.origin, now)
      && Sorted(sent) && (forall f :: f in sent ==> f in list[..i] && f.name !in SupersededOf(list))
      && DroppedOnly(h, h', SupersededOf(list))
  }

  lemma {:induction false} TraceStarts(h: History, list: seq<File>, now: int)
    ensures Traced(h, h, list, 0, now, [])
  {
    assert h.commits + [] == h.commits;
  }

  lemma {:induction false} CommitsOfSnoc(files: seq<File>, f: File, origin: map<Name, nat>, now: int)
    requires f.name in origin
    ensures CommitsOf(files + [f], origin, now) == CommitsOf(files, origin, now) + [Committed(origin[f.name], now)]
  {
    assert (files + [f])[..|files|] == files;
  }

  /** Stopping short of the end does not change what has been done. */
  lemma {:induction false} TraceEnds(h: History, h': History, list: seq<File>, i: nat, now: int, sent: seq<File>)
    requires Traced(h, h', list, i, now, sent) && i <= |list|
    ensures Traced(h, h', list, |list|, now, sent)
  {
    assert Opens(Tracing, Tracing);
    assert list[..|list|] == list;
    assert forall f :: f in list[..i] ==> f in list;
  }

  lemma {:induction false} TraceOrigin(h: History, h': History, list: seq<File>, i: nat, now: int, sent: seq<File>)
    requires Traced(h, h', list, i, now, sent)
    ensures h'.origin == h.origin
  {
    assert Opens(Tracing, Tracing);
  }

  lemma {:induction false} OriginStays(g: Books, g': Books, f: File)
    requires DoneWith(g.h, g.w, g'.h, g'.w, f)
    ensures g'.h.origin == g.h.origin
  {
    assert Opens(Finishing, Finishing);
  }

  /** A superseded file has been dealt with. */
  lemma {:induction false} TraceDrops(g: Books, g': Books, g'': Books, list: seq<File>, i: nat, now: int,
        sent: seq<File>)
    requires Traced(g.h, g'.h, list, i, now, sent) && i < |list| && list[i].name in SupersededOf(list)
    requires DoneWith(g'.h, g'.w, g''.h, g''.w, list[i]) && g''.h.commits == g'.h.commits
    ensures Traced(g.h, g''.h, list, i + 1, now, sent)
  {
    assert Opens(Tracing, Tracing) && Opens(Finishing, Finishing);
    assert forall f :: f in list[..i] ==> f in list[..i + 1];
  }

  lemma {:induction false} SentGrows(list: seq<File>, i: nat, sent: seq<File>)
    requires Sorted(list) && i < |list| && Sorted(sent) && (forall f :: f in sent ==> f in list[..i])
    ensures Sorted(sent + [list[i]]) && forall f :: f in sent + [list[i]] ==> f in list[..i + 1]
  {
    assert list[..i + 1] == list[..i] + [list[i]];
    forall j | 0 <= j < |sent| ensures Earlier(sent[j].name, list[i].name) {
      assert sent[j] in list[..i];
      var k :| 0 <= k < i && list[..i][k] == sent[j];
      assert list[k] == sent[j];
    }
  }

  lemma {:induction false} DropsKept(h: History, h': History, h'': History, names: set<Name>)
    requires DroppedOnly(h, h', names) && NoDrops(h', h'')
    ensures DroppedOnly(h, h'', names)
  {
  }

  /** Another file has been dealt with, by a commit or not. */
  lemma {:induction false} TraceMoves(h: History, h': History, h'': History, list: seq<File>, i: nat, now: int,
        sent: seq<File>, committed: bool)
    requires Traced(h, h', list, i, now, sent) && Sorted(list) && i < |list|
    requires list[i].name !in SupersededOf(list) && list[i].name in h.origin
    requires h''.origin == h'.origin && NoDrops(h', h'')
    requires h''.commits == CommitsWith(h'.commits, committed, Committed(h.origin[list[i].name], now))
    ensures Traced(h, h'', list, i + 1, now, if committed then sent + [list[i]] else sent)
  {
    assert Opens(Tracing, Tracing);
    var more := if committed then sent + [list[i]] else sent;
    DropsKept(h, h', h'', SupersededOf(list));
    MoreSent(list, i, sent, committed);
    MoreCommits(h, h', h'', list[i], now, sent, committed);
  }

  lemma {:induction false} MoreSent(list: seq<File>, i: nat, sent: seq<File>, committed: bool)
    requires Sorted(list) && i < |list| && Sorted(sent) && list[i].name !in SupersededOf(list)
    requires forall f :: f in sent ==> f in list[..i] && f.name !in SupersededOf(list)
    ensures var more := if committed then sent + [list[i]] else sent;
            Sorted(more) && forall f :: f in more ==> f in list[..i + 1] && f.name !in SupersededOf(list)
  {
    SentGrows(list, i, sent);
    assert forall f :: f in list[..i] ==> f in list[..i + 1];
  }

  lemma {:induction false} MoreCommits(h: History, h': History, h'': History, f: File, now: int, sent: seq<File>,
        committed: bool)
    requires f.name in h.origin && h'.commits == h.commits + CommitsOf(sent, h.origin, now)
    requires h''.commits == CommitsWith(h'.commits, committed, Committed(h.origin[f.name], now))
    ensures h''.commits == h.commits + CommitsOf(if committed then sent + [f] else sent, h.origin, now)
  {
    CommitsOfSnoc(sent, f, h.origin, now);
  }

  /** Replay stopped at a file and left everything where it was. */
  ghost predicate Halted(p: Params, g: Books, g': Books, f: File, answered: bool) {
    && SameRun(g, g') && g'.h.fates == g.h.fates && g'.h.origin == g.h.origin && g'.h.phase == g.h.phase
    && g'.h.batchesSuperseded == g.h.batchesSuperseded
    && g'.w == g.w.(db := g'.w.db, failures := if answered then g.w.failures[f.name := Tries(g.w.failures, f.name) + 1]
        else g.w.failures)
    && (answered ==> f.name !in g.w.stuck && Tries(g.w.failures, f.name) + 1 < p.max)
  }

  lemma {:induction false} HaltStep(p: Params, g: Books, g': Books, g'': Books, id: nat, f: File, answered: bool)
    requires Progress(p, g, g', id) && Waiting(g'.w, f) && Halted(p, g', g'', f, answered)
    ensures Progress(p, g, g'', id) && (answered ==> CreditOf(p, g''.w) < CreditOf(p, g.w))
  {
    if answered {
      CreditSpent(g'.w.files, g'.w.skip + g'.w.stuck, g'.w.failures, p.max - 1, f);
    }
  }

  // --- a submission ---------------------------------------------------------------------------

  function BeginState(s: State): State { s.(counts := multiset{}, events := s.carried, carried := []) }

  function BeginBook(g: Books, s: State, records: seq<Record>, now: int): Books {
    Books(Begin(g.h, records), g.w, [], s.carried, now, g.turns)
  }

  lemma {:induction false} BeginOk(p: Params, g: Books, s: State, records: seq<Record>, now: int)
    requires AllKept(p, g, s) && s.events == [] && Settled(g.h)
    requires g.w.db == p.tables(g.h.batches + [records], g.h.commits)
    ensures AllKept(p, BeginBook(g, s, records, now), BeginState(s))
    ensures |g.h.fates| == |g.h.batches| && Unsettled(Begin(g.h, records), |g.h.batches|)
  {
    BeginStep(p, g.h, g.w, records);
    assert Opens(Telling, Telling) && Opens(Whole, Whole);
    assert g.h.log == g.h.returned + [] + s.carried;
  }

  /** More submissions leave the tables of the commits made so far as they are. */
  lemma {:induction false} TablesExtend(p: Params, cfg: Config, start: Db, g: Books, s: State, records: seq<Record>)
    requires Means(p, cfg, start) && AllKept(p, g, s)
    ensures g.w.db == p.tables(g.h.batches + [records], g.h.commits)
  {
    assert g.w.db == p.tables(g.h.batches, g.h.commits) && AreCommits(g.h.commits, g.h.batches) by {
      assert Opens(Whole, Whole) && Opens(Committing, Committing);
    }
    TablesMean(p, cfg, start, g.h.batches, g.h.commits);
    TablesMean(p, cfg, start, g.h.batches + [records], g.h.commits);
    ReplayExtends(cfg, start, g.h.batches, g.h.batches + [records], g.h.commits);
  }

  lemma {:induction false} TablesMean(p: Params, cfg: Config, start: Db, batches: seq<seq<Record>>,
        commits: seq<Committed>)
    requires Means(p, cfg, start)
    ensures p.tables(batches, commits) == Replay(cfg, start, batches, commits)
  {
    assert Opens(Meaning, Meaning);
  }

  function SettleBooks(g: Books, id: nat, x: Fate): Books {
    if id < |g.h.fates| then g.(h := g.h.(fates := g.h.fates[id := x])) else g
  }

  lemma {:induction false} EmptyOk(p: Params, g: Books, s: State, id: nat)
    requires AllKept(p, g, s) && Unsettled(g.h, id) && g.h.batches[id] == []
    ensures AllKept(p, SettleBooks(g, id, Nothing), s) && Settled(SettleBooks(g, id, Nothing).h)
  {
    EmptyStep(p, g.h, g.w, id);
    SameEvents(g, s, SettleBooks(g, id, Nothing), s);
  }

  // --- spooling -------------------------------------------------------------------------------

  function DropBook(g: Books, dropped: seq<File>, unread: set<Name>, n: Notice): Books {
    g.(h := Log(Drop(g.h, dropped, unread), n), w := g.w.(files := Without(g.w.files, Names(dropped))),
        own := g.own + [n])
  }

  lemma {:induction false} DropOk(p: Params, g: Books, s: State, id: nat, dropped: seq<File>, unread: set<Name>)
    requires AllKept(p, g, s) && Unsettled(g.h, id) && s.carried == []
    ensures var n := Event(s, g.now, SpoolDropped(|dropped|, Count(Without(dropped, unread))));
            var g' := DropBook(g, dropped, unread, n);
            AllKept(p, g', Note(s, n)) && Unsettled(g'.h, id)
  {
    var what := SpoolDropped(|dropped|, Count(Without(dropped, unread)));
    var n := Event(s, g.now, what);
    DropStep(p, g.h, g.w, dropped, unread, n);
    NoteKeeps(g, s, what, DropBook(g, dropped, unread, n), Note(s, n));
  }

  function AddBook(g: Books, id: nat, f: File, number: nat, stamp: int): Books {
    if id < |g.h.fates| then
      g.(h := g.h.(fates := g.h.fates[id := Spooled(f.name)], origin := g.h.origin[f.name := id]),
         w := g.w.(files := g.w.files + [f], number := number, stamp := stamp))
    else g
  }

  lemma {:induction false} AddOk(p: Params, g: Books, s: State, id: nat, f: File, number: nat, stamp: int)
    requires AllKept(p, g, s) && Unsettled(g.h, id) && f.records == g.h.batches[id]
    requires g.w.number < f.name.number <= number && g.w.stamp <= f.name.stamp <= stamp && Sorted(g.w.files + [f])
    ensures var g' := AddBook(g, id, f, number, stamp);
            AllKept(p, g', s) && Settled(g'.h) && g'.h.fates[id] == Spooled(f.name)
  {
    var g' := AddBook(g, id, f, number, stamp);
    AddStep(p, g.h, g.w, id, f, g'.w);
    SameEvents(g, s, g', s);
  }

  function FailedBook(g: Books, id: nat, n: Notice, number: nat, stamp: int): Books {
    if id < |g.h.fates| then
      g.(h := Log(g.h, n).(fates := g.h.fates[id := WriteFailed], failed := g.h.failed + {id}),
         w := g.w.(number := number, stamp := stamp), own := g.own + [n])
    else g
  }

  lemma {:induction false} FailedOk(p: Params, g: Books, s: State, id: nat, number: nat, stamp: int)
    requires AllKept(p, g, s) && Unsettled(g.h, id) && s.carried == [] && g.w.number <= number && g.w.stamp <= stamp
    ensures var n := Event(s, g.now, SpoolWriteFailed);
            var g' := FailedBook(g, id, n, number, stamp);
            AllKept(p, g', Note(s, n)) && Settled(g'.h)
  {
    var n := Event(s, g.now, SpoolWriteFailed);
    var g' := FailedBook(g, id, n, number, stamp);
    WriteFailedStep(p, g.h, g.w, id, n, g'.w);
    NoteKeeps(g, s, SpoolWriteFailed, g', Note(s, n));
  }

  /** `_store`'s events: first what had to go, then that the batch could not be stored. */
  function StoreState(s: State, now: int, r: SpoolResult): (t: State)
    ensures t == s.(counts := t.counts, events := t.events)
  {
    var a := if r.batches > 0 then Note(s, Event(s, now, SpoolDropped(r.batches, r.records))) else s;
    if r.stored then a else Note(a, Event(a, now, SpoolWriteFailed))
  }

  function DroppedBook(g: Books, s: State, dropped: seq<File>, unread: set<Name>): Books {
    if dropped == [] then g
    else DropBook(g, dropped, unread, Event(s, g.now, SpoolDropped(|dropped|, Count(Without(dropped, unread)))))
  }

  function StoreBook(g: Books, s: State, id: nat, dropped: seq<File>, unread: set<Name>, r: SpoolResult,
        files: seq<File>, number: nat, stamp: int): Books {
    var a := if r.batches > 0 then Note(s, Event(s, g.now, SpoolDropped(r.batches, r.records))) else s;
    var d := DroppedBook(g, s, dropped, unread);
    if r.stored && files != [] then AddBook(d, id, files[|files| - 1], number, stamp)
    else FailedBook(d, id, Event(a, g.now, SpoolWriteFailed), number, stamp)
  }

  lemma {:induction false} DroppedOk(p: Params, g: Books, s: State, id: nat, dropped: seq<File>, unread: set<Name>,
        r: SpoolResult)
    requires AllKept(p, g, s) && Unsettled(g.h, id) && s.carried == []
    requires r.batches == |dropped| && r.records == Count(Without(dropped, unread))
    ensures var g' := DroppedBook(g, s, dropped, unread);
            var s' := if r.batches > 0 then Note(s, Event(s, g.now, SpoolDropped(r.batches, r.records))) else s;
            AllKept(p, g', s') && Unsettled(g'.h, id) && SameRun(g, g')
            && g'.w == g.w.(files := Without(g.w.files, Names(dropped))) && g'.h.batches == g.h.batches
            && Calmly(g, g')
  {
    if dropped == [] {
      WithoutIs(g.w.files, {}) by { assert Opens(Whole, Whole) && Opens(Listing, Listing); }
    } else {
      DropOk(p, g, s, id, dropped, unread);
    }
  }

  lemma {:induction false} AddedLast(before: seq<File>, files: seq<File>, records: seq<Record>, size: nat,
        corrupt: seq<File>, number: nat, stamp: int)
    requires Added(before, files, records, size) && Orderly(files, corrupt, number, stamp)
    ensures files != [] && files == before + [files[|files| - 1]] && Sorted(files)
            && files[|files| - 1].records == records
    ensures files[|files| - 1].name.number <= number && files[|files| - 1].name.stamp <= stamp
  {
    assert Opens(Filing, Filing);
    assert files[|files| - 1] in files;
  }

  lemma {:induction false} StoreOk(p: Params, g: Books, s: State, id: nat, dropped: seq<File>, unread: set<Name>,
        r: SpoolResult, files: seq<File>, corrupt: seq<File>, number: nat, stamp: int, size: nat) returns (g': Books)
    requires AllKept(p, g, s) && Unsettled(g.h, id) && s.carried == []
    requires r.batches == |dropped| && r.records == Count(Without(dropped, unread))
    requires g.w.number <= number && g.w.stamp <= stamp && Orderly(files, corrupt, number, stamp)
    requires if r.stored
             then Added(Without(g.w.files, Names(dropped)), files, g.h.batches[id], size)
                  && g.w.number < files[|files| - 1].name.number && g.w.stamp <= files[|files| - 1].name.stamp
             else files == Without(g.w.files, Names(dropped))
    ensures AllKept(p, g', StoreState(s, g.now, r)) && Settled(g'.h) && SameRun(g, g') && Calmly(g, g')
    ensures g'.w == g.w.(files := files, number := number, stamp := stamp)
  {
    g' := StoreBook(g, s, id, dropped, unread, r, files, number, stamp);
    DroppedOk(p, g, s, id, dropped, unread, r);
    var d := DroppedBook(g, s, dropped, unread);
    var a := if r.batches > 0 then Note(s, Event(s, g.now, SpoolDropped(r.batches, r.records))) else s;
    if r.stored {
      AddedLast(Without(g.w.files, Names(dropped)), files, g.h.batches[id], size, corrupt, number, stamp);
      AddOk(p, d, a, id, files[|files| - 1], number, stamp);
    } else {
      FailedOk(p, d, a, id, number, stamp);
    }
  }

  // --- a fresh batch the server refuses -------------------------------------------------------

  function NotKeptBook(g: Books, id: nat, n: Notice): Books {
    if id < |g.h.fates| then
      g.(h := Log(g.h, n).(fates := g.h.fates[id := NotKept], unkept := g.h.unkept + {id}), own := g.own + [n])
    else g
  }

  lemma {:induction false} NotKeptOk(p: Params, g: Books, s: State, id: nat, cause: Cause)
    requires AllKept(p, g, s) && Unsettled(g.h, id) && s.carried == [] && !cause.Repeated?
    requires WasRefused(g.h.tries, g.h.batches[id])
    ensures var n := Event(s, g.now, BatchQuarantined(None, cause));
            var g' := NotKeptBook(g, id, n);
            AllKept(p, g', Note(s, n)) && Settled(g'.h) && g'.w == g.w
  {
    var n := Event(s, g.now, BatchQuarantined(None, cause));
    FreshNotKept(p, g.h, g.w, id, n);
    NoteKeeps(g, s, BatchQuarantined(None, cause), NotKeptBook(g, id, n), Note(s, n));
  }

  function KeptBook(g: Books, id: nat, f: File, n: Notice, number: nat, stamp: int): Books {
    if id < |g.h.fates| then
      g.(h := Log(g.h, n).(fates := g.h.fates[id := InCorrupt(f.name)], origin := g.h.origin[f.name := id]),
         w := g.w.(corrupt := g.w.corrupt + [f], number := number, stamp := stamp), own := g.own + [n])
    else g
  }

  lemma {:induction false} KeptOk(p: Params, g: Books, s: State, id: nat, f: File, number: nat, stamp: int)
    requires AllKept(p, g, s) && Unsettled(g.h, id) && s.carried == [] && f.records == g.h.batches[id]
    requires WasRefused(g.h.tries, g.h.batches[id])
    requires g.w.number < f.name.number <= number && g.w.stamp <= f.name.stamp <= stamp
    ensures var n := Event(s, g.now, BatchQuarantined(Some(f.name), Refused));
            var g' := KeptBook(g, id, f, n, number, stamp);
            AllKept(p, g', Note(s, n)) && Settled(g'.h) && g'.w
                == g.w.(corrupt := g.w.corrupt + [f], number := number, stamp := stamp)
  {
    var n := Event(s, g.now, BatchQuarantined(Some(f.name), Refused));
    var g' := KeptBook(g, id, f, n, number, stamp);
    FreshKept(p, g.h, g.w, id, f, n, g'.w);
    NoteKeeps(g, s, BatchQuarantined(Some(f.name), Refused), g', Note(s, n));
  }

  /** The spool's counters move on although nothing was stored. */
  lemma {:induction false} CountersMove(p: Params, g: Books, s: State, number: nat, stamp: int)
    requires AllKept(p, g, s) && g.w.number <= number && g.w.stamp <= stamp
    ensures AllKept(p, g.(w := g.w.(number := number, stamp := stamp)), s)
  {
    assert BooksKept(p, g.h, g.w.(number := number, stamp := stamp)) by {
      assert Opens(Whole, Whole) && Opens(Naming, Naming);
      assert Sound(p, g.h, g.w.(number := number, stamp := stamp));
    }
    SameEvents(g, s, g.(w := g.w.(number := number, stamp := stamp)), s);
  }

  /** A fresh batch the server refused, kept in corrupt/ under a name or not at all. */
  function RefusedBook(g: Books, s: State, id: nat, name: Option<Name>, corrupt: seq<File>, number: nat,
        stamp: int): Books {
    var n := Event(s, g.now, BatchQuarantined(name, Refused));
    if name.None? then NotKeptBook(g.(w := g.w.(number := number, stamp := stamp)), id, n)
    else if corrupt == [] then g
    else KeptBook(g, id, corrupt[|corrupt| - 1], n, number, stamp)
  }

  lemma {:induction false} RefusedOk(p: Params, g: Books, s: State, id: nat, name: Option<Name>, corrupt: seq<File>,
        number: nat, stamp: int, size: nat)
    requires AllKept(p, g, s) && Unsettled(g.h, id) && s.carried == [] && g.w.number <= number && g.w.stamp <= stamp
    requires WasRefused(g.h.tries, g.h.batches[id])
    requires if name.None? then corrupt == g.w.corrupt
             else g.w.number < name.value.number <= number && g.w.stamp <= name.value.stamp <= stamp
                  && corrupt == g.w.corrupt + [File(name.value, g.h.batches[id], size)]
    ensures var g' := RefusedBook(g, s, id, name, corrupt, number, stamp);
            AllKept(p, g', Note(s, Event(s, g.now, BatchQuarantined(name, Refused)))) && Settled(g'.h)
            && g'.w == g.w.(corrupt := corrupt, number := number, stamp := stamp)
            && SameRun(g, g') && Calmly(g, g')
  {
    if name.None? {
      CountersMove(p, g, s, number, stamp);
      NotKeptOk(p, g.(w := g.w.(number := number, stamp := stamp)), s, id, Refused);
    } else {
      KeptOk(p, g, s, id, corrupt[|corrupt| - 1], number, stamp);
    }
  }

  // --- outage state ------------------------------------------------------------------------------

  /** `_fail`: the outage begins or goes on, and the next attempt waits. */
  function FailState(s: State, now: int, base: nat, cap: nat): State {
    var first := s.since.None?;
    var wait := if first then Min(base, cap) else Min(2 * s.delay, cap);
    (if first then Note(s, Event(s, now, DatabaseUnavailable)).(since := Some(now)) else s)
    .(connected := false, delay := wait, retry := Some(now + wait))
  }

  function FailBook(g: Books, s: State, base: nat, cap: nat): Books {
    var t := FailState(s, g.now, base, cap);
    var v := g.w.(since := t.since, delay := t.delay, retry := t.retry);
    if s.since.None? then
      var n := Event(s, g.now, DatabaseUnavailable);
      g.(h := Log(g.h, n).(phase := Struck(g.h.phase)), w := v, own := g.own + [n])
    else g.(h := g.h.(phase := Struck(g.h.phase)), w := v)
  }

  lemma {:induction false} FailFirst(p: Params, g: Books, s: State)
    requires AllKept(p, g, s) && s.carried == [] && g.w.since == s.since == None
    ensures AllKept(p, FailBook(g, s, p.base, p.cap), FailState(s, g.now, p.base, p.cap))
  {
    OutageBegins(p, g.h, g.w, g.now, Event(s, g.now, DatabaseUnavailable));
    NoteKeeps(g, s, DatabaseUnavailable, FailBook(g, s, p.base, p.cap), FailState(s, g.now, p.base, p.cap));
  }

  lemma {:induction false} FailAgain(p: Params, g: Books, s: State)
    requires AllKept(p, g, s) && s.carried == [] && g.w.since == s.since && s.since.Some? && g.w.delay == s.delay
    ensures AllKept(p, FailBook(g, s, p.base, p.cap), FailState(s, g.now, p.base, p.cap))
  {
    OutageContinues(p, g.h, g.w, g.now);
    SameEvents(g, s, FailBook(g, s, p.base, p.cap), FailState(s, g.now, p.base, p.cap));
  }

  lemma {:induction false} FailOk(p: Params, g: Books, s: State, id: nat)
    requires AllKept(p, g, s) && s.carried == [] && g.w.since == s.since && g.w.delay == s.delay && Unsettled(g.h, id)
    ensures var g' := FailBook(g, s, p.base, p.cap);
            AllKept(p, g', FailState(s, g.now, p.base, p.cap)) && Unsettled(g'.h, id)
                && g'.h.phase == Struck(g.h.phase) && g'.h.tries == g.h.tries
                && g'.h.batchesSuperseded == g.h.batchesSuperseded && SameRun(g, g')
  {
    assert s.since.None? ==> g.h.phase.strikes == 0 by { assert Opens(Whole, Whole) && Opens(Outages, Outages); }
    if s.since.None? { FailFirst(p, g, s); } else { FailAgain(p, g, s); }
  }

  /** Whether `_recover` has anything to announce. */
  predicate HasNews(s: State) { s.since.Some? || s.batches > 0 || s.superseded > 0 }

  function Recovery(s: State, now: int): What {
    DatabaseRecovered(if s.since.Some? then Some(now - s.since.value) else None, s.batches, s.records, s.superseded)
  }

  function RecoverState(s: State, now: int): State {
    (if HasNews(s) then Note(s, Event(s, now, Recovery(s, now))) else s)
    .(connected := true, since := None, retry := None, delay := 0, batches := 0, records := 0, superseded := 0)
  }

  function RecoverBook(g: Books, s: State): Books {
    if HasNews(s) then
      var n := Event(s, g.now, Recovery(s, g.now));
      g.(h := Log(g.h, n).(phase := Reported(g.h)), w := Calm(g.w), own := g.own + [n])
    else g.(w := Calm(g.w))
  }

  lemma {:induction false} RecoverOk(p: Params, g: Books, s: State)
    requires AllKept(p, g, s) && s.carried == []
    requires g.w.since == s.since && g.w.batches == s.batches && g.w.records == s.records
             && g.w.superseded == s.superseded
    ensures AllKept(p, RecoverBook(g, s), RecoverState(s, g.now))
    ensures RecoverBook(g, s).h.fates == g.h.fates && RecoverBook(g, s).h.origin == g.h.origin
    ensures SameRun(g, RecoverBook(g, s)) && RecoverBook(g, s).w == Calm(g.w)
    ensures RecoverBook(g, s).h.phase == Ended(g.h.phase, ReplayedBatches(g.h.tries), g.h.batchesSuperseded)
    ensures RecoverBook(g, s).h.tries == g.h.tries
    ensures RecoverBook(g, s).h.batchesSuperseded == g.h.batchesSuperseded
  {
    var g', s' := RecoverBook(g, s), RecoverState(s, g.now);
    NewsDue(p, g, s);
    if HasNews(s) {
      RecoveredStep(p, g.h, g.w, Event(s, g.now, Recovery(s, g.now)));
      NoteKeeps(g, s, Recovery(s, g.now), g', s');
    } else {
      NothingToRecover(p, g.h, g.w);
      SameEvents(g, s, g', s');
    }
  }

  /** There is something to announce exactly if the books say so. */
  lemma {:induction false} NewsDue(p: Params, g: Books, s: State)
    requires AllKept(p, g, s) && g.w.since == s.since && g.w.batches == s.batches && g.w.superseded == s.superseded
    ensures HasNews(s) <==> g.h.phase.strikes > 0 || ReplayedBatches(g.h.tries) > g.h.phase.batches
                            || g.h.batchesSuperseded > g.h.phase.superseded
    ensures HasNews(s) ==> Ended(g.h.phase, ReplayedBatches(g.h.tries), g.h.batchesSuperseded) == Reported(g.h)
  {
    assert Opens(Whole, Whole) && Opens(Outages, Outages);
  }

  lemma {:induction false} RetryOk(p: Params, g: Books, s: State, s': State)
    requires AllKept(p, g, s) && s'.carried == s.carried && s'.events == s.events && s'.counts == s.counts
    ensures AllKept(p, g.(w := g.w.(retry := None)), s')
  {
    RetryCleared(p, g.h, g.w) by { assert Opens(Whole, Whole); }
    SameEvents(g, s, g.(w := g.w.(retry := None)), s');
  }

  // --- the end of a submit ------------------------------------------------------------------------

  function TellBook(g: Books, n: Notice): Books {
    if g.w.unread == [] then g
    else g.(h := Log(g.h, n), w := g.w.(unread := g.w.unread[1..]), own := g.own + [n])
  }

  lemma {:induction false} TellOk(p: Params, g: Books, s: State)
    requires AllKept(p, g, s) && s.carried == [] && g.w.unread != []
    ensures var n := Event(s, g.now, BatchQuarantined(Some(g.w.unread[0]), Unreadable));
            AllKept(p, TellBook(g, n), Note(s, n))
  {
    var what := BatchQuarantined(Some(g.w.unread[0]), Unreadable);
    TellStep(p, g.h, g.w, Event(s, g.now, what));
    NoteKeeps(g, s, what, TellBook(g, Event(s, g.now, what)), Note(s, Event(s, g.now, what)));
  }

  function BeyondBook(g: Books, n: Notice): Books {
    g.(h := Log(g.h, n), w := g.w.(beyond := multiset{}), own := g.own + [n])
  }

  lemma {:induction false} BeyondOk(p: Params, g: Books, s: State, s': State)
    requires AllKept(p, g, s) && s.carried == []
    requires s' == Note(s, Event(s, g.now, RowsBeyondRetention(g.w.beyond))).(beyond := s'.beyond)
    ensures AllKept(p, BeyondBook(g, Event(s, g.now, RowsBeyondRetention(g.w.beyond))), s')
  {
    var what := RowsBeyondRetention(g.w.beyond);
    BeyondStep(p, g.h, g.w, Event(s, g.now, what));
    NoteKeeps(g, s, what, BeyondBook(g, Event(s, g.now, what)), s');
  }

  /** The events are returned, or, if the submit raised, carried to the next. */
  function CloseBook(g: Books, s: State, raised: bool, turn: Turn): Books {
    g.(h := if raised then g.h else g.h.(returned := g.h.returned + s.events), own := [], inherited := [],
       turns := g.turns + [turn])
  }

  /** The submit that began with the books `g`. */
  function TurnOf(g: Books, g': Books, how: How): Turn {
    Turn(how, if |g.h.tries| <= |g'.h.tries| then g'.h.tries[|g.h.tries|..] else [], g'.h.batchesSuperseded)
  }

  function CloseState(s: State, raised: bool): State {
    s.(carried := if raised then s.events else [], events := [], counts := multiset{})
  }

  lemma {:induction false} CloseOk(p: Params, g: Books, s: State, raised: bool, turn: Turn)
    requires AllKept(p, g, s) && s.carried == []
    ensures AllKept(p, CloseBook(g, s, raised, turn), CloseState(s, raised))
  {
    var g', s' := CloseBook(g, s, raised, turn), CloseState(s, raised);
    assert EventsKept(g', s') by {
      assert Opens(Telling, Telling);
      assert g'.h.log == g'.h.returned + s'.carried + s'.events;
    }
    assert BooksKept(p, g'.h, g'.w) by {
      assert Opens(Whole, Whole);
      SameBacking(g.h, g'.h, Names(g.w.corrupt), g.w.unread);
      SameCounts(p.lost, g.h, g'.h, g.w.beyond);
      SameOutage(p, g.h, g'.h, g.w);
      SameHead(g.h, g'.h, g.w.failures, g.w.files, g.w.skip, p.max);
      assert Sound(p, g'.h, g'.w);
    }
  }

  // --- a whole submit ---------------------------------------------------------------------------

  /** Where the outage stands after a submit. */
  function NextPhase(x: Phase, how: How, wrote: bool, replayed: nat, superseded: nat): Phase {
    if how.Fails? then Struck(x)
    else if how.Drains? && wrote then Ended(x, replayed, superseded)
    else x
  }

  /** When the next attempt may be made after it, `wait` after a failed one. */
  function NextRetry(retry: Option<int>, how: How, wrote: bool, now: int, wait: int): Option<int> {
    if how.Fails? then Some(now + wait)
    else if (how.Drains? || how.RunsOut?) && wrote then None
    else retry
  }

  /** A submit did with the outage what its writes called for. */
  ghost predicate OutageMoves(p: Params, g: Books, g': Books, how: How, retry: Option<int>, retry': Option<int>) {
    forall k :: Opens(k, Trying) ==>
      && Since(g.h.tries, g'.h.tries, g'.now)
      && (how.Fails? <==> LastFails(g'.h.tries, |g.h.tries|, p.max))
      && (how.Waits? ==> g'.h.tries == g.h.tries)
      && g'.h.phase == NextPhase(g.h.phase, how, AnyWritten(g'.h.tries, |g.h.tries|), ReplayedBatches(g'.h.tries),
                                 g'.h.batchesSuperseded)
      && retry' == NextRetry(retry, how, AnyWritten(g'.h.tries, |g.h.tries|), g'.now,
                             Wait(p.base, p.cap, g.h.phase.strikes + 1))
  }

  /** A submit that has only begun has not moved anything. */
  lemma {:induction false} MovesFrom(p: Params, g0: Books, g: Books, g': Books, how: How, retry: Option<int>,
        retry': Option<int>)
    requires Calmly(g0, g) && OutageMoves(p, g, g', how, retry, retry')
    ensures OutageMoves(p, g0, g', how, retry, retry')
  {
    assert Opens(Trying, Trying);
  }

  lemma {:induction false} DelayIs(p: Params, g: Books, s: State)
    requires AllKept(p, g, s) && g.w.delay == s.delay && g.h.phase.strikes > 0
    ensures s.delay == Wait(p.base, p.cap, g.h.phase.strikes)
  {
    assert Opens(Whole, Whole) && Opens(Outages, Outages);
  }

  /** All that was tried in some submits. */
  function TriesOf(turns: seq<Turn>): seq<Try> {
    if turns == [] then [] else TriesOf(turns[..|turns| - 1]) + turns[|turns| - 1].tries
  }

  /** Where the outage stands after them: each is a step. */
  ghost function PhaseOf(turns: seq<Turn>): Phase {
    if turns == [] then Phase(0, 0, 0, 0, 0)
    else
      var before, t := turns[..|turns| - 1], turns[|turns| - 1];
      NextPhase(PhaseOf(before), t.how, AnyWritten(TriesOf(turns), |TriesOf(before)|), ReplayedBatches(TriesOf(turns)),
                t.superseded)
  }

  /** A submit failed exactly if its last write did. */
  ghost predicate FailsJustly(turns: seq<Turn>, max: int) {
    forall i :: 0 <= i < |turns| ==>
      (turns[i].how.Fails? <==> LastFails(TriesOf(turns[..i + 1]), |TriesOf(turns[..i])|, max))
  }

  ghost predicate TurnsKept(p: Params, g: Books) {
    forall k :: Opens(k, Outages) ==>
      TriesOf(g.turns) == g.h.tries && PhaseOf(g.turns) == g.h.phase && FailsJustly(g.turns, p.max)
  }

  lemma {:induction false} TurnsSnoc(p: Params, g: Books, g': Books, turn: Turn, retry: Option<int>,
        retry': Option<int>)
    requires TurnsKept(p, g) && OutageMoves(p, g, g', turn.how, retry, retry') && g'.turns == g.turns + [turn]
    requires turn == TurnOf(g, g', turn.how)
    ensures TurnsKept(p, g')
  {
    assert Opens(Outages, Outages) && Opens(Trying, Trying);
    var turns, n := g'.turns, |g.turns|;
    assert turns[..n] == g.turns && turns[..n + 1] == turns;
    assert TriesOf(turns) == g.h.tries + turn.tries == g'.h.tries;
    forall i | 0 <= i < |turns|
      ensures turns[i].how.Fails? <==> LastFails(TriesOf(turns[..i + 1]), |TriesOf(turns[..i])|, p.max)
    {
      if i < n {
        assert turns[..i + 1] == g.turns[..i + 1] && turns[..i] == g.turns[..i];
      }
    }
  }

  /** What a submit makes of the event log: everything it found carried and everything it made
      is returned, or carried on if it raised. */
  ghost predicate EventsMove(g: Books, carried: seq<Notice>, g': Books, carried': seq<Notice>, raised: bool,
        events: seq<Notice>) {
    && |g.h.log| <= |g'.h.log| && g'.h.log[..|g.h.log|] == g.h.log
    && events == carried + g'.h.log[|g.h.log|..]
    && Stamped(g'.h.log[|g.h.log|..], g'.now)
    && (if raised then g'.h.returned == g.h.returned && carried' == events
        else g'.h.returned == g.h.returned + events && carried' == [])
  }

  lemma {:induction false} EventsMoveOk(g0: Books, s0: State, g: Books, s: State, raised: bool, turn: Turn)
    requires EventsKept(g0, s0) && s0.events == [] && EventsKept(g, s) && s.carried == []
    requires g.inherited == s0.carried && g.h.returned == g0.h.returned
    ensures EventsMove(g0, s0.carried, CloseBook(g, s, raised, turn), CloseState(s, raised).carried, raised, s.events)
  {
    assert Opens(Telling, Telling);
    assert g.h.log == g0.h.log + g.own;
  }
}
