/**
  From the queue to the tables: coalescing, regrouping, spooling, retries and replay together
  leave what writing every record on its own, in order, would have left.
 */
module EndToEnd {
  import opened Upsert
  import opened Records
  import opened Writer
  import opened WriterTheorems
  import opened DatabaseWriter
  import opened Delivery
  import opened BufferedState
  import opened Buffered
  import opened Guarantees
  import opened RecordQueues
  import opened Coalescing
  import opened WriterThreads

  // --- the batches that took effect ------------------------------------------------------------

  /** What batches say to a key, in order. */
  function HeardAll(says: Says, batches: seq<seq<Record>>): seq<RowWrite> {
    if batches == [] then [] else HeardAll(says, batches[..|batches| - 1]) + Heard(says, batches[|batches| - 1])
  }

  /** What the committed ones say. */
  function HeardBy(says: Says, batches: seq<seq<Record>>, cs: seq<Committed>): seq<RowWrite> {
    if cs == [] then []
    else HeardBy(says, batches, cs[..|cs| - 1]) + Heard(says, Batch(batches, cs[|cs| - 1].id))
  }

  /** Every batch that says something has been committed. */
  ghost predicate SpeakersIn(says: Says, batches: seq<seq<Record>>, n: nat, ids: set<nat>)
    requires n <= |batches|
  {
    forall i :: 0 <= i < n && Heard(says, batches[i]) != [] ==> i in ids
  }

  /** Then what was committed, each once and in order, says what all the batches do. */
  lemma {:induction false} OthersSilent(says: Says, batches: seq<seq<Record>>, n: nat, o: seq<Committed>)
    requires n <= |batches| && StrictlyInOrder(o) && SpeakersIn(says, batches, n, Ids(o))
    requires forall i :: 0 <= i < |o| ==> o[i].id < n
    ensures HeardBy(says, batches, o) == HeardAll(says, batches[..n])
  {
    if n > 0 {
      var m := |o| - 1;
      assert batches[..n][..n - 1] == batches[..n - 1];
      if o != [] && o[m].id == n - 1 {
        OthersSilent(says, batches, n - 1, o[..m]);
      } else {
        NotAmong(o, n - 1);
        assert Heard(says, batches[n - 1]) == [];
        forall i | 0 <= i < |o| ensures o[i].id < n - 1 {
          assert i < m ==> o[i].id < o[m].id;
        }
        OthersSilent(says, batches, n - 1, o);
      }
    }
  }

  lemma {:induction false} NotAmong(o: seq<Committed>, id: nat)
    requires StrictlyInOrder(o) && (o != [] ==> o[|o| - 1].id < id)
    ensures id !in Ids(o)
  {
    if o != [] {
      var m := |o| - 1;
      assert m > 0 ==> o[m - 1].id < o[m].id;
      NotAmong(o[..m], id);
    }
  }

  /** A key that has not lapsed gets from a commit what its records say. */
  lemma {:induction false} SpokenCommit(cfg: Config, db: Db, rs: seq<Record>, now: int, k: Key)
    requires !k.NodeKey? && !Lapsed(cfg, k, now)
    ensures Get(Commit(cfg, db, rs, now).rows, k) == Fold(Get(db.rows, k), Heard(Saying(cfg, k), rs))
  {
    CommitAt(cfg, db, rs, now, k);
    HeardIs(cfg, rs, k);
  }

  ghost predicate Unlapsed(cfg: Config, k: Key, cs: seq<Committed>) {
    forall i :: 0 <= i < |cs| ==> !Lapsed(cfg, k, cs[i].now)
  }

  lemma {:induction false} ReplayAt(cfg: Config, db: Db, batches: seq<seq<Record>>, cs: seq<Committed>, k: Key)
    requires !k.NodeKey? && Unlapsed(cfg, k, cs)
    ensures Get(Replay(cfg, db, batches, cs).rows, k) == Fold(Get(db.rows, k), HeardBy(Saying(cfg, k), batches, cs))
  {
    if cs != [] {
      var init, c := cs[..|cs| - 1], cs[|cs| - 1];
      ReplayAt(cfg, db, batches, init, k);
      SpokenCommit(cfg, Replay(cfg, db, batches, init), Batch(batches, c.id), c.now, k);
      FoldAppend(Get(db.rows, k), HeardBy(Saying(cfg, k), batches, init), Heard(Saying(cfg, k), Batch(batches, c.id)));
    }
  }

  lemma {:induction false} OnceFrom(cs: seq<Committed>)
    ensures forall c :: c in Once(cs) ==> c in cs
  {
    if cs != [] {
      var n := |cs| - 1;
      OnceFrom(cs[..n]);
      OnceMoreFrom(Once(cs[..n]), cs[n]);
      forall c | c in Once(cs) ensures c in cs {
        assert c in Once(cs[..n]) || c == cs[n];
        assert c in cs[..n] ==> c in cs;
      }
    }
  }

  lemma {:induction false} OnceMoreFrom(o: seq<Committed>, c: Committed)
    ensures forall x :: x in OnceMore(o, c) ==> x in o || x == c
  {
    if o != [] && o[|o| - 1].id == c.id {
      var last := Committed(c.id, Min(o[|o| - 1].now, c.now));
      assert last == o[|o| - 1] || last == c;
      assert OnceMore(o, c) == o[..|o| - 1] + [last];
    }
  }

  lemma {:induction false} OnceAt(cfg: Config, start: Db, batches: seq<seq<Record>>, o: seq<Committed>, k: Key)
    requires !k.NodeKey? && Unlapsed(cfg, k, o) && StrictlyInOrder(o) && (forall c :: c in o ==> c.id < |batches|)
    requires SpeakersIn(Saying(cfg, k), batches, |batches|, Ids(o))
    ensures Get(Replay(cfg, start, batches, o).rows, k) == Fold(Get(start.rows, k), HeardAll(Saying(cfg, k), batches))
  {
    ReplayAt(cfg, start, batches, o, k);
    OthersSilent(Saying(cfg, k), batches, |batches|, o);
    assert batches[..|batches|] == batches;
  }

  /** Every batch that says something has been delivered. */
  ghost predicate SpeakersDelivered(says: Says, h: History) {
    |h.fates| == |h.batches| && forall i :: 0 <= i < |h.batches| && Heard(says, h.batches[i]) != [] ==>
        h.fates[i] == Delivered
  }

  lemma {:induction false} SpeakersCommitted(p: Params, says: Says, h: History, w: World)
    requires BooksKept(p, h, w) && SpeakersDelivered(says, h)
    ensures SpeakersIn(says, h.batches, |h.batches|, Ids(Once(h.commits)))
  {
    AcknowledgedCount(p, h, w);
  }

  lemma {:induction false} OnceUnlapsed(cfg: Config, k: Key, cs: seq<Committed>)
    requires Unlapsed(cfg, k, cs)
    ensures Unlapsed(cfg, k, Once(cs))
  {
    OnceFrom(cs);
    var o := Once(cs);
    forall i | 0 <= i < |o| ensures !Lapsed(cfg, k, o[i].now) {
      assert o[i] in cs;
    }
  }

  /** The tables at a key, of a writer all of whose submissions that speak to it took effect. */
  lemma {:induction false} TablesAt(p: Params, cfg: Config, start: Db, h: History, w: World, k: Key)
    requires Means(p, cfg, start) && BooksKept(p, h, w) && !k.NodeKey? && Unlapsed(cfg, k, h.commits)
    requires SpeakersDelivered(Saying(cfg, k), h)
    ensures Get(w.db.rows, k) == Fold(Get(start.rows, k), HeardAll(Saying(cfg, k), h.batches))
  {
    CommitsCount(p, cfg, start, h, w);
    SpeakersCommitted(p, Saying(cfg, k), h, w);
    OnceUnlapsed(cfg, k, h.commits);
    OnceAt(cfg, start, h.batches, Once(h.commits), k);
  }

  // --- the rounds -------------------------------------------------------------------------------

  /** Everything passed on, each round's events before its records. */
  function Story(passes: seq<Pass>): seq<Record> {
    if passes == [] then []
    else
      var p := passes[|passes| - 1];
      Story(passes[..|passes| - 1]) + (p.carried + p.window)
  }

  lemma {:induction false} HeardAllAppend(says: Says, xs: seq<seq<Record>>, ys: seq<seq<Record>>)
    ensures HeardAll(says, xs + ys) == HeardAll(says, xs) + HeardAll(says, ys)
  {
    if ys == [] {
      assert xs + ys == xs;
    } else {
      assert (xs + ys)[..|xs + ys| - 1] == xs + ys[..|ys| - 1];
      HeardAllAppend(says, xs, ys[..|ys| - 1]);
    }
  }

  lemma {:induction false} HeardNonempty(says: Says, rs: seq<Record>)
    ensures HeardAll(says, Nonempty(rs)) == Heard(says, rs)
  {
    if rs != [] {
      assert [rs][..0] == [];
    }
  }

  lemma {:induction false} PassHeard(says: Says, p: Pass)
    ensures HeardAll(says, BatchesOf(p)) == Heard(says, p.carried + DurableOf(p.window)) + Heard(says, LiveOf(p.window))
  {
    HeardAllAppend(says, Nonempty(p.carried + DurableOf(p.window)), Nonempty(LiveOf(p.window)));
    HeardNonempty(says, p.carried + DurableOf(p.window));
    HeardNonempty(says, LiveOf(p.window));
  }

  /** Live state says nothing to a durable key, so leaving it out changes nothing there. */
  lemma {:induction false} DurableHeard(says: Says, rs: seq<Record>)
    requires forall r :: IsLive(r) ==> says(r) == []
    ensures Heard(says, DurableOf(rs)) == Heard(says, rs)
  {
    if rs != [] {
      var init, r := rs[..|rs| - 1], rs[|rs| - 1];
      DurableHeard(says, init);
      if IsLive(r) {
        assert DurableOf(rs) == DurableOf(init) && Heard(says, rs) == Heard(says, init);
      } else {
        HeardSnoc(says, DurableOf(init), r);
      }
    }
  }

  lemma {:induction false} DurablePass(says: Says, p: Pass)
    requires forall r :: IsLive(r) ==> says(r) == []
    ensures HeardAll(says, BatchesOf(p)) == Heard(says, p.carried + p.window)
  {
    PassHeard(says, p);
    HeardAppend(says, p.carried, DurableOf(p.window));
    HeardAppend(says, p.carried, p.window);
    DurableHeard(says, p.window);
    TakenLive(p.window);
    HeardNothing(says, LiveOf(p.window));
  }

  /** At a durable key the submissions say just what was put. */
  lemma {:induction false} DurableStory(says: Says, passes: seq<Pass>)
    requires forall r :: IsLive(r) ==> says(r) == []
    ensures HeardAll(says, Submissions(passes)) == Heard(says, Story(passes))
  {
    if passes != [] {
      var init, p := passes[..|passes| - 1], passes[|passes| - 1];
      DurableStory(says, init);
      DurablePass(says, p);
      HeardAllAppend(says, Submissions(init), BatchesOf(p));
      HeardAppend(says, Story(init), p.carried + p.window);
    }
  }

  /** At a live key a round says the one thing that stands for its window. */
  ghost predicate SaysJoined(says: Says, p: Pass) {
    HeardAll(says, BatchesOf(p)) == Joined(Heard(says, p.window)) && Heard(says, p.carried) == []
  }

  lemma {:induction false} LivePass(cfg: Config, p: Pass, system: string, k: Key)
    requires IsLiveKey(k) && AllEvents(p.carried) && AllSent(p.window, system)
    ensures SaysJoined(Saying(cfg, k), p)
  {
    var says := Saying(cfg, k);
    PassHeard(says, p);
    DurableNotLive(p.window);
    DurableAt(cfg, p.carried + DurableOf(p.window), k);
    DurableAt(cfg, p.carried, k);
    TakenAt(cfg, p.window, system, k);
  }

  /** The carried events say nothing to a live key. */
  lemma {:induction false} StoryTaken(says: Says, passes: seq<Pass>)
    requires forall i :: 0 <= i < |passes| ==> SaysJoined(says, passes[i])
    ensures Heard(says, Story(passes)) == Heard(says, TakenBy(passes))
  {
    if passes != [] {
      var init, p := passes[..|passes| - 1], passes[|passes| - 1];
      StoryTaken(says, init);
      assert SaysJoined(says, p);
      HeardAppend(says, TakenBy(init), p.window);
      HeardAppend(says, p.carried, p.window);
      HeardAppend(says, Story(init), p.carried + p.window);
      assert [] + Heard(says, p.window) == Heard(says, p.window);
    }
  }

  /** If every write put takes effect, the rounds leave what all of them would. */
  lemma {:induction false} LiveStory(says: Says, c: Option<Cell<Column, Content>>, passes: seq<Pass>, keep: bool)
    requires forall i :: 0 <= i < |passes| ==> SaysJoined(says, passes[i])
    requires Rising(c, Heard(says, TakenBy(passes)), keep)
    ensures Fold(c, HeardAll(says, Submissions(passes))) == Fold(c, Heard(says, TakenBy(passes)))
  {
    if passes != [] {
      var init, p := passes[..|passes| - 1], passes[|passes| - 1];
      var vs, ws := Heard(says, TakenBy(init)), Heard(says, p.window);
      HeardAppend(says, TakenBy(init), p.window);
      RisingSplit(c, vs, ws, keep);
      assert SaysJoined(says, p);
      LiveStory(says, c, init, keep);
      HeardAllAppend(says, Submissions(init), BatchesOf(p));
      JoinedNext(c, HeardAll(says, Submissions(init)), vs, ws, keep);
    }
  }

  lemma {:induction false} PassesSent(passes: seq<Pass>, system: string, i: nat)
    requires AllSent(TakenBy(passes), system) && i < |passes|
    ensures AllSent(passes[i].window, system)
  {
    var n := |passes| - 1;
    var earlier, last := TakenBy(passes[..n]), passes[n].window;
    assert forall j :: 0 <= j < |earlier| ==> TakenBy(passes)[j] == earlier[j];
    assert forall j :: 0 <= j < |last| ==> TakenBy(passes)[|earlier| + j] == last[j];
    if i < n {
      PassesSent(passes[..n], system, i);
    }
  }

  lemma {:induction false} LivePasses(cfg: Config, db: Db, passes: seq<Pass>, system: string, k: Key)
    requires IsLiveKey(k) && EventsCarried(passes) && AllSent(TakenBy(passes), system)
             && NeverBack(cfg, db, TakenBy(passes))
    ensures Fold(Get(db.rows, k), HeardAll(Saying(cfg, k), Submissions(passes)))
            == Fold(Get(db.rows, k), Heard(Saying(cfg, k), Story(passes)))
  {
    forall i | 0 <= i < |passes| ensures SaysJoined(Saying(cfg, k), passes[i]) {
      PassesSent(passes, system, i);
      LivePass(cfg, passes[i], system, k);
    }
    NeverBackRises(cfg, db, TakenBy(passes), system, k);
    StoryTaken(Saying(cfg, k), passes);
    LiveStory(Saying(cfg, k), Get(db.rows, k), passes, k.LiveNodeKey?);
  }

  lemma {:induction false} DurablePasses(cfg: Config, passes: seq<Pass>, k: Key)
    requires !k.NodeKey? && !IsLiveKey(k)
    ensures HeardAll(Saying(cfg, k), Submissions(passes)) == Heard(Saying(cfg, k), Story(passes))
  {
    forall r: Record | IsLive(r) ensures Saying(cfg, k)(r) == [] {
      RecordItem(cfg, r);
      ForOther(ItemOf(cfg, r).ss, r.kind, k);
    }
    DurableStory(Saying(cfg, k), passes);
  }

  lemma {:induction false} StoryAlone(cfg: Config, db: Db, rs: seq<Record>, at: int, k: Key)
    requires !k.NodeKey? && !Lapsed(cfg, k, at)
    ensures Get(After(Alone(cfg, at), db, rs).rows, k) == Fold(Get(db.rows, k), Heard(Saying(cfg, k), rs))
  {
    forall d, r ensures Get(Alone(cfg, at)(d, r).rows, k) == Fold(Get(d.rows, k), Saying(cfg, k)(r)) {
      SpokenCommit(cfg, d, [r], at, k);
      HeardOne(Saying(cfg, k), r);
    }
    AloneAt(Alone(cfg, at), Saying(cfg, k), db, rs, k);
  }

  /** The submissions of the rounds, all that speak to the key having arrived. */
  lemma {:induction false} PassesAt(p: Params, cfg: Config, start: Db, h: History, w: World, passes: seq<Pass>,
        system: string, at: int, k: Key)
    requires Means(p, cfg, start) && BooksKept(p, h, w) && h.batches == Submissions(passes) && EventsCarried(passes)
    requires !k.NodeKey? && !Lapsed(cfg, k, at) && Unlapsed(cfg, k, h.commits) && SpeakersDelivered(Saying(cfg, k), h)
    requires IsLiveKey(k) ==> AllSent(TakenBy(passes), system) && NeverBack(cfg, start, TakenBy(passes))
    ensures Get(w.db.rows, k) == Get(After(Alone(cfg, at), start, Story(passes)).rows, k)
  {
    TablesAt(p, cfg, start, h, w, k);
    StoryAlone(cfg, start, Story(passes), at, k);
    if IsLiveKey(k) {
      LivePasses(cfg, start, passes, system, k);
    } else {
      DurablePasses(cfg, passes, k);
    }
  }

  /**
    The whole way: a writer thread that began with an empty spool, in any state any run can reach.
    If every submission that says something to a row has been delivered, however late, often or
    regrouped, and not once the row was beyond retention, the row is as if every record taken from
    the queue, and every event, had been written on its own and in order; for a row of live state,
    which is coalesced on the way, if no node's live times went back.
   */
  lemma {:induction false} QueueToTables(t: WriterThread, system: string, at: int, k: Key)
    requires t.Valid() && t.before == [] && !k.NodeKey? && !Lapsed(t.buffered.db.cfg, k, at)
    requires Unlapsed(t.buffered.db.cfg, k, t.buffered.g.h.commits)
    requires SpeakersDelivered(Saying(t.buffered.db.cfg, k), t.buffered.g.h)
    requires IsLiveKey(k) ==>
               AllSent(t.queue.taken, system) && NeverBack(t.buffered.db.cfg, t.buffered.start, t.queue.taken)
    ensures Get(t.buffered.db.db.rows, k)
            == Get(After(Alone(t.buffered.db.cfg, at), t.buffered.start, Story(t.passes)).rows, k)
  {
    var b := t.buffered;
    RoundsOf(t);
    PassesAt(b.p, b.db.cfg, b.start, b.g.h, b.g.w, t.passes, system, at, k);
  }

  lemma {:induction false} RoundsOf(t: WriterThread)
    requires t.Valid() && t.before == []
    ensures EventsCarried(t.passes) && t.buffered.g.h.batches == Submissions(t.passes)
  {
    assert Sealing.Opens(Sealing.Telling, Sealing.Telling);
    assert [] + Submissions(t.passes) == Submissions(t.passes);
  }
}
