/**
  Exactly when coalescing a window of the queue (node_monitor/collector/record_queue.py) leaves what
  writing each of its records would: for a live row of each kind, and for first_seen in `nodes`.
 */
module Windows {
  import opened Upsert
  import Codec
  import opened Records
  import opened Writer
  import opened WriterTheorems
  import opened RecordQueues
  import opened Coalescing
  import opened Superseding
  import opened Regrouping

  // --- snapshots ---------------------------------------------------------------------------------

  lemma {:induction false} JoinedRank(ws: seq<RowWrite>, keep: bool)
    requires AllPlain(ws, keep) && ws != []
    ensures |Joined(ws)| == 1 && Plain(Joined(ws)[0], keep) && Joined(ws)[0].rank == ws[|ws| - 1].rank
    ensures !keep ==> Joined(ws)[0] == ws[|ws| - 1]
  {
    if |ws| > 1 {
      JoinedRank(ws[..|ws| - 1], keep);
    }
  }

  /** If a window's last row for a key is older than one before it, coalescing shows: an empty
      table ends with the last row's time instead of the newest. */
  lemma {:induction false} BackwardsShows(ws: seq<RowWrite>, keep: bool, i: nat)
    requires AllPlain(ws, keep) && i < |ws| && !Passes(ws[i].rank, ws[|ws| - 1].rank)
    ensures Fold(None, Joined(ws)) != Fold(None, ws)
  {
    JoinedRank(ws, keep);
    assert Joined(ws)[..0] == [];
    FoldRanksHighest(None, ws, i);
    FoldSome(None, ws, keep);
  }

  /** A node's coalesced snapshots do what all of them would, whatever is stored, exactly if the
      last is no older than any. */
  lemma {:induction false} SnapshotWindowExactly(ws: seq<RowWrite>)
    requires AllPlain(ws, false) && ws != []
    ensures (forall i :: 0 <= i < |ws| ==> Passes(ws[i].rank, ws[|ws| - 1].rank))
            <==> forall c :: Fold(c, Joined(ws)) == Fold(c, ws)
  {
    var n := |ws| - 1;
    assert ws == ws[..n] + [ws[n]];
    JoinedRank(ws, false);
    assert Joined(ws)[..0] == [];
    if i :| 0 <= i < |ws| && !Passes(ws[i].rank, ws[n].rank) {
      BackwardsShows(ws, false, i);
    } else {
      SnapshotCovers(ws[..n], ws[n]);
      forall c ensures Fold(c, Joined(ws)) == Fold(c, ws) { CoveredAt(c, ws[..n], ws[n], false); }
    }
  }

  // --- partial rows ------------------------------------------------------------------------------

  /** The rows merged in order. */
  function Merged(ws: seq<RowWrite>): map<Column, Content> {
    if ws == [] then map[] else Merged(ws[..|ws| - 1]) + ws[|ws| - 1].update
  }

  /** Those of one time. */
  function OfTime(ws: seq<RowWrite>, time: Option<int>): seq<RowWrite> {
    if ws == [] then []
    else OfTime(ws[..|ws| - 1], time) + if ws[|ws| - 1].rank == time then [ws[|ws| - 1]] else []
  }

  lemma {:induction false} MergedOfTime(ws: seq<RowWrite>, w: RowWrite, time: Option<int>)
    ensures Merged(OfTime(ws + [w], time)) == Merged(OfTime(ws, time)) + if w.rank == time then w.update else map[]
    ensures Merged(ws + [w]) == Merged(ws) + w.update
  {
    assert (ws + [w])[..|ws|] == ws;
    var vs := OfTime(ws, time);
    if w.rank == time {
      assert (vs + [w])[..|vs|] == vs;
    } else {
      assert vs + [] == vs;
      assert Merged(vs) + map[] == Merged(vs);
    }
  }

  lemma {:induction false} JoinedIs(ws: seq<RowWrite>)
    requires AllPlain(ws, true) && ws != []
    ensures Joined(ws) == [Write(ws[|ws| - 1].rank, Merged(ws), Merged(ws), true)]
  {
    var n := |ws| - 1;
    assert ws == ws[..n] + [ws[n]];
    if n == 0 {
      assert Merged(ws) == map[] + ws[0].update == ws[0].update;
      assert Merged(ws[..0]) == map[];
    } else {
      JoinedIs(ws[..n]);
    }
  }

  /** No row is newer than `time`. */
  ghost predicate NoneNewer(ws: seq<RowWrite>, time: Option<int>) {
    forall i :: 0 <= i < |ws| ==> Passes(ws[i].rank, time)
  }

  /** On a row as new as that, exactly the rows of that time take effect. */
  lemma {:induction false} FoldAtTime(z: Cell<Column, Content>, ws: seq<RowWrite>)
    requires AllPlain(ws, true) && z.rank.Some? && NoneNewer(ws, z.rank)
    ensures Fold(Some(z), ws) == Some(Cell(z.rank, z.cols + Merged(OfTime(ws, z.rank))))
  {
    if ws == [] {
      assert z.cols + map[] == z.cols;
    } else {
      var init, w := ws[..|ws| - 1], ws[|ws| - 1];
      assert ws == init + [w];
      FoldAtTime(z, init);
      MergedOfTime(init, w, z.rank);
      StepAtTime(z, Merged(OfTime(init, z.rank)), w);
    }
  }

  lemma {:induction false} StepAtTime(z: Cell<Column, Content>, m: map<Column, Content>, w: RowWrite)
    requires Plain(w, true) && Passes(w.rank, z.rank)
    ensures Step(Some(Cell(z.rank, z.cols + m)), w)
            == Some(Cell(z.rank, z.cols + (m + if w.rank == z.rank then w.update else map[])))
  {
    assert (z.cols + m) + w.update == z.cols + (m + w.update);
    assert m + map[] == m;
  }

  /** What rows leave of an older one, or of none: what those of the newest time set, and for the
      columns none of the rows sets what was there. */
  ghost predicate Leaves(c: Option<Cell<Column, Content>>, ws: seq<RowWrite>, time: Option<int>,
        y: Option<Cell<Column, Content>>) {
    && (ws == [] ==> y == c)
    && (ws != [] ==> y.Some? && y.value.rank.Some?)
    && (y.Some? ==> Passes(y.value.rank, time))
    && (if OfTime(ws, time) == [] then Merged(OfTime(ws, time)) == map[] else y.Some? && y.value.rank == time)
    && (y.Some? ==> Sets(Merged(OfTime(ws, time)), y.value.cols) && Spares(c, Merged(ws), y.value.cols))
  }

  ghost predicate Sets(m: map<Column, Content>, cols: map<Column, Content>) {
    forall x :: x in m ==> x in cols && cols[x] == m[x]
  }

  ghost predicate Spares(c: Option<Cell<Column, Content>>, m: map<Column, Content>, cols: map<Column, Content>) {
    forall x :: x !in m ==>
      (x in cols <==> c.Some? && x in c.value.cols)
      && (x in cols && c.Some? && x in c.value.cols ==> cols[x] == c.value.cols[x])
  }

  lemma {:induction false} SetsMore(m: map<Column, Content>, cols: map<Column, Content>, u: map<Column, Content>)
    requires Sets(m, cols)
    ensures Sets(m + u, cols + u)
  {
  }

  lemma {:induction false} SparesMore(c: Option<Cell<Column, Content>>, m: map<Column, Content>,
        cols: map<Column, Content>, u: map<Column, Content>)
    requires Spares(c, m, cols)
    ensures Spares(c, m + u, cols + u) && Spares(c, m + u, cols)
  {
  }

  lemma {:induction false} FoldLeaves(c: Option<Cell<Column, Content>>, ws: seq<RowWrite>, time: Option<int>)
    requires AllPlain(ws, true) && NoneNewer(ws, time) && (c.Some? ==> Passes(c.value.rank, time))
    ensures Leaves(c, ws, time, Fold(c, ws))
  {
    if ws != [] {
      var init, w := ws[..|ws| - 1], ws[|ws| - 1];
      assert ws == init + [w];
      FoldLeaves(c, init, time);
      LeavesStep(c, init, w, time, Fold(c, init));
    }
  }

  lemma {:induction false} LeavesStep(c: Option<Cell<Column, Content>>, ws: seq<RowWrite>, w: RowWrite,
        time: Option<int>, y: Option<Cell<Column, Content>>)
    requires Leaves(c, ws, time, y) && Plain(w, true) && Passes(w.rank, time)
    requires ws == [] && c.Some? ==> c.value.rank.Some?
    ensures Leaves(c, ws + [w], time, Step(y, w))
  {
    if y.None? {
      LeavesFirst(w, time);
      assert ws + [w] == [w];
    } else if Passes(y.value.rank, w.rank) {
      LeavesPassed(c, ws, w, time, y.value);
    } else {
      LeavesBlocked(c, ws, w, time, y.value);
    }
  }

  lemma {:induction false} LeavesFirst(w: RowWrite, time: Option<int>)
    requires Plain(w, true) && Passes(w.rank, time)
    ensures Leaves(None, [w], time, Some(Cell(w.rank, w.insert)))
  {
    var none: seq<RowWrite> := [];
    assert none + [w] == [w];
    MergedOfTime(none, w, time);
    TimeSnoc(none, w, time);
    FirstSets(w.update, w.rank == time);
  }

  lemma {:induction false} FirstSets(u: map<Column, Content>, newest: bool)
    ensures Sets(map[] + if newest then u else map[], u) && Spares(None, map[] + u, u)
  {
  }

  lemma {:induction false} LeavesPassed(c: Option<Cell<Column, Content>>, ws: seq<RowWrite>, w: RowWrite,
        time: Option<int>, y: Cell<Column, Content>)
    requires Leaves(c, ws, time, Some(y)) && Plain(w, true) && Passes(w.rank, time) && Passes(y.rank, w.rank)
    ensures Leaves(c, ws + [w], time, Some(Cell(w.rank, y.cols + w.update)))
  {
    var m := Merged(OfTime(ws, time));
    MergedOfTime(ws, w, time);
    TimeSnoc(ws, w, time);
    SetsMore(m, y.cols, w.update);
    SparesMore(c, Merged(ws), y.cols, w.update);
    if w.rank != time {
      assert OfTime(ws, time) == [] && m + map[] == map[];
    }
  }

  lemma {:induction false} LeavesBlocked(c: Option<Cell<Column, Content>>, ws: seq<RowWrite>, w: RowWrite,
        time: Option<int>, y: Cell<Column, Content>)
    requires Leaves(c, ws, time, Some(y)) && y.rank.Some? && Plain(w, true) && Passes(w.rank, time)
    requires !Passes(y.rank, w.rank)
    ensures Leaves(c, ws + [w], time, Some(y))
  {
    var m := Merged(OfTime(ws, time));
    assert w.rank != time;
    MergedOfTime(ws, w, time);
    TimeSnoc(ws, w, time);
    SparesMore(c, Merged(ws), y.cols, w.update);
    assert m + map[] == m && OfTime(ws, time) + [] == OfTime(ws, time);
  }

  lemma {:induction false} TimeSnoc(ws: seq<RowWrite>, w: RowWrite, time: Option<int>)
    ensures OfTime(ws + [w], time) == OfTime(ws, time) + if w.rank == time then [w] else []
  {
    assert (ws + [w])[..|ws|] == ws;
  }

  /** The last row is no older than any, and the rows of its time alone, merged, are all of them
      merged. */
  ghost predicate LastStands(ws: seq<RowWrite>) {
    ws != [] ==>
      var time := ws[|ws| - 1].rank; NoneNewer(ws, time) && Merged(OfTime(ws, time)) == Merged(ws)
  }

  lemma {:induction false} OfLastTime(ws: seq<RowWrite>)
    requires ws != []
    ensures OfTime(ws, ws[|ws| - 1].rank) != []
  {
  }

  lemma {:induction false} StandsAt(c: Option<Cell<Column, Content>>, ws: seq<RowWrite>)
    requires AllPlain(ws, true) && ws != [] && LastStands(ws)
    ensures Fold(c, Joined(ws)) == Fold(c, ws)
  {
    var time := ws[|ws| - 1].rank;
    JoinedIs(ws);
    var j := Joined(ws)[0];
    assert Joined(ws)[..0] == [];
    assert Fold(c, Joined(ws)) == Step(c, j);
    if c.Some? && !Passes(c.value.rank, time) {
      forall i | 0 <= i < |ws| ensures !Passes(c.value.rank, ws[i].rank) { assert Passes(ws[i].rank, time); }
      FoldOutranked(c.value, ws);
    } else {
      FoldLeaves(c, ws, time);
      OfLastTime(ws);
      LeavesMerged(c, ws, time, Fold(c, ws), j);
    }
  }

  /** If the newest rows set all there is to set, that is what is left. */
  lemma {:induction false} LeavesMerged(c: Option<Cell<Column, Content>>, ws: seq<RowWrite>, time: Option<int>,
        y: Option<Cell<Column, Content>>, j: RowWrite)
    requires Leaves(c, ws, time, y) && OfTime(ws, time) != [] && Merged(OfTime(ws, time)) == Merged(ws)
    requires j == Write(time, Merged(ws), Merged(ws), true) && (c.Some? ==> Passes(c.value.rank, time))
    ensures y == Step(c, j)
  {
    if c.Some? {
      assert y.value.cols == c.value.cols + Merged(ws);
    } else {
      assert y.value.cols == Merged(ws);
    }
  }

  /** A node's coalesced partial rows do what all of them would, whatever is stored, exactly then. */
  lemma {:induction false} PartialWindowExactly(ws: seq<RowWrite>)
    requires AllPlain(ws, true) && ws != []
    ensures LastStands(ws) <==> forall c :: Fold(c, Joined(ws)) == Fold(c, ws)
  {
    var time := ws[|ws| - 1].rank;
    if LastStands(ws) {
      forall c ensures Fold(c, Joined(ws)) == Fold(c, ws) { StandsAt(c, ws); }
    } else if i :| 0 <= i < |ws| && !Passes(ws[i].rank, time) {
      BackwardsShows(ws, true, i);
    } else {
      UnmergedShows(ws);
    }
  }

  /** If the rows of the last's time do not set all that is merged, it shows on a row of that time. */
  lemma {:induction false} UnmergedShows(ws: seq<RowWrite>)
    requires AllPlain(ws, true) && ws != []
    requires var time := ws[|ws| - 1].rank; NoneNewer(ws, time) && Merged(OfTime(ws, time)) != Merged(ws)
    ensures var z := Some(Cell(ws[|ws| - 1].rank, map[])); Fold(z, Joined(ws)) != Fold(z, ws)
  {
    var z := Cell(ws[|ws| - 1].rank, map[]);
    FoldAtTime(z, ws);
    JoinedIs(ws);
    OneJoined(z, Joined(ws), Merged(ws));
    assert map[] + Merged(OfTime(ws, z.rank)) == Merged(OfTime(ws, z.rank));
  }

  lemma {:induction false} OneJoined(z: Cell<Column, Content>, js: seq<RowWrite>, m: map<Column, Content>)
    requires js == [Write(z.rank, m, m, true)] && z.rank.Some? && z.cols == map[]
    ensures Fold(Some(z), js) == Some(Cell(z.rank, m))
  {
    assert js[..0] == [];
    assert map[] + m == m;
  }

  // --- a window ----------------------------------------------------------------------------------

  /** What a window says to a live key stands although it is coalesced. */
  ghost predicate WindowStands(ws: seq<RowWrite>, keep: bool) {
    if keep then LastStands(ws) else ws != [] ==> NoneNewer(ws, ws[|ws| - 1].rank)
  }

  /** The live row a coalesced window leaves is the one that writing its records one by one does. */
  ghost predicate CoalescesAt(cfg: Config, db: Db, rs: seq<Record>, now: int, at: int, k: Key) {
    Get(Commit(cfg, db, LiveOf(rs), now).rows, k) == Get(After(Alone(cfg, at), db, rs).rows, k)
  }

  lemma {:induction false} WindowAt(cfg: Config, db: Db, rs: seq<Record>, system: string, now: int, at: int, k: Key)
    requires AllSent(rs, system) && IsLiveKey(k)
    ensures var ws := Heard(Saying(cfg, k), rs);
            CoalescesAt(cfg, db, rs, now, at, k) <==> Fold(Get(db.rows, k), Joined(ws)) == Fold(Get(db.rows, k), ws)
  {
    LiveCommit(cfg, db, LiveOf(rs), now, k);
    TakenAt(cfg, rs, system, k);
    forall d, r ensures Get(Alone(cfg, at)(d, r).rows, k) == Fold(Get(d.rows, k), Saying(cfg, k)(r)) {
      LiveCommit(cfg, d, [r], at, k);
      HeardOne(Saying(cfg, k), r);
    }
    AloneAt(Alone(cfg, at), Saying(cfg, k), db, rs, k);
  }

  lemma {:induction false} StandsExactly(ws: seq<RowWrite>, keep: bool)
    requires AllPlain(ws, keep)
    ensures WindowStands(ws, keep) <==> forall c :: Fold(c, Joined(ws)) == Fold(c, ws)
  {
    if ws != [] {
      if keep { PartialWindowExactly(ws); } else { SnapshotWindowExactly(ws); }
    }
  }

  /**
    Coalescing a window is exact for a live row, whatever the tables held, if and only if, for a
    snapshot, the node's last is no older than any other; for a partial row, also the rows of the
    last's time alone set each column to what all of them, merged, do.
   */
  lemma {:induction false} CoalescedExactly(cfg: Config, rs: seq<Record>, system: string, now: int, at: int, k: Key)
    requires AllSent(rs, system) && IsLiveKey(k)
    ensures WindowStands(Heard(Saying(cfg, k), rs), k.LiveNodeKey?)
            <==> forall db :: CoalescesAt(cfg, db, rs, now, at, k)
  {
    var ws := Heard(Saying(cfg, k), rs);
    forall r ensures AllPlain(Saying(cfg, k)(r), k.LiveNodeKey?) { SaysPlainly(cfg, r, k); }
    RecordsPlain(Saying(cfg, k), rs, k.LiveNodeKey?);
    StandsExactly(ws, k.LiveNodeKey?);
    if WindowStands(ws, k.LiveNodeKey?) {
      forall db ensures CoalescesAt(cfg, db, rs, now, at, k) { WindowAt(cfg, db, rs, system, now, at, k); }
    } else {
      var c :| Fold(c, Joined(ws)) != Fold(c, ws);
      WindowAt(cfg, Holding(k, c), rs, system, now, at, k);
      assert Get(Holding(k, c).rows, k) == c;
      assert !CoalescesAt(cfg, Holding(k, c), rs, now, at, k);
    }
  }

  lemma {:induction false} SaysPlainly(cfg: Config, r: Record, k: Key)
    requires IsLiveKey(k)
    ensures AllPlain(Saying(cfg, k)(r), k.LiveNodeKey?)
  {
    SaysOne(cfg, r, k);
    if IsLive(r) {
      LivePlain(cfg, r);
    }
  }

  // --- a partial row that comes late ---------------------------------------------------------------

  function Partial(at: int, more: Row): Record {
    Record(LiveNode, map["system" := Codec.Str("s"), "node" := Codec.Str("n"),
                         "updated_at" := Codec.Time(Codec.Aware(at)),
                         "session_state" := Codec.Str("up")] + more)
  }

  /** Rows at 5, 3 and 7 of which only the one that comes late has load1: the tables would never
      have taken it, but coalesced it rides along with the last. */
  function LateRow(): seq<Record> {
    [Partial(5, map[]), Partial(3, map["load1" := Codec.Real(1.0)]), Partial(7, map[])]
  }

  lemma {:induction false} PartialSays(cfg: Config, at: int, more: Row) returns (w: RowWrite)
    requires "load1" in cfg.liveNodeColumns && more.Keys <= {"load1"}
    ensures Sent(Partial(at, more), "s") && Saying(cfg, LiveNodeKey("s", "n"))(Partial(at, more)) == [w]
    ensures w.rank == Some(at) && (Named("load1") in w.update <==> "load1" in more)
  {
    var r := Partial(at, more);
    assert At(r.row, "system") == Codec.Str("s") && At(r.row, "node") == Codec.Str("n");
    assert At(r.row, "updated_at") == Codec.Time(Codec.Aware(at)) && At(r.row, "session_state") == Codec.Str("up");
    SaysOne(cfg, r, LiveNodeKey("s", "n"));
    w := LiveStmt(cfg, r).write;
  }

  lemma {:induction false} HeardThree(says: Coalescing.Says, a: Record, b: Record, c: Record, u: RowWrite, v: RowWrite,
        w: RowWrite)
    requires says(a) == [u] && says(b) == [v] && says(c) == [w]
    ensures Heard(says, [a, b, c]) == [u, v, w]
  {
    HeardOne(says, a);
    HeardSnoc(says, [a], b);
    HeardSnoc(says, [a, b], c);
    assert [a] + [b] == [a, b] && [a, b] + [c] == [a, b, c];
  }

  lemma {:induction false} LateColumn(u: RowWrite, v: RowWrite, w: RowWrite, x: Column)
    requires u.rank != w.rank && v.rank != w.rank && x in v.update && x !in w.update
    ensures !LastStands([u, v, w])
  {
    var ws := [u] + [v] + [w];
    assert ws == [u, v, w];
    MergedOfTime([], u, w.rank);
    MergedOfTime([u], v, w.rank);
    MergedOfTime([u] + [v], w, w.rank);
    assert [] + [u] == [u];
  }

  lemma {:induction false} LateRowSays(cfg: Config) returns (u: RowWrite, v: RowWrite, w: RowWrite)
    requires "load1" in cfg.liveNodeColumns
    ensures AllSent(LateRow(), "s") && Heard(Saying(cfg, LiveNodeKey("s", "n")), LateRow()) == [u, v, w]
    ensures u.rank != w.rank && v.rank != w.rank && Named("load1") in v.update && Named("load1") !in w.update
  {
    u := PartialSays(cfg, 5, map[]);
    v := PartialSays(cfg, 3, map["load1" := Codec.Real(1.0)]);
    w := PartialSays(cfg, 7, map[]);
    ThreeSent(Saying(cfg, LiveNodeKey("s", "n")), Partial(5, map[]), Partial(3, map["load1" := Codec.Real(1.0)]),
              Partial(7, map[]), u, v, w, "s");
  }

  lemma {:induction false} ThreeSent(says: Coalescing.Says, a: Record, b: Record, c: Record, u: RowWrite, v: RowWrite,
        w: RowWrite, system: string)
    requires says(a) == [u] && says(b) == [v] && says(c) == [w]
    requires Sent(a, system) && Sent(b, system) && Sent(c, system)
    ensures AllSent([a, b, c], system) && Heard(says, [a, b, c]) == [u, v, w]
  {
    HeardThree(says, a, b, c, u, v, w);
  }

  /** No row is newer than the last, and yet coalescing shows. */
  lemma {:induction false} LateRowShows(cfg: Config, now: int, at: int)
    requires "load1" in cfg.liveNodeColumns
    ensures !forall db :: CoalescesAt(cfg, db, LateRow(), now, at, LiveNodeKey("s", "n"))
  {
    var u, v, w := LateRowSays(cfg);
    LateColumn(u, v, w, Named("load1"));
    CoalescedExactly(cfg, LateRow(), "s", now, at, LiveNodeKey("s", "n"));
  }

  // --- first_seen ----------------------------------------------------------------------------------

  lemma {:induction false} NodeSays(cfg: Config, r: Record)
    requires r.kind == LiveNode
    ensures WriterTheorems.Says(cfg, [r], NodeWriteOf(r).key) == [NodeWriteOf(r).write]
  {
    var k := NodeWriteOf(r).key;
    assert Items(cfg, [r]) == [ItemOf(cfg, r)];
    OneShare(ItemOf(cfg, r), NodeHardware, k);
    OneShare(ItemOf(cfg, r), LiveNode, k);
    NodeShare(cfg, r);
  }

  lemma {:induction false} SeenAt(cfg: Config, db: Db, r: Record, now: int)
    requires r.kind == LiveNode
    ensures var k, t := NodeWriteOf(r).key, LiveTime(r);
            Get(Commit(cfg, db, [r], now).firstSeen, k)
            == Some(if Get(db.firstSeen, k).Some? && Get(db.firstSeen, k).value <= t
                    then Get(db.firstSeen, k).value
                    else t)
  {
    CommitAt(cfg, db, [r], now, NodeWriteOf(r).key);
    NodeSays(cfg, r);
    assert [NodeWriteOf(r).write][..0] == [];
  }

  /** Live rows of one node. */
  ghost predicate OneNode(rs: seq<Record>, node: Codec.Value, system: string) {
    forall i :: 0 <= i < |rs| ==> rs[i].kind == LiveNode && Sent(rs[i], system) && NodeOf(rs[i]) == node
  }

  /** They are taken as one row, of the last's time. */
  lemma {:induction false} OneWaits(rs: seq<Record>, node: Codec.Value, system: string) returns (m: Record)
    requires OneNode(rs, node, system) && rs != []
    ensures LiveOf(rs) == [m] && m.kind == LiveNode && Sent(m, system) && NodeOf(m) == node
    ensures LiveTime(m) == LiveTime(rs[|rs| - 1])
  {
    var init, r := rs[..|rs| - 1], rs[|rs| - 1];
    NoSnapshots(rs);
    if init == [] {
      m := r;
      assert NodesOf(init) == [];
    } else {
      NoSnapshots(init);
      var a := OneWaits(init, node, system);
      m := Combined(a, r);
      CombinedSent(a, r, system);
      MergedIdentity(a.row, r.row, system);
      assert NodesOf(rs) == Entered([a], r, true) == [m];
    }
  }

  lemma {:induction false} NoSnapshots(rs: seq<Record>)
    requires forall i :: 0 <= i < |rs| ==> rs[i].kind == LiveNode
    ensures ProcessesOf(rs) == [] && LiveOf(rs) == NodesOf(rs)
  {
    if rs != [] {
      NoSnapshots(rs[..|rs| - 1]);
    }
  }

  /** The earliest of a stored time and the rows'. */
  function Soonest(stored: Option<int>, rs: seq<Record>): Option<int> {
    if rs == [] then stored
    else
      var e, t := Soonest(stored, rs[..|rs| - 1]), LiveTime(rs[|rs| - 1]);
      if e.Some? && e.value <= t then e else Some(t)
  }

  lemma {:induction false} SeenAlone(cfg: Config, db: Db, rs: seq<Record>, node: Codec.Value, system: string,
        at: int, k: Key)
    requires OneNode(rs, node, system) && node.Str? && k == NodeKey(system, node.s)
    ensures Get(After(Alone(cfg, at), db, rs).firstSeen, k) == Soonest(Get(db.firstSeen, k), rs)
  {
    if rs != [] {
      var init, r := rs[..|rs| - 1], rs[|rs| - 1];
      SeenAlone(cfg, db, init, node, system, at, k);
      SeenAt(cfg, After(Alone(cfg, at), db, init), r, at);
    }
  }

  lemma {:induction false} SoonestIs(stored: Option<int>, rs: seq<Record>)
    ensures stored.Some? || rs != [] ==> Soonest(stored, rs).Some?
    ensures stored.Some? ==> Soonest(stored, rs).value <= stored.value
    ensures forall i :: 0 <= i < |rs| ==> Soonest(stored, rs).value <= LiveTime(rs[i])
    ensures rs == [] ==> Soonest(stored, rs) == stored
    ensures rs != [] ==>
              Soonest(stored, rs) == stored || exists i :: 0 <= i < |rs| && Soonest(stored, rs) == Some(LiveTime(rs[i]))
  {
    if rs != [] {
      SoonestIs(stored, rs[..|rs| - 1]);
    }
  }

  /** The stored first_seen, or the last row's time, is no later than the time of any of the rows. */
  ghost predicate NoneSooner(stored: Option<int>, rs: seq<Record>)
    requires rs != []
  {
    forall i :: 0 <= i < |rs| ==>
      (stored.Some? && stored.value <= LiveTime(rs[i])) || LiveTime(rs[|rs| - 1]) <= LiveTime(rs[i])
  }

  /** The first_seen a coalesced window leaves is the one that writing its records one by one does. */
  ghost predicate SeenKept(cfg: Config, db: Db, rs: seq<Record>, now: int, at: int, k: Key) {
    Get(Commit(cfg, db, LiveOf(rs), now).firstSeen, k) == Get(After(Alone(cfg, at), db, rs).firstSeen, k)
  }

  /** Coalescing a node's live rows keeps its first_seen exactly then. */
  lemma {:induction false} FirstSeenExactly(cfg: Config, db: Db, rs: seq<Record>, node: string, system: string,
        now: int, at: int)
    requires OneNode(rs, Codec.Str(node), system) && rs != []
    ensures SeenKept(cfg, db, rs, now, at, NodeKey(system, node))
            <==> NoneSooner(Get(db.firstSeen, NodeKey(system, node)), rs)
  {
    SeenCompared(cfg, db, rs, node, system, now, at);
    SoonestExactly(Get(db.firstSeen, NodeKey(system, node)), rs);
  }

  lemma {:induction false} SeenCompared(cfg: Config, db: Db, rs: seq<Record>, node: string, system: string,
        now: int, at: int)
    requires OneNode(rs, Codec.Str(node), system) && rs != []
    ensures var k := NodeKey(system, node);
            var stored := Get(db.firstSeen, k);
            SeenKept(cfg, db, rs, now, at, k) <==> Soonest(stored, [rs[|rs| - 1]]) == Soonest(stored, rs)
  {
    SeenTaken(cfg, db, rs, node, system, now);
    SeenAlone(cfg, db, rs, Codec.Str(node), system, at, NodeKey(system, node));
  }

  lemma {:induction false} SeenTaken(cfg: Config, db: Db, rs: seq<Record>, node: string, system: string, now: int)
    requires OneNode(rs, Codec.Str(node), system) && rs != []
    ensures Get(Commit(cfg, db, LiveOf(rs), now).firstSeen, NodeKey(system, node))
            == Soonest(Get(db.firstSeen, NodeKey(system, node)), [rs[|rs| - 1]])
  {
    var m := OneWaits(rs, Codec.Str(node), system);
    SeenAt(cfg, db, m, now);
    assert [rs[|rs| - 1]][..0] == [];
  }

  lemma {:induction false} SoonestExactly(stored: Option<int>, rs: seq<Record>)
    requires rs != []
    ensures Soonest(stored, [rs[|rs| - 1]]) == Soonest(stored, rs) <==> NoneSooner(stored, rs)
  {
    SoonestIs(stored, rs);
    assert [rs[|rs| - 1]][..0] == [];
  }
}
