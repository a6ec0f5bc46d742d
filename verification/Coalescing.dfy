/**
  Which live state may be left unwritten.  The queue writes only the newest live rows of each
  node, and replay drops all but the newest live-only file; both leave the live tables as if
  everything had been written, under conditions given here.

  Most of the argument is about lists of records of which each says at most one thing to the
  key in question; `says` stands for what the writer makes of a record.
 */
module Coalescing {
  import opened Upsert
  import opened Codec
  import opened Records
  import opened Writer
  import opened WriterTheorems
  import opened RecordQueues

  predicate IsLiveKey(k: Key) { k.SnapshotKey? || k.LiveNodeKey? }

  type Says = Record -> seq<RowWrite>

  lemma {:induction false} HeardAppend(says: Says, rs: seq<Record>, qs: seq<Record>)
    ensures Heard(says, rs + qs) == Heard(says, rs) + Heard(says, qs)
  {
    if qs == [] {
      assert rs + qs == rs;
    } else {
      assert (rs + qs)[..|rs + qs| - 1] == rs + qs[..|qs| - 1];
      HeardAppend(says, rs, qs[..|qs| - 1]);
    }
  }

  lemma {:induction false} HeardOne(says: Says, r: Record)
    ensures Heard(says, [r]) == says(r)
  {
    assert [r][..0] == [];
  }

  /** A list of which no record says anything. */
  lemma {:induction false} HeardNothing(says: Says, rs: seq<Record>)
    requires forall i :: 0 <= i < |rs| ==> says(rs[i]) == []
    ensures Heard(says, rs) == []
  {
    if rs != [] {
      HeardNothing(says, rs[..|rs| - 1]);
    }
  }

  // --- one window of the queue -----------------------------------------------------------

  /** The write that stands for `w` followed by `v`. */
  function Join(w: RowWrite, v: RowWrite): RowWrite {
    if v.keep then Write(v.rank, w.insert + v.insert, w.update + v.update, true) else v
  }

  /** At most one write, standing for all of `ws`. */
  function Joined(ws: seq<RowWrite>): seq<RowWrite> {
    if |ws| <= 1 then ws else [Join(Joined(ws[..|ws| - 1])[0], ws[|ws| - 1])]
  }

  /** The record that waits for a node when `b` is put on `a`. */
  function Combined(a: Record, b: Record): Record {
    if b.kind == LiveNode then Record(LiveNode, a.row + b.row) else b
  }

  predicate Kin(a: Record, b: Record, kind: Kind, sent: Record -> bool) {
    a.kind == kind && b.kind == kind && sent(a) && sent(b)
  }

  /** Records of one node speak to the same key, of different nodes not, and merging two records
      joins what they say. */
  ghost predicate Agree(says: Says, sent: Record -> bool, a: Record, b: Record) {
    && |says(a)| <= 1 && |says(b)| <= 1
    && (NodeOf(a) != NodeOf(b) ==> says(a) == [] || says(b) == [])
    && (NodeOf(a) == NodeOf(b) ==>
          var c := Combined(a, b);
          c.kind == b.kind && sent(c) && NodeOf(c) == NodeOf(b) && says(c) == Joined(says(a) + says(b))
              && (says(a) == [] <==> says(b) == []))
  }

  ghost predicate Coherent(says: Says, sent: Record -> bool, kind: Kind) {
    forall a, b {:trigger Kin(a, b, kind, sent)} :: Kin(a, b, kind, sent) ==> Agree(says, sent, a, b)
  }

  /** One record per node, all of one kind. */
  ghost predicate OnePerNode(d: seq<Record>, kind: Kind, sent: Record -> bool) {
    && (forall i :: 0 <= i < |d| ==> d[i].kind == kind && sent(d[i]))
    && (forall i, j :: 0 <= i < j < |d| ==> NodeOf(d[i]) != NodeOf(d[j]))
  }

  lemma {:induction false} HeadAlone(says: Says, sent: Record -> bool, d: seq<Record>, kind: Kind)
    requires Coherent(says, sent, kind) && OnePerNode(d, kind, sent) && d != []
    ensures Heard(says, d) == says(d[0]) + Heard(says, d[1..])
    ensures says(d[0]) == [] || (|says(d[0])| == 1 && Heard(says, d[1..]) == [])
  {
    assert d == [d[0]] + d[1..];
    HeardAppend(says, [d[0]], d[1..]);
    HeardOne(says, d[0]);
    assert Kin(d[0], d[0], kind, sent);
    if says(d[0]) != [] {
      forall i | 0 <= i < |d[1..]| ensures says(d[1..][i]) == [] {
        assert Kin(d[0], d[i + 1], kind, sent);
      }
      HeardNothing(says, d[1..]);
    }
  }

  lemma {:induction false} ConsOne(r: Record, d: seq<Record>, kind: Kind, sent: Record -> bool)
    requires OnePerNode(d, kind, sent) && r.kind == kind && sent(r)
    requires forall i :: 0 <= i < |d| ==> NodeOf(d[i]) != NodeOf(r)
    ensures OnePerNode([r] + d, kind, sent)
  {
  }

  /** Every node of `e` is one of `d` or the record's. */
  ghost predicate NodesFrom(e: seq<Record>, d: seq<Record>, r: Record) {
    forall i :: 0 <= i < |e| ==> NodeOf(e[i]) == NodeOf(r) || exists j :: 0 <= j < |d| && NodeOf(d[j]) == NodeOf(e[i])
  }

  lemma {:induction false} NodesCons(e: seq<Record>, d: seq<Record>, r: Record, x: Record, y: Record)
    requires NodesFrom(e, d, r) && NodeOf(x) == NodeOf(y)
    ensures NodesFrom([x] + e, [y] + d, r)
  {
    var e', d' := [x] + e, [y] + d;
    forall i | 0 <= i < |e'| && NodeOf(e'[i]) != NodeOf(r)
      ensures exists j :: 0 <= j < |d'| && NodeOf(d'[j]) == NodeOf(e'[i])
    {
      if i == 0 {
        assert d'[0] == y;
      } else {
        var j :| 0 <= j < |d| && NodeOf(d[j]) == NodeOf(e[i - 1]);
        assert d'[j + 1] == d[j];
      }
    }
  }

  lemma {:induction false} EnteredNodes(says: Says, sent: Record -> bool, d: seq<Record>, r: Record)
    requires Coherent(says, sent, r.kind) && OnePerNode(d, r.kind, sent) && IsLive(r) && sent(r)
    ensures var e := Entered(d, r, r.kind == LiveNode); OnePerNode(e, r.kind, sent) && NodesFrom(e, d, r)
  {
    if d != [] {
      var x, rest := d[0], d[1..];
      assert d == [x] + rest;
      assert Kin(x, r, r.kind, sent);
      if NodeOf(x) == NodeOf(r) {
        assert Entered(d, r, r.kind == LiveNode) == [Combined(x, r)] + rest;
        ConsOne(Combined(x, r), rest, r.kind, sent);
        NodesCons(rest, rest, r, Combined(x, r), x);
      } else {
        EnteredNodes(says, sent, rest, r);
        var f := Entered(rest, r, r.kind == LiveNode);
        ConsOne(x, f, r.kind, sent);
        NodesCons(f, rest, r, x, x);
      }
    }
  }

  /** Putting one more record joins what it says to what waits for the key, if anything. */
  lemma {:induction false} EnteredAt(says: Says, sent: Record -> bool, d: seq<Record>, r: Record)
    requires Coherent(says, sent, r.kind) && OnePerNode(d, r.kind, sent) && IsLive(r) && sent(r)
    ensures |Heard(says, d)| <= 1
    ensures Heard(says, Entered(d, r, r.kind == LiveNode)) == Joined(Heard(says, d) + says(r))
  {
    if d == [] {
      assert Kin(r, r, r.kind, sent);
      HeardOne(says, r);
      assert Heard(says, d) + says(r) == says(r);
    } else {
      var x, rest := d[0], d[1..];
      assert d == [x] + rest;
      EnteredAt(says, sent, rest, r);
      HeadAlone(says, sent, d, r.kind);
      if NodeOf(x) == NodeOf(r) {
        EnteredHere(says, sent, d, r);
      } else {
        HeadPast(says, sent, d, r);
        EnteredPast(says, x, rest, Entered(rest, r, r.kind == LiveNode), r);
      }
    }
  }

  /** Of two nodes one speaks at most. */
  lemma {:induction false} HeadPast(says: Says, sent: Record -> bool, d: seq<Record>, r: Record)
    requires Coherent(says, sent, r.kind) && OnePerNode(d, r.kind, sent) && sent(r)
    requires d != [] && NodeOf(d[0]) != NodeOf(r)
    ensures says(d[0]) == [] || says(r) == []
  {
    assert Kin(d[0], r, r.kind, sent);
  }

  lemma {:induction false} EnteredHere(says: Says, sent: Record -> bool, d: seq<Record>, r: Record)
    requires Coherent(says, sent, r.kind) && OnePerNode(d, r.kind, sent) && IsLive(r) && sent(r)
    requires d != [] && NodeOf(d[0]) == NodeOf(r) && |Heard(says, d[1..])| <= 1
    ensures Heard(says, Entered(d, r, r.kind == LiveNode)) == Joined(Heard(says, d) + says(r))
  {
    var c, rest := Combined(d[0], r), d[1..];
    assert Kin(d[0], r, r.kind, sent);
    HeadAlone(says, sent, d, r.kind);
    assert Entered(d, r, r.kind == LiveNode) == [c] + rest;
    HeardAppend(says, [c], rest);
    HeardOne(says, c);
    if says(d[0]) != [] {
      JoinedTwo(says(d[0])[0], says(r)[0]);
      assert says(d[0]) == [says(d[0])[0]] && says(r) == [says(r)[0]];
    }
    JoinedAt(says(d[0]), says(r), says(c), Heard(says, rest));
  }

  lemma {:induction false} EnteredPast(says: Says, x: Record, rest: seq<Record>, e: seq<Record>, r: Record)
    requires |Heard(says, rest)| <= 1 && Heard(says, e) == Joined(Heard(says, rest) + says(r))
    requires says(x) == [] || (|says(x)| == 1 && Heard(says, rest) == [] && says(r) == [])
    ensures Heard(says, [x] + e) == Joined(Heard(says, [x] + rest) + says(r))
  {
    HeardAppend(says, [x], e);
    HeardAppend(says, [x], rest);
    HeardOne(says, x);
    JoinedPast(says(x), Heard(says, rest), says(r));
  }

  lemma {:induction false} JoinedAt(a: seq<RowWrite>, r: seq<RowWrite>, c: seq<RowWrite>, rest: seq<RowWrite>)
    requires (a == [] && r == [] && c == [] && |rest| <= 1) || (|a| == |r| == 1 && c == [Join(a[0], r[0])]
             && rest == [])
    ensures c + rest == Joined((a + rest) + r)
  {
    if a != [] {
      assert ((a + rest) + r)[..1] == a;
    } else {
      assert (a + rest) + r == rest && c + rest == rest;
    }
  }

  lemma {:induction false} JoinedPast(a: seq<RowWrite>, rest: seq<RowWrite>, r: seq<RowWrite>)
    requires a == [] || (|a| == 1 && rest == [] && r == [])
    requires |rest| <= 1
    ensures a + Joined(rest + r) == Joined((a + rest) + r)
  {
    assert a == [] ==> (a + rest) + r == rest + r;
    assert a != [] ==> (a + rest) + r == a && rest + r == [];
  }

  lemma {:induction false} JoinedSnoc(ws: seq<RowWrite>, vs: seq<RowWrite>)
    requires |vs| <= 1
    ensures Joined(ws + vs) == Joined(Joined(ws) + vs) && |Joined(ws)| <= 1
  {
    if vs == [] {
      assert ws + vs == ws && Joined(ws) + vs == Joined(ws);
    } else {
      assert (ws + vs)[..|ws|] == ws;
      assert (Joined(ws) + vs)[..|Joined(ws)|] == Joined(ws);
    }
  }

  /** What waits for a kind after `rs`. */
  function KindOf(rs: seq<Record>, kind: Kind): seq<Record> {
    if kind == LiveProcesses then ProcessesOf(rs) else NodesOf(rs)
  }

  lemma {:induction false} KindSnoc(rs: seq<Record>, r: Record, kind: Kind)
    requires kind == LiveProcesses || kind == LiveNode
    ensures KindOf(rs + [r], kind) == if r.kind == kind then Entered(KindOf(rs, kind), r, kind == LiveNode)
            else KindOf(rs, kind)
  {
    assert (rs + [r])[..|rs|] == rs;
  }

  ghost predicate EachSent(rs: seq<Record>, sent: Record -> bool) {
    forall i :: 0 <= i < |rs| && IsLive(rs[i]) ==> sent(rs[i])
  }

  /** If only records of a kind speak, what waits of that kind says what all of them joined say. */
  lemma {:induction false} WaitingAt(says: Says, sent: Record -> bool, rs: seq<Record>, kind: Kind)
    requires Coherent(says, sent, kind) && EachSent(rs, sent) && (kind == LiveProcesses || kind == LiveNode)
    requires forall r: Record :: r.kind != kind ==> says(r) == []
    ensures OnePerNode(KindOf(rs, kind), kind, sent)
    ensures Heard(says, KindOf(rs, kind)) == Joined(Heard(says, rs))
  {
    if rs != [] {
      var init, r := rs[..|rs| - 1], rs[|rs| - 1];
      assert rs == init + [r];
      WaitingAt(says, sent, init, kind);
      KindSnoc(init, r, kind);
      HeardSnoc(says, init, r);
      if r.kind == kind {
        assert Kin(r, r, kind, sent);
        JoinedSnoc(Heard(says, init), says(r));
        EnteredNodes(says, sent, KindOf(init, kind), r);
        EnteredAt(says, sent, KindOf(init, kind), r);
      } else {
        assert Heard(says, init) + [] == Heard(says, init);
      }
    }
  }

  lemma {:induction false} OtherKind(says: Says, rs: seq<Record>, kind: Kind)
    requires kind == LiveProcesses || kind == LiveNode
    requires forall r: Record :: r.kind == kind ==> says(r) == []
    ensures forall i :: 0 <= i < |KindOf(rs, kind)| ==> KindOf(rs, kind)[i].kind == kind
    ensures Heard(says, KindOf(rs, kind)) == []
  {
    if rs != [] {
      var init, r := rs[..|rs| - 1], rs[|rs| - 1];
      assert rs == init + [r];
      OtherKind(says, init, kind);
      KindSnoc(init, r, kind);
      if r.kind == kind {
        EnteredKinds(KindOf(init, kind), r);
      }
    }
    HeardNothing(says, KindOf(rs, kind));
  }

  lemma {:induction false} EnteredKinds(d: seq<Record>, r: Record)
    requires forall i :: 0 <= i < |d| ==> d[i].kind == r.kind
    ensures var e := Entered(d, r, r.kind == LiveNode); forall i :: 0 <= i < |e| ==> e[i].kind == r.kind
  {
    if d != [] {
      EnteredKinds(d[1..], r);
      var e := Entered(d, r, r.kind == LiveNode);
      assert NodeOf(d[0]) == NodeOf(r) ==> e[1..] == d[1..];
      assert NodeOf(d[0]) != NodeOf(r) ==> e[1..] == Entered(d[1..], r, r.kind == LiveNode);
      forall i | 0 <= i < |e| ensures e[i].kind == r.kind {
        assert i > 0 ==> e[i] == e[1..][i - 1];
      }
    }
  }

  // --- what live records say -------------------------------------------------------------------

  /** The one statement a live record makes about live state. */
  function LiveStmt(cfg: Config, r: Record): Statement {
    if r.kind == LiveProcesses then SnapshotStmt(cfg, r.row) else LiveNodeStmt(cfg, r.row)
  }

  lemma {:induction false} ForTwo(s: Statement, t: Statement, k: Key)
    ensures For([s, t], k) == For([s], k) + For([t], k)
  {
    assert [s, t] == [s] + [t];
    ForAppend([s], [t], k);
  }

  lemma {:induction false} ForPair(s: Statement, t: Statement, k: Key)
    requires t.key != k
    ensures For([s, t], k) == if s.key == k then [s.write] else []
  {
    ForTwo(s, t, k);
    ForSingle(s, k);
    ForSingle(t, k);
  }

  lemma {:induction false} SaysOne(cfg: Config, r: Record, k: Key)
    requires IsLiveKey(k)
    ensures Saying(cfg, k)(r) == if r.kind == Owner(k) && LiveStmt(cfg, r).key == k then [LiveStmt(cfg, r).write]
            else []
  {
    if r.kind != Owner(k) {
      RecordItem(cfg, r);
      ForOther(ItemOf(cfg, r).ss, r.kind, k);
    } else if r.kind == LiveProcesses {
      ForSingle(SnapshotStmt(cfg, r.row), k);
    } else {
      ForPair(LiveNodeStmt(cfg, r.row), NodeStmt(r.row, Micros(At(r.row, "updated_at")), "label" in r.row), k);
    }
  }

  /** Live rows do not expire, so a commit does to a live key just what its records say. */
  lemma {:induction false} LiveCommit(cfg: Config, db: Db, rs: seq<Record>, now: int, k: Key)
    requires IsLiveKey(k)
    ensures Get(Commit(cfg, db, rs, now).rows, k) == Fold(Get(db.rows, k), Heard(Saying(cfg, k), rs))
  {
    CommitAt(cfg, db, rs, now, k);
    HeardIs(cfg, rs, k);
  }

  /** A live record as the pipeline makes them, all for one system. */
  predicate Sent(r: Record, system: string) {
    IsLive(r) ==> Complete(r) && At(r.row, "system") == Str(system)
  }

  function SentBy(system: string): Record -> bool { r => Sent(r, system) }

  predicate AllSent(rs: seq<Record>, system: string) {
    forall i :: 0 <= i < |rs| ==> Sent(rs[i], system)
  }

  /** Two records of a kind speak of one key exactly if they are of one node. */
  lemma {:induction false} KeysByNode(cfg: Config, a: Record, b: Record, system: string)
    requires a.kind == b.kind && IsLive(a) && Sent(a, system) && Sent(b, system)
    ensures LiveStmt(cfg, a).key == LiveStmt(cfg, b).key <==> NodeOf(a) == NodeOf(b)
  {
  }

  /** `{**a, **b}` asks for the columns of both, `b`'s values winning. */
  lemma {:induction false} MergeFields(columns: set<string>, a: Row, b: Row)
    ensures Fields((set c | c in columns && c in a + b), a + b)
            == Fields((set c | c in columns && c in a), a) + Fields((set c | c in columns && c in b), b)
  {
  }

  lemma {:induction false} MergedIdentity(a: Row, b: Row, system: string)
    requires Sent(Record(LiveNode, b), system)
    ensures At(a + b, "system") == At(b, "system") && At(a + b, "node") == At(b, "node")
    ensures At(a + b, "updated_at") == At(b, "updated_at") && At(a + b, "session_state") == At(b, "session_state")
  {
  }

  lemma {:induction false} CombinedSent(a: Record, b: Record, system: string)
    requires a.kind == b.kind && IsLive(a) && Sent(a, system) && Sent(b, system) && NodeOf(a) == NodeOf(b)
    ensures var c := Combined(a, b); c.kind == b.kind && Sent(c, system) && NodeOf(c) == NodeOf(b)
  {
    if b.kind == LiveNode {
      MergedIdentity(a.row, b.row, system);
    }
  }

  lemma {:induction false} CombinedStmt(cfg: Config, a: Record, b: Record, system: string)
    requires a.kind == b.kind && IsLive(a) && Sent(a, system) && Sent(b, system) && NodeOf(a) == NodeOf(b)
    ensures LiveStmt(cfg, Combined(a, b))
            == Stmt(LiveStmt(cfg, b).key, Join(LiveStmt(cfg, a).write, LiveStmt(cfg, b).write))
  {
    if b.kind == LiveNode {
      MergeFields(cfg.liveNodeColumns, a.row, b.row);
      MergedIdentity(a.row, b.row, system);
    }
  }

  /** Two records that each make one statement to a key, or none. */
  lemma {:induction false} AgreeOnce(says: Says, sent: Record -> bool, a: Record, b: Record, s: Statement, t: Statement,
        k: Key)
    requires says(a) == (if s.key == k then [s.write] else []) && says(b) == (if t.key == k then [t.write] else [])
    requires s.key == t.key <==> NodeOf(a) == NodeOf(b)
    requires NodeOf(a) == NodeOf(b) ==>
               var c := Combined(a, b);
               c.kind == b.kind && sent(c) && NodeOf(c) == NodeOf(b)
               && says(c) == if t.key == k then [Join(s.write, t.write)] else []
    ensures Agree(says, sent, a, b)
  {
    JoinedTwo(s.write, t.write);
  }

  lemma {:induction false} CombinedSays(cfg: Config, k: Key, a: Record, b: Record, system: string)
    requires IsLiveKey(k) && IsLive(a) && a.kind == b.kind == Owner(k) && Sent(a, system) && Sent(b, system)
    requires NodeOf(a) == NodeOf(b)
    ensures var s, t, c := LiveStmt(cfg, a), LiveStmt(cfg, b), Combined(a, b);
            && c.kind == b.kind && Sent(c, system) && NodeOf(c) == NodeOf(b)
            && Saying(cfg, k)(c) == if t.key == k then [Join(s.write, t.write)] else []
  {
    CombinedSent(a, b, system);
    CombinedStmt(cfg, a, b, system);
    SaysOne(cfg, Combined(a, b), k);
  }

  lemma {:induction false} RecordsAgree(cfg: Config, k: Key, a: Record, b: Record, system: string)
    requires IsLiveKey(k) && a.kind == b.kind == Owner(k) && Sent(a, system) && Sent(b, system)
    ensures Agree(Saying(cfg, k), SentBy(system), a, b)
  {
    SaysOne(cfg, a, k);
    SaysOne(cfg, b, k);
    KeysByNode(cfg, a, b, system);
    if NodeOf(a) == NodeOf(b) {
      CombinedSays(cfg, k, a, b, system);
    }
    AgreeOnce(Saying(cfg, k), SentBy(system), a, b, LiveStmt(cfg, a), LiveStmt(cfg, b), k);
  }

  lemma {:induction false} JoinedTwo(w: RowWrite, v: RowWrite)
    ensures Joined([w] + [v]) == [Join(w, v)]
  {
    assert ([w] + [v])[..1] == [w];
  }

  lemma {:induction false} LiveCoheres(cfg: Config, k: Key, system: string)
    requires IsLiveKey(k)
    ensures Coherent(Saying(cfg, k), SentBy(system), Owner(k))
  {
    forall a, b | Kin(a, b, Owner(k), SentBy(system)) ensures Agree(Saying(cfg, k), SentBy(system), a, b) {
      RecordsAgree(cfg, k, a, b, system);
    }
  }

  lemma {:induction false} OnlyOwner(cfg: Config, k: Key)
    requires IsLiveKey(k)
    ensures forall r: Record :: r.kind != Owner(k) ==> Saying(cfg, k)(r) == []
  {
    forall r: Record | r.kind != Owner(k) ensures Saying(cfg, k)(r) == [] { SaysOne(cfg, r, k); }
  }

  /** What a take holds for a live key is one write that stands for all that was put. */
  lemma {:induction false} TakenAt(cfg: Config, rs: seq<Record>, system: string, k: Key)
    requires AllSent(rs, system) && IsLiveKey(k)
    ensures Heard(Saying(cfg, k), LiveOf(rs)) == Joined(Heard(Saying(cfg, k), rs))
  {
    LiveCoheres(cfg, k, system);
    OnlyOwner(cfg, k);
    TakenSays(Saying(cfg, k), SentBy(system), rs, Owner(k));
  }

  lemma {:induction false} TakenSays(says: Says, sent: Record -> bool, rs: seq<Record>, kind: Kind)
    requires Coherent(says, sent, kind) && EachSent(rs, sent) && (kind == LiveProcesses || kind == LiveNode)
    requires forall r: Record :: r.kind != kind ==> says(r) == []
    ensures Heard(says, LiveOf(rs)) == Joined(Heard(says, rs))
  {
    WaitingAt(says, sent, rs, kind);
    OtherKind(says, rs, if kind == LiveNode then LiveProcesses else LiveNode);
    HeardAppend(says, ProcessesOf(rs), NodesOf(rs));
  }

  // --- times that never go back ---------------------------------------------------------------

  /** A write of live state: what it inserts is what it sets. */
  ghost predicate Plain(w: RowWrite, keep: bool) {
    w.rank.Some? && w.insert == w.update && w.keep == keep
  }

  /** Every one of the writes takes effect on the row `c`, one after the other. */
  ghost predicate Rising(c: Option<Cell<Column, Content>>, ws: seq<RowWrite>, keep: bool) {
    && (forall i :: 0 <= i < |ws| ==> Plain(ws[i], keep) && (c.Some? ==> Passes(c.value.rank, ws[i].rank)))
    && (forall i, j :: 0 <= i < j < |ws| ==> Passes(ws[i].rank, ws[j].rank))
  }

  /** Then the joined write does what they do together. */
  lemma {:induction false} JoinedFold(c: Option<Cell<Column, Content>>, ws: seq<RowWrite>, keep: bool)
    requires Rising(c, ws, keep)
    ensures Fold(c, Joined(ws)) == Fold(c, ws)
    ensures ws != [] ==> |Joined(ws)| == 1 && Plain(Joined(ws)[0], keep) && Joined(ws)[0].rank == ws[|ws| - 1].rank
    ensures ws != [] ==> Fold(c, ws) == Step(c, Joined(ws)[0])
  {
    if |ws| == 1 {
      assert ws[..0] == [];
    } else if |ws| > 1 {
      var n := |ws| - 1;
      JoinedFold(c, ws[..n], keep);
      var j := Joined(ws[..n])[0];
      assert Joined(ws)[..0] == [];
      JoinTwo(c, j, ws[n], keep);
    }
  }

  lemma {:induction false} JoinTwo(c: Option<Cell<Column, Content>>, w: RowWrite, v: RowWrite, keep: bool)
    requires Plain(w, keep) && Plain(v, keep) && Passes(w.rank, v.rank)
    requires c.Some? ==> Passes(c.value.rank, w.rank) && Passes(c.value.rank, v.rank)
    ensures Plain(Join(w, v), keep) && Step(Step(c, w), v) == Step(c, Join(w, v))
  {
    assert map[] + v.update == v.update;
    if keep && c.Some? {
      assert (c.value.cols + w.update) + v.update == c.value.cols + (w.update + v.update);
    }
  }

  function LiveTime(r: Record): int {
    if r.kind == LiveProcesses then Micros(At(r.row, "ts")) else Micros(At(r.row, "updated_at"))
  }

  ghost predicate NotNewer(c: Option<Cell<Column, Content>>, t: int) {
    c.Some? ==> c.value.rank.Some? && c.value.rank.value <= t
  }

  /** A node's live times never decrease, nor were they ahead of the records in the tables. */
  ghost predicate NeverBack(cfg: Config, db: Db, rs: seq<Record>) {
    && (forall i, j ::
          0 <= i < j < |rs| && IsLive(rs[j]) && rs[i].kind == rs[j].kind && NodeOf(rs[i]) == NodeOf(rs[j]) ==>
          LiveTime(rs[i]) <= LiveTime(rs[j]))
    && (forall i :: 0 <= i < |rs| && IsLive(rs[i]) ==>
          NotNewer(Get(db.rows, LiveStmt(cfg, rs[i]).key), LiveTime(rs[i])))
  }

  /** Each record says at most one thing, stamped with its time, and times never go back. */
  ghost predicate InTime(c: Option<Cell<Column, Content>>, says: Says, time: Record -> int, rs: seq<Record>,
        keep: bool) {
    && (forall i :: 0 <= i < |rs| && says(rs[i]) != [] ==>
          |says(rs[i])| == 1 && Plain(says(rs[i])[0], keep) && says(rs[i])[0].rank == Some(time(rs[i]))
              && NotNewer(c, time(rs[i])))
    && (forall i, j :: 0 <= i < j < |rs| && says(rs[i]) != [] && says(rs[j]) != [] ==> time(rs[i]) <= time(rs[j]))
  }

  /** Each write heard is some record's. */
  lemma {:induction false} HeardFrom(says: Says, rs: seq<Record>, i: nat) returns (j: nat)
    requires i < |Heard(says, rs)| && forall r :: |says(r)| <= 1
    ensures j < |rs| && says(rs[j]) == [Heard(says, rs)[i]]
  {
    var n := |rs| - 1;
    if i < |Heard(says, rs[..n])| {
      j := HeardFrom(says, rs[..n], i);
    } else {
      j := n;
    }
  }

  lemma {:induction false} InTimeRises(c: Option<Cell<Column, Content>>, says: Says, time: Record -> int,
        rs: seq<Record>, keep: bool)
    requires InTime(c, says, time, rs, keep) && forall r :: |says(r)| <= 1
    ensures Rising(c, Heard(says, rs), keep)
  {
    if rs != [] {
      var n := |rs| - 1;
      InTimeRises(c, says, time, rs[..n], keep);
      var ws := Heard(says, rs[..n]);
      if says(rs[n]) != [] {
        var w := says(rs[n])[0];
        forall i | 0 <= i < |ws| ensures Passes(ws[i].rank, w.rank) {
          var j := HeardFrom(says, rs[..n], i);
        }
        RisingSnoc(c, ws, w, keep);
        assert says(rs[n]) == [w];
      } else {
        assert ws + [] == ws;
      }
    }
  }

  lemma {:induction false} RisingSnoc(c: Option<Cell<Column, Content>>, ws: seq<RowWrite>, w: RowWrite, keep: bool)
    requires Rising(c, ws, keep) && Plain(w, keep) && (c.Some? ==> Passes(c.value.rank, w.rank))
    requires forall i :: 0 <= i < |ws| ==> Passes(ws[i].rank, w.rank)
    ensures Rising(c, ws + [w], keep)
  {
  }

  lemma {:induction false} LivePlain(cfg: Config, r: Record)
    requires IsLive(r)
    ensures Plain(LiveStmt(cfg, r).write, r.kind == LiveNode) && LiveStmt(cfg, r).write.rank == Some(LiveTime(r))
  {
  }

  lemma {:induction false} SpokenInTime(cfg: Config, db: Db, rs: seq<Record>, k: Key, i: nat)
    requires IsLiveKey(k) && NeverBack(cfg, db, rs) && i < |rs| && Saying(cfg, k)(rs[i]) != []
    ensures var ws := Saying(cfg, k)(rs[i]);
            |ws| == 1 && Plain(ws[0], k.LiveNodeKey?) && ws[0].rank == Some(LiveTime(rs[i]))
                && NotNewer(Get(db.rows, k), LiveTime(rs[i]))
  {
    SaysOne(cfg, rs[i], k);
    LivePlain(cfg, rs[i]);
  }

  lemma {:induction false} SpokenInOrder(cfg: Config, db: Db, rs: seq<Record>, system: string, k: Key, i: nat, j: nat)
    requires IsLiveKey(k) && AllSent(rs, system) && NeverBack(cfg, db, rs) && i < j < |rs|
    requires Saying(cfg, k)(rs[i]) != [] && Saying(cfg, k)(rs[j]) != []
    ensures LiveTime(rs[i]) <= LiveTime(rs[j])
  {
    SaysOne(cfg, rs[i], k);
    SaysOne(cfg, rs[j], k);
    KeysByNode(cfg, rs[i], rs[j], system);
  }

  lemma {:induction false} NeverBackRises(cfg: Config, db: Db, rs: seq<Record>, system: string, k: Key)
    requires AllSent(rs, system) && IsLiveKey(k) && NeverBack(cfg, db, rs)
    ensures Rising(Get(db.rows, k), Heard(Saying(cfg, k), rs), k.LiveNodeKey?)
  {
    var says, c, time, keep := Saying(cfg, k), Get(db.rows, k), (r: Record) => LiveTime(r), k.LiveNodeKey?;
    forall r ensures |says(r)| <= 1 { SaysOne(cfg, r, k); }
    assert InTime(c, says, time, rs, keep) by {
      forall i | 0 <= i < |rs| && says(rs[i]) != []
        ensures |says(rs[i])| == 1 && Plain(says(rs[i])[0], keep) && says(rs[i])[0].rank == Some(time(rs[i]))
                && NotNewer(c, time(rs[i]))
      {
        SpokenInTime(cfg, db, rs, k, i);
      }
      forall i, j | 0 <= i < j < |rs| && says(rs[i]) != [] && says(rs[j]) != [] ensures time(rs[i]) <= time(rs[j]) {
        SpokenInOrder(cfg, db, rs, system, k, i, j);
      }
    }
    InTimeRises(c, says, time, rs, keep);
  }

  // --- whole runs of the writer thread --------------------------------------------------------------

  /** One round: what had been put when the thread took it, the events carried from the round
      before, and the times of its two writes. */
  datatype Round = Round(window: seq<Record>, carried: seq<Record>, durableAt: int, liveAt: int)

  /** Durable records and events first, then live state, as taken. */
  function InRound(cfg: Config): (Db, Round) -> Db {
    (db: Db, r: Round) => Commit(cfg, Commit(cfg, db, r.carried + DurableOf(r.window), r.durableAt), LiveOf(r.window),
        r.liveAt)
  }

  /** A record on its own. */
  function Alone(cfg: Config, at: int): (Db, Record) -> Db {
    (db: Db, r: Record) => Commit(cfg, db, [r], at)
  }

  /** One thing after the other. */
  function After<T>(step: (Db, T) -> Db, db: Db, ts: seq<T>): Db {
    if ts == [] then db else step(After(step, db, ts[..|ts| - 1]), ts[|ts| - 1])
  }

  function AllPut(rounds: seq<Round>): seq<Record> {
    if rounds == [] then [] else AllPut(rounds[..|rounds| - 1]) + rounds[|rounds| - 1].window
  }

  predicate NoneLive(rs: seq<Record>) { forall i :: 0 <= i < |rs| ==> !IsLive(rs[i]) }

  lemma {:induction false} DurableAt(cfg: Config, rs: seq<Record>, k: Key)
    requires NoneLive(rs) && IsLiveKey(k)
    ensures Heard(Saying(cfg, k), rs) == []
  {
    OnlyOwner(cfg, k);
    HeardNothing(Saying(cfg, k), rs);
  }

  lemma {:induction false} DurableNotLive(rs: seq<Record>)
    ensures NoneLive(DurableOf(rs))
  {
    if rs != [] {
      DurableNotLive(rs[..|rs| - 1]);
    }
  }

  /** A round writes to a live key the one write that stands for the window's. */
  lemma {:induction false} RoundAt(cfg: Config, db: Db, r: Round, system: string, k: Key)
    requires AllSent(r.window, system) && NoneLive(r.carried) && IsLiveKey(k)
    ensures Get(InRound(cfg)(db, r).rows, k) == Fold(Get(db.rows, k), Joined(Heard(Saying(cfg, k), r.window)))
  {
    var first := r.carried + DurableOf(r.window);
    DurableNotLive(r.window);
    LiveCommit(cfg, db, first, r.durableAt, k);
    DurableAt(cfg, first, k);
    LiveCommit(cfg, Commit(cfg, db, first, r.durableAt), LiveOf(r.window), r.liveAt, k);
    TakenAt(cfg, r.window, system, k);
  }

  lemma {:induction false} AloneAt(step: (Db, Record) -> Db, says: Says, db: Db, rs: seq<Record>, k: Key)
    requires forall d, r :: Get(step(d, r).rows, k) == Fold(Get(d.rows, k), says(r))
    ensures Get(After(step, db, rs).rows, k) == Fold(Get(db.rows, k), Heard(says, rs))
  {
    if rs != [] {
      var init, r := rs[..|rs| - 1], rs[|rs| - 1];
      AloneAt(step, says, db, init, k);
      FoldAppend(Get(db.rows, k), Heard(says, init), says(r));
    }
  }

  /** What the rounds say: for each the one write that stands for its window's. */
  function JoinedBy(says: Says, rounds: seq<Round>): seq<RowWrite> {
    if rounds == [] then []
    else JoinedBy(says, rounds[..|rounds| - 1]) + Joined(Heard(says, rounds[|rounds| - 1].window))
  }

  ghost predicate WritesJoined(step: (Db, Round) -> Db, says: Says, k: Key, r: Round) {
    forall d :: Get(step(d, r).rows, k) == Fold(Get(d.rows, k), Joined(Heard(says, r.window)))
  }

  lemma {:induction false} RoundsWrite(step: (Db, Round) -> Db, says: Says, db: Db, rounds: seq<Round>, k: Key)
    requires forall i :: 0 <= i < |rounds| ==> WritesJoined(step, says, k, rounds[i])
    ensures Get(After(step, db, rounds).rows, k) == Fold(Get(db.rows, k), JoinedBy(says, rounds))
  {
    if rounds != [] {
      var init, r := rounds[..|rounds| - 1], rounds[|rounds| - 1];
      RoundsWrite(step, says, db, init, k);
      assert WritesJoined(step, says, k, r);
      FoldAppend(Get(db.rows, k), JoinedBy(says, init), Joined(Heard(says, r.window)));
    }
  }

  /** One more round of joined writes does what its writes would. */
  lemma {:induction false} JoinedNext(c: Option<Cell<Column, Content>>, us: seq<RowWrite>, vs: seq<RowWrite>,
        ws: seq<RowWrite>, keep: bool)
    requires Rising(c, vs + ws, keep) && Fold(c, us) == Fold(c, vs)
    ensures Fold(c, us + Joined(ws)) == Fold(c, vs + ws)
  {
    RisingSplit(c, vs, ws, keep);
    JoinedFold(Fold(c, vs), ws, keep);
    FoldAppend(c, vs, ws);
    FoldAppend(c, us, Joined(ws));
  }

  /** If every write put takes effect, the rounds do what all of them do. */
  lemma {:induction false} RoundsStand(says: Says, c: Option<Cell<Column, Content>>, rounds: seq<Round>, keep: bool)
    requires Rising(c, Heard(says, AllPut(rounds)), keep)
    ensures Fold(c, JoinedBy(says, rounds)) == Fold(c, Heard(says, AllPut(rounds)))
  {
    if rounds != [] {
      var init, window := rounds[..|rounds| - 1], rounds[|rounds| - 1].window;
      HeardAppend(says, AllPut(init), window);
      RisingSplit(c, Heard(says, AllPut(init)), Heard(says, window), keep);
      RoundsStand(says, c, init, keep);
      JoinedNext(c, JoinedBy(says, init), Heard(says, AllPut(init)), Heard(says, window), keep);
    }
  }

  lemma {:induction false} WindowsSent(rounds: seq<Round>, system: string, i: nat)
    requires AllSent(AllPut(rounds), system) && i < |rounds|
    ensures AllSent(rounds[i].window, system)
  {
    var n := |rounds| - 1;
    var earlier, last := AllPut(rounds[..n]), rounds[n].window;
    assert forall j :: 0 <= j < |earlier| ==> AllPut(rounds)[j] == earlier[j];
    assert forall j :: 0 <= j < |last| ==> AllPut(rounds)[|earlier| + j] == last[j];
    if i < n {
      WindowsSent(rounds[..n], system, i);
    }
  }

  /**
    Coalescing refines sequential writing: if no node's live times go back, the live tables end
    as they would had every record been written on its own in put order, however the puts fall
    into rounds and whenever those are written.
   */
  lemma {:induction false} CoalescingRefines(cfg: Config, db: Db, rounds: seq<Round>, system: string, at: int, k: Key)
    requires forall i :: 0 <= i < |rounds| ==> NoneLive(rounds[i].carried)
    requires AllSent(AllPut(rounds), system) && NeverBack(cfg, db, AllPut(rounds)) && IsLiveKey(k)
    ensures Get(After(InRound(cfg), db, rounds).rows, k) == Get(After(Alone(cfg, at), db, AllPut(rounds)).rows, k)
  {
    var says := Saying(cfg, k);
    NeverBackRises(cfg, db, AllPut(rounds), system, k);
    forall d, r ensures Get(Alone(cfg, at)(d, r).rows, k) == Fold(Get(d.rows, k), says(r)) {
      LiveCommit(cfg, d, [r], at, k);
      HeardOne(says, r);
    }
    AloneAt(Alone(cfg, at), says, db, AllPut(rounds), k);
    forall i | 0 <= i < |rounds| ensures WritesJoined(InRound(cfg), says, k, rounds[i]) {
      WindowsSent(rounds, system, i);
      forall d
        ensures Get(InRound(cfg)(d, rounds[i]).rows, k) == Fold(Get(d.rows, k), Joined(Heard(says, rounds[i].window)))
      {
        RoundAt(cfg, d, rounds[i], system, k);
      }
    }
    RoundsWrite(InRound(cfg), says, db, rounds, k);
    RoundsStand(says, Get(db.rows, k), rounds, k.LiveNodeKey?);
  }

  lemma {:induction false} RisingSplit(c: Option<Cell<Column, Content>>, vs: seq<RowWrite>, ws: seq<RowWrite>,
        keep: bool)
    requires Rising(c, vs + ws, keep)
    ensures Rising(c, vs, keep) && Rising(Fold(c, vs), ws, keep)
  {
    var all := vs + ws;
    assert forall i :: 0 <= i < |vs| ==> all[i] == vs[i];
    assert forall i :: 0 <= i < |ws| ==> all[|vs| + i] == ws[i];
    JoinedFold(c, vs, keep);
    if vs != [] {
      forall i | 0 <= i < |ws| ensures Passes(vs[|vs| - 1].rank, ws[i].rank) {
        assert Passes(all[|vs| - 1].rank, all[|vs| + i].rank);
      }
    }
  }
}
