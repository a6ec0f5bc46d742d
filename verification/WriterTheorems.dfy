/**
  What a committed batch does to the tables: regrouping a batch does not change its meaning,
  and committing it again, at any later or earlier time, adds nothing.
 */
module WriterTheorems {
  import opened Upsert
  import opened Codec
  import opened Records
  import opened Writer
  import Partitions

  ghost predicate Wholesale(w: RowWrite) { !w.keep && w.insert == w.update && w.rank.Some? }

  /** The kind of record that writes a key; `nodes` is shared by two. */
  function Owner(k: Key): Kind {
    match k
    case SummaryKey(t, _, _, _, _) =>
      (match t
       case Metrics => NodeMetrics
       case UserUsage5m => UserUsage
       case NodeUsage5m => NodeUsage
       case Events => CollectionEvent)
    case EventKey(_, _, _, _) => CollectionEvent
    case HardwareKey(_, _, _) => NodeHardware
    case NodeKey(_, _) => NodeHardware
    case LiveNodeKey(_, _) => LiveNode
    case SnapshotKey(_, _) => LiveProcesses
  }

  ghost predicate IsOwn(kind: Kind, s: Statement) {
    && Proper(s.write)
    && (if s.key.NodeKey? then (kind == NodeHardware || kind == LiveNode)
        && s.write.rank.Some? else kind == Owner(s.key))
    && (s.key.SnapshotKey? ==> Wholesale(s.write))
  }

  ghost predicate IsItem(item: Item) {
    && (forall i :: 0 <= i < |item.ss| ==> IsOwn(item.kind, item.ss[i]))
    && (item.kind == LiveProcesses ==> |item.ss| == 1)
  }

  ghost predicate AreItems(items: seq<Item>) {
    forall i :: 0 <= i < |items| ==> IsItem(items[i])
  }

  lemma {:induction false} NodeStmtOwn(kind: Kind, row: Row, seen: int, hasLabel: bool)
    requires kind == NodeHardware || kind == LiveNode
    ensures IsOwn(kind, NodeStmt(row, seen, hasLabel))
  {
    var w := NodeStmt(row, seen, hasLabel).write;
    assert w.insert + w.update == w.insert;
  }

  lemma {:induction false} OwnTables(cfg: Config, row: Row, t: Table)
    ensures IsOwn(LiveProcesses, SnapshotStmt(cfg, row))
    ensures IsOwn(LiveNode, LiveNodeStmt(cfg, row))
    ensures IsOwn(NodeHardware, HardwareStmt(cfg, row))
    ensures IsOwn(CollectionEvent, EventStmt(row))
    ensures IsOwn(Owner(SummaryStmt(cfg, t, row).key), SummaryStmt(cfg, t, row))
  {
  }

  lemma {:induction false} OwnItem(kind: Kind, ss: seq<Statement>)
    requires 1 <= |ss| <= 2 && IsOwn(kind, ss[0]) && IsOwn(kind, ss[|ss| - 1])
    requires kind == LiveProcesses ==> |ss| == 1
    ensures IsItem(Item(kind, ss))
  {
    assert ss == [ss[0]] || ss == [ss[0], ss[1]];
  }

  lemma {:induction false} RecordItem(cfg: Config, r: Record)
    ensures IsItem(ItemOf(cfg, r))
  {
    match r.kind
    case LiveProcesses => OwnTables(cfg, r.row, Metrics); OwnItem(r.kind, StatementsOf(cfg, r));
    case LiveNode =>
      OwnTables(cfg, r.row, Metrics);
      NodeStmtOwn(LiveNode, r.row, Micros(At(r.row, "updated_at")), "label" in r.row);
      OwnItem(r.kind, StatementsOf(cfg, r));
    case NodeHardware =>
      OwnTables(cfg, r.row, Metrics);
      NodeStmtOwn(NodeHardware, r.row, Micros(At(r.row, "collected_at")), false);
      OwnItem(r.kind, StatementsOf(cfg, r));
    case CollectionEvent => OwnTables(cfg, r.row, Metrics); OwnItem(r.kind, StatementsOf(cfg, r));
    case NodeMetrics => OwnTables(cfg, r.row, Metrics); OwnItem(r.kind, StatementsOf(cfg, r));
    case UserUsage => OwnTables(cfg, r.row, UserUsage5m); OwnItem(r.kind, StatementsOf(cfg, r));
    case NodeUsage => OwnTables(cfg, r.row, NodeUsage5m); OwnItem(r.kind, StatementsOf(cfg, r));
    case Other(_) =>
  }

  lemma {:induction false} RecordItems(cfg: Config, rs: seq<Record>)
    ensures AreItems(Items(cfg, rs))
  {
    forall i | 0 <= i < |rs| ensures IsItem(Items(cfg, rs)[i]) {
      RecordItem(cfg, rs[i]);
    }
  }

  // --- the plan is the batch, sorted by kind -------------------------------------------

  /** The plan of a batch of which nothing expired, months aside. */
  ghost function PlanItems(items: seq<Item>): Plan
    requires AreItems(items)
  {
    if items == [] then EMPTY_PLAN else Place(PlanItems(items[..|items| - 1]), items[|items| - 1])
  }

  lemma {:induction false} PlaceFrame(p: Plan, q: Plan, item: Item)
    requires IsItem(item) && p == q.(months := p.months, beyond := p.beyond)
    ensures Place(p, item) == Place(q, item).(months := p.months, beyond := p.beyond)
  {
  }

  lemma {:induction false} PlanRecordPlaces(cfg: Config, p: Plan, r: Record, now: int)
    ensures IsItem(ItemOf(cfg, r))
    ensures var q := PlanRecord(cfg, p, r, now);
            q == (if Expired(cfg, r, now) then p else Place(p, ItemOf(cfg, r))).(months := q.months, beyond := q.beyond)
  {
    RecordItem(cfg, r);
    var n := NeedMonth(p, r);
    assert n == p.(months := n.months);
    PlaceFrame(n, p, ItemOf(cfg, r));
  }

  lemma {:induction false} PlanOfItems(cfg: Config, rs: seq<Record>, now: int)
    ensures var items := Items(cfg, Kept(cfg, rs, now));
            var p := PlanOf(cfg, rs, now);
            AreItems(items) && p == PlanItems(items).(months := p.months, beyond := p.beyond)
  {
    RecordItems(cfg, Kept(cfg, rs, now));
    if rs != [] {
      var n := |rs| - 1;
      PlanOfItems(cfg, rs[..n], now);
      var kept, r := Kept(cfg, rs[..n], now), rs[n];
      PlanRecordPlaces(cfg, PlanOf(cfg, rs[..n], now), r, now);
      if Expired(cfg, r, now) {
        assert Kept(cfg, rs, now) == kept;
      } else {
        PlanItemsSnoc(Items(cfg, kept), ItemOf(cfg, r));
        assert Items(cfg, kept + [r]) == Items(cfg, kept) + [ItemOf(cfg, r)];
        PlaceFrame(PlanOf(cfg, rs[..n], now), PlanItems(Items(cfg, kept)), ItemOf(cfg, r));
      }
    }
  }

  lemma {:induction false} PlanItemsSnoc(items: seq<Item>, item: Item)
    requires AreItems(items) && IsItem(item)
    ensures AreItems(items + [item]) && PlanItems(items + [item]) == Place(PlanItems(items), item)
  {
    assert (items + [item])[..|items|] == items;
  }

  function Only(items: seq<Item>, kind: Kind): seq<Item> {
    if items == [] then []
    else Only(items[..|items| - 1], kind) + (if items[|items| - 1].kind == kind then [items[|items| - 1]] else [])
  }

  lemma {:induction false} FlatSnoc(items: seq<Item>, item: Item)
    ensures Flat(items + [item]) == Flat(items) + item.ss
  {
    assert (items + [item])[..|items|] == items;
  }

  lemma {:induction false} FlatOnly(items: seq<Item>, kind: Kind)
    requires items != []
    ensures var n := |items| - 1;
            Flat(Only(items, kind)) ==
            if items[n].kind == kind then Flat(Only(items[..n], kind)) + items[n].ss else Flat(Only(items[..n], kind))
  {
    var n := |items| - 1;
    if items[n].kind == kind {
      FlatSnoc(Only(items[..n], kind), items[n]);
    } else {
      assert Only(items, kind) == Only(items[..n], kind);
    }
  }

  ghost predicate IsSorted(p: Plan, items: seq<Item>) {
    && Summaries(p, Metrics) == Flat(Only(items, NodeMetrics))
    && Summaries(p, UserUsage5m) == Flat(Only(items, UserUsage))
    && Summaries(p, NodeUsage5m) == Flat(Only(items, NodeUsage))
    && p.events == Flat(Only(items, CollectionEvent))
    && p.hardware == Flat(Only(items, NodeHardware))
    && p.liveNodes == Flat(Only(items, LiveNode))
  }

  lemma {:induction false} FlatOnlySnoc(items: seq<Item>, item: Item, kind: Kind)
    ensures Flat(Only(items + [item], kind)) == Appended(Flat(Only(items, kind)), item, kind)
  {
    assert (items + [item])[..|items|] == items;
    FlatOnly(items + [item], kind);
  }

  lemma {:induction false} SummedAt(summaries: map<Table, seq<Statement>>, item: Item)
    ensures Under(Summed(summaries, item), Metrics) == Appended(Under(summaries, Metrics), item, NodeMetrics)
    ensures Under(Summed(summaries, item), UserUsage5m) == Appended(Under(summaries, UserUsage5m), item, UserUsage)
    ensures Under(Summed(summaries, item), NodeUsage5m) == Appended(Under(summaries, NodeUsage5m), item, NodeUsage)
  {
  }

  lemma {:induction false} SortStep(p: Plan, items: seq<Item>, item: Item)
    requires IsItem(item) && IsSorted(p, items)
    ensures IsSorted(Place(p, item), items + [item])
  {
    SummedAt(p.summaries, item);
    FlatOnlySnoc(items, item, NodeMetrics);
    FlatOnlySnoc(items, item, UserUsage);
    FlatOnlySnoc(items, item, NodeUsage);
    FlatOnlySnoc(items, item, CollectionEvent);
    FlatOnlySnoc(items, item, NodeHardware);
    FlatOnlySnoc(items, item, LiveNode);
  }

  lemma {:induction false} PlanSorts(items: seq<Item>)
    requires AreItems(items)
    ensures IsSorted(PlanItems(items), items)
  {
    if items != [] {
      var n := |items| - 1;
      PlanSorts(items[..n]);
      SortStep(PlanItems(items[..n]), items[..n], items[n]);
      assert items[..n] + [items[n]] == items;
    }
  }

  /** Only the records of its own kind speak about a key. */
  lemma {:induction false} ForOther(ss: seq<Statement>, kind: Kind, k: Key)
    requires forall i :: 0 <= i < |ss| ==> IsOwn(kind, ss[i])
    requires if k.NodeKey? then kind != NodeHardware && kind != LiveNode else kind != Owner(k)
    ensures For(ss, k) == []
  {
    if ss != [] {
      ForOther(ss[..|ss| - 1], kind, k);
    }
  }

  lemma {:induction false} ForOnly(items: seq<Item>, kind: Kind, k: Key)
    requires AreItems(items)
    ensures !k.NodeKey? && kind == Owner(k) ==> For(Flat(Only(items, kind)), k) == For(Flat(items), k)
    ensures (if k.NodeKey? then kind != NodeHardware && kind != LiveNode else kind != Owner(k))
            ==> For(Flat(Only(items, kind)), k) == []
  {
    if items != [] {
      var n := |items| - 1;
      var item := items[n];
      ForOnly(items[..n], kind, k);
      FlatOnly(items, kind);
      ForAppend(Flat(items[..n]), item.ss, k);
      ForAppend(Flat(Only(items[..n], kind)), item.ss, k);
      if if k.NodeKey? then item.kind != NodeHardware && item.kind != LiveNode else item.kind != Owner(k) {
        ForOther(item.ss, item.kind, k);
      }
      if item.kind != kind {
        assert Flat(Only(items, kind)) == Flat(Only(items[..n], kind));
      }
    }
  }

  lemma {:induction false} ForBefore(p: Plan, k: Key)
    ensures For(Before(p), k) ==
            For(Summaries(p, Metrics), k) + For(Summaries(p, UserUsage5m), k) + For(Summaries(p, NodeUsage5m), k)
            + For(p.events, k) + For(p.hardware, k) + For(p.liveNodes, k)
  {
    var a, b, c := Summaries(p, Metrics), Summaries(p, UserUsage5m), Summaries(p, NodeUsage5m);
    ForAppend(a, b, k);
    ForAppend(a + b, c, k);
    ForAppend(a + b + c, p.events, k);
    ForAppend(a + b + c + p.events, p.hardware, k);
    ForAppend(a + b + c + p.events + p.hardware, p.liveNodes, k);
  }

  /** What the records of a kind write to a key. */
  function Share(items: seq<Item>, kind: Kind, k: Key): seq<RowWrite> {
    For(Flat(Only(items, kind)), k)
  }

  lemma {:induction false} Shares(items: seq<Item>, k: Key)
    requires AreItems(items)
    ensures For(Before(PlanItems(items)), k) ==
            Share(items, NodeMetrics, k) + Share(items, UserUsage, k) + Share(items, NodeUsage, k)
            + Share(items, CollectionEvent, k) + Share(items, NodeHardware, k) + Share(items, LiveNode, k)
  {
    PlanSorts(items);
    ForBefore(PlanItems(items), k);
  }

  lemma {:induction false} ShareOf(items: seq<Item>, kind: Kind, k: Key)
    requires AreItems(items)
    ensures !k.NodeKey? ==> Share(items, kind, k) == if kind == Owner(k) then For(Flat(items), k) else []
    ensures k.NodeKey? && kind != NodeHardware && kind != LiveNode ==> Share(items, kind, k) == []
  {
    ForOnly(items, kind, k);
  }

  lemma {:induction false} OneOfSix<T>(a: seq<T>, b: seq<T>, c: seq<T>, d: seq<T>, e: seq<T>, f: seq<T>, x: seq<T>,
        i: nat)
    requires a == (if i == 0 then x else []) && b == (if i == 1 then x else []) && c == (if i == 2 then x else [])
    requires d == (if i == 3 then x else []) && e == (if i == 4 then x else []) && f == (if i == 5 then x else [])
    ensures a + b + c + d + e + f == if i < 6 then x else []
  {
  }

  lemma {:induction false} TwoOfSix<T>(a: seq<T>, b: seq<T>, c: seq<T>, d: seq<T>, e: seq<T>, f: seq<T>)
    requires a == [] && b == [] && c == [] && d == []
    ensures a + b + c + d + e + f == e + f
  {
  }

  /** Where a key's own kind of record stands in the order of a plan. */
  function Turn(kind: Kind): nat {
    match kind
    case NodeMetrics => 0
    case UserUsage => 1
    case NodeUsage => 2
    case CollectionEvent => 3
    case NodeHardware => 4
    case LiveNode => 5
    case _ => 6
  }

  /** The six parts of a plan, if all that speak are of one kind. */
  lemma {:induction false} OneSpeaks(share: Kind -> seq<RowWrite>, owner: Kind, whole: seq<RowWrite>)
    requires forall kind :: share(kind) == if kind == owner then whole else []
    ensures share(NodeMetrics) + share(UserUsage) + share(NodeUsage) + share(CollectionEvent) + share(NodeHardware)
            + share(LiveNode)
            == if Turn(owner) < 6 then whole else []
  {
    OneOfSix(share(NodeMetrics), share(UserUsage), share(NodeUsage), share(CollectionEvent), share(NodeHardware),
        share(LiveNode), whole, Turn(owner));
  }

  /** The same if only hardware and live_node records do. */
  lemma {:induction false} TwoSpeak(share: Kind -> seq<RowWrite>)
    requires forall kind :: kind != NodeHardware && kind != LiveNode ==> share(kind) == []
    ensures share(NodeMetrics) + share(UserUsage) + share(NodeUsage) + share(CollectionEvent) + share(NodeHardware)
            + share(LiveNode)
            == share(NodeHardware) + share(LiveNode)
  {
    TwoOfSix(share(NodeMetrics), share(UserUsage), share(NodeUsage), share(CollectionEvent), share(NodeHardware),
        share(LiveNode));
  }

  function Sharing(items: seq<Item>, k: Key): Kind -> seq<RowWrite> { (kind: Kind) => Share(items, kind, k) }

  lemma {:induction false} SharesBy(items: seq<Item>, k: Key) returns (share: Kind -> seq<RowWrite>)
    requires AreItems(items)
    ensures share(NodeHardware) == Share(items, NodeHardware, k) && share(LiveNode) == Share(items, LiveNode, k)
    ensures For(Before(PlanItems(items)), k)
            == share(NodeMetrics) + share(UserUsage) + share(NodeUsage) + share(CollectionEvent) + share(NodeHardware)
                + share(LiveNode)
    ensures k.NodeKey? ==> forall kind :: kind != NodeHardware && kind != LiveNode ==> share(kind) == []
    ensures !k.NodeKey? ==> forall kind :: share(kind) == if kind == Owner(k) then For(Flat(items), k) else []
  {
    share := Sharing(items, k);
    Shares(items, k);
    forall kind ensures share(kind) == Share(items, kind, k) {}
    if k.NodeKey? {
      forall kind | kind != NodeHardware && kind != LiveNode ensures share(kind) == [] { ShareOf(items, kind, k); }
    } else {
      forall kind ensures share(kind) == if kind == Owner(k) then For(Flat(items), k) else [] {
        ShareOf(items, kind, k);
      }
    }
  }

  lemma {:induction false} BeforeAt(items: seq<Item>, k: Key)
    requires AreItems(items)
    ensures For(Before(PlanItems(items)), k) ==
            if k.NodeKey? then Share(items, NodeHardware, k) + Share(items, LiveNode, k)
            else if k.SnapshotKey? then []
            else For(Flat(items), k)
  {
    if k.NodeKey? {
      BeforeNode(items, k);
    } else {
      BeforeOther(items, k);
    }
  }

  lemma {:induction false} BeforeNode(items: seq<Item>, k: Key)
    requires AreItems(items) && k.NodeKey?
    ensures For(Before(PlanItems(items)), k) == Share(items, NodeHardware, k) + Share(items, LiveNode, k)
  {
    var share := SharesBy(items, k);
    TwoSpeak(share);
  }

  lemma {:induction false} BeforeOther(items: seq<Item>, k: Key)
    requires AreItems(items) && !k.NodeKey?
    ensures For(Before(PlanItems(items)), k) == if k.SnapshotKey? then [] else For(Flat(items), k)
  {
    OwnerTurn(k);
    var owner, whole := Owner(k), For(Flat(items), k);
    var share := SharesBy(items, k);
    OneSpeaks(share, owner, whole);
  }

  lemma {:induction false} OwnerTurn(k: Key)
    requires !k.NodeKey?
    ensures Turn(Owner(k)) < 6 <==> !k.SnapshotKey?
  {
  }

  // --- snapshots: the newest of a batch stands for all of them ---------------------------

  lemma {:induction false} NewestWins(c: Option<Cell<Column, Content>>, w: RowWrite, v: RowWrite)
    requires Wholesale(w) && Wholesale(v)
    ensures Step(Step(c, w), v) == Step(c, if Passes(w.rank, v.rank) then v else w)
  {
    assert map[] + v.update == v.update;
  }

  /** `snaps[k]`, if there is one, does to any stored row what the statements `ws` would. */
  ghost predicate StandsFor(snaps: map<Key, RowWrite>, k: Key, ws: seq<RowWrite>) {
    && (k in snaps <==> k.SnapshotKey? && ws != [])
    && (k in snaps ==> Wholesale(snaps[k]) && SameEffect(ws, snaps[k]))
  }

  ghost predicate SameEffect(ws: seq<RowWrite>, w: RowWrite) {
    forall c :: Fold(c, ws) == Step(c, w)
  }

  lemma {:induction false} EffectOfOne(w: RowWrite)
    ensures SameEffect([w], w)
  {
    assert [w][..0] == [];
  }

  lemma {:induction false} EffectOfMore(ws: seq<RowWrite>, w: RowWrite, v: RowWrite)
    requires SameEffect(ws, w) && Wholesale(w) && Wholesale(v)
    ensures SameEffect(ws + [v], if Passes(w.rank, v.rank) then v else w)
  {
    assert (ws + [v])[..|ws|] == ws;
    forall c ensures Fold(c, ws + [v]) == Step(c, if Passes(w.rank, v.rank) then v else w) {
      assert Fold(c, ws) == Step(c, w);
      NewestWins(c, w, v);
    }
  }

  lemma {:induction false} ForSingle(s: Statement, k: Key)
    ensures For([s], k) == if s.key == k then [s.write] else []
  {
    assert [s][..0] == [];
  }

  lemma {:induction false} SnapshotStep(snaps: map<Key, RowWrite>, k: Key, vs: seq<RowWrite>, item: Item)
    requires StandsFor(snaps, k, vs) && IsItem(item)
    ensures StandsFor(Snapped(snaps, item), k, vs + For(item.ss, k)) || !k.SnapshotKey?
    ensures k !in snaps && !k.SnapshotKey? ==> k !in Snapped(snaps, item)
  {
    if item.kind == LiveProcesses {
      var s := item.ss[0];
      assert item.ss == [s] && IsOwn(LiveProcesses, s);
      ForSingle(s, k);
      if s.key == k && vs == [] {
        EffectOfOne(s.write);
        assert vs + [s.write] == [s.write];
      } else if s.key == k {
        EffectOfMore(vs, snaps[k], s.write);
      } else {
        assert vs + [] == vs;
      }
    } else if k.SnapshotKey? {
      ForOther(item.ss, item.kind, k);
      assert vs + [] == vs;
    }
  }

  lemma {:induction false} SnapshotAt(items: seq<Item>, k: Key)
    requires AreItems(items)
    ensures StandsFor(PlanItems(items).snapshots, k, For(Flat(items), k))
  {
    if items != [] {
      var n := |items| - 1;
      SnapshotAt(items[..n], k);
      ForAppend(Flat(items[..n]), items[n].ss, k);
      SnapshotStep(PlanItems(items[..n]).snapshots, k, For(Flat(items[..n]), k), items[n]);
    }
  }

  // --- a committed batch, key by key ------------------------------------------------------

  /** The statements a plan applies to `k`. */
  function KeyWrites(p: Plan, k: Key): seq<RowWrite> {
    For(Before(p), k) + if k in p.snapshots then [p.snapshots[k]] else []
  }

  lemma {:induction false} ApplyAt(db: Db, p: Plan, k: Key)
    ensures Get(ApplyPlan(db, p).rows, k) == Fold(Get(db.rows, k), KeyWrites(p, k))
  {
    RunAt(db.rows, Before(p), k);
    var ws := For(Before(p), k);
    if k in p.snapshots {
      assert KeyWrites(p, k)[..|ws|] == ws;
    } else {
      assert KeyWrites(p, k) == ws;
    }
  }

  lemma {:induction false} ItemsAt(cfg: Config, db: Db, rs: seq<Record>, now: int, k: Key)
    ensures var items := Items(cfg, Kept(cfg, rs, now));
            AreItems(items)
            && Get(Commit(cfg, db, rs, now).rows, k) == Fold(Get(db.rows, k), KeyWrites(PlanItems(items), k))
            && Get(WriteEach(cfg, db, rs, now).rows, k) == Fold(Get(db.rows, k), For(Flat(items), k))
  {
    PlanOfItems(cfg, rs, now);
    var p, items := PlanOf(cfg, rs, now), Items(cfg, Kept(cfg, rs, now));
    ApplyAt(db, p, k);
    RunAt(db.rows, Flat(items), k);
    assert Before(p) == Before(PlanItems(items));
  }

  lemma {:induction false} Regroup(c: Option<Cell<Column, Content>>, items: seq<Item>, k: Key)
    requires AreItems(items) && !k.NodeKey?
    ensures Fold(c, KeyWrites(PlanItems(items), k)) == Fold(c, For(Flat(items), k))
  {
    var p := PlanItems(items);
    BeforeAt(items, k);
    SnapshotAt(items, k);
    if k in p.snapshots {
      assert KeyWrites(p, k) == [p.snapshots[k]];
      assert [p.snapshots[k]][..0] == [];
    } else {
      assert KeyWrites(p, k) == For(Before(p), k);
    }
  }

  /** Regrouping is invisible: outside `nodes`, every row is as if the records had been
      written one by one in their order. */
  lemma {:induction false} PlanRefinesRecords(cfg: Config, db: Db, rs: seq<Record>, now: int, k: Key)
    requires !k.NodeKey?
    ensures Get(Commit(cfg, db, rs, now).rows, k) == Get(WriteEach(cfg, db, rs, now).rows, k)
  {
    ItemsAt(cfg, db, rs, now, k);
    Regroup(Get(db.rows, k), Items(cfg, Kept(cfg, rs, now)), k);
  }

  // --- nodes: last_seen and first_seen do not depend on the order -------------------------

  function Ranks(ws: seq<RowWrite>): multiset<Option<int>> {
    if ws == [] then multiset{} else Ranks(ws[..|ws| - 1]) + multiset{ws[|ws| - 1].rank}
  }

  function RanksOf(ss: seq<Statement>, k: Key): multiset<Option<int>> { Ranks(For(ss, k)) }

  lemma {:induction false} RanksAppend(vs: seq<RowWrite>, ws: seq<RowWrite>)
    ensures Ranks(vs + ws) == Ranks(vs) + Ranks(ws)
  {
    if ws == [] {
      assert vs + ws == vs;
    } else {
      assert (vs + ws)[..|vs + ws| - 1] == vs + ws[..|ws| - 1];
      RanksAppend(vs, ws[..|ws| - 1]);
    }
  }

  lemma {:induction false} NodeRanks(items: seq<Item>, k: Key)
    requires AreItems(items) && k.NodeKey?
    ensures RanksOf(Flat(items), k) == RanksOf(Flat(Only(items, NodeHardware)), k)
            + RanksOf(Flat(Only(items, LiveNode)), k)
  {
    if items != [] {
      var n := |items| - 1;
      NodeRanks(items[..n], k);
      RanksSnoc(Flat(items[..n]), items[n].ss, k);
      OnlyRanks(items, NodeHardware, k);
      OnlyRanks(items, LiveNode, k);
      if items[n].kind != NodeHardware && items[n].kind != LiveNode {
        ForOther(items[n].ss, items[n].kind, k);
      }
      RanksJoin(RanksOf(Flat(items[..n]), k), RanksOf(Flat(Only(items[..n], NodeHardware)), k),
                RanksOf(Flat(Only(items[..n], LiveNode)), k), RanksOf(items[n].ss, k), items[n].kind);
    }
  }

  lemma {:induction false} RanksJoin<T>(all: multiset<T>, hw: multiset<T>, live: multiset<T>, last: multiset<T>,
        kind: Kind)
    requires all == hw + live && (kind != NodeHardware && kind != LiveNode ==> last == multiset{})
    ensures all + last == (hw + if kind == NodeHardware then last else multiset{})
                          + (live + if kind == LiveNode then last else multiset{})
  {
  }

  lemma {:induction false} OnlyRanks(items: seq<Item>, kind: Kind, k: Key)
    requires items != []
    ensures var n := |items| - 1;
            RanksOf(Flat(Only(items, kind)), k) == RanksOf(Flat(Only(items[..n], kind)), k)
              + if items[n].kind == kind then RanksOf(items[n].ss, k) else multiset{}
  {
    var n := |items| - 1;
    FlatOnly(items, kind);
    RanksSnoc(Flat(Only(items[..n], kind)), items[n].ss, k);
  }

  lemma {:induction false} RanksSnoc(ss: seq<Statement>, rs: seq<Statement>, k: Key)
    ensures RanksOf(ss + rs, k) == RanksOf(ss, k) + RanksOf(rs, k)
  {
    ForAppend(ss, rs, k);
    RanksAppend(For(ss, k), For(rs, k));
  }

  lemma {:induction false} RanksEmpty(ws: seq<RowWrite>)
    ensures Ranks(ws) == multiset{} <==> ws == []
  {
    if ws != [] {
      assert ws[|ws| - 1].rank in Ranks(ws);
    }
  }

  lemma {:induction false} RankFrom(ws: seq<RowWrite>, x: Option<int>) returns (i: nat)
    requires x in Ranks(ws)
    ensures i < |ws| && ws[i].rank == x
  {
    var n := |ws| - 1;
    if ws[n].rank == x {
      i := n;
    } else {
      i := RankFrom(ws[..n], x);
    }
  }

  /** A fold's rank is the largest there is. */
  lemma {:induction false} FoldRank(c: Option<Cell<Column, Content>>, ws: seq<RowWrite>)
    requires ws != [] && forall i :: 0 <= i < |ws| ==> ws[i].rank.Some?
    requires c.Some? ==> c.value.rank.Some?
    ensures var y := Fold(c, ws);
            y.Some? && y.value.rank.Some?
            && (c.Some? ==> c.value.rank.value <= y.value.rank.value)
            && (y.value.rank in Ranks(ws) || (c.Some? && y.value.rank == c.value.rank))
  {
    var n := |ws| - 1;
    if n > 0 {
      FoldRank(c, ws[..n]);
    } else {
      assert ws[..n] == [];
    }
  }

  lemma {:induction false} FoldRankByBag(c: Option<Cell<Column, Content>>, ws: seq<RowWrite>, vs: seq<RowWrite>)
    requires forall i :: 0 <= i < |ws| ==> ws[i].rank.Some?
    requires forall i :: 0 <= i < |vs| ==> vs[i].rank.Some?
    requires Ranks(ws) == Ranks(vs)
    ensures var y, z := Fold(c, ws), Fold(c, vs); y.Some? == z.Some? && (y.Some? ==> y.value.rank == z.value.rank)
  {
    if ws == [] || vs == [] {
      RanksEmpty(ws);
      RanksEmpty(vs);
    } else if c.Some? && c.value.rank.None? {
      FoldOutranked(c.value, ws);
      FoldOutranked(c.value, vs);
    } else {
      FoldRankAtMost(c, ws, vs);
      FoldRankAtMost(c, vs, ws);
    }
  }

  lemma {:induction false} FoldRankAtMost(c: Option<Cell<Column, Content>>, ws: seq<RowWrite>, vs: seq<RowWrite>)
    requires ws != [] && vs != [] && Ranks(ws) == Ranks(vs)
    requires forall i :: 0 <= i < |ws| ==> ws[i].rank.Some?
    requires forall i :: 0 <= i < |vs| ==> vs[i].rank.Some?
    requires c.Some? ==> c.value.rank.Some?
    ensures var y, z := Fold(c, ws), Fold(c, vs);
            y.Some? && z.Some? && y.value.rank.Some? && z.value.rank.Some? && y.value.rank.value <= z.value.rank.value
  {
    FoldRank(c, ws);
    FoldRank(c, vs);
    var y := Fold(c, ws).value.rank;
    if y in Ranks(ws) {
      var i := RankFrom(vs, y);
      FoldRanksHighest(c, vs, i);
    }
  }

  /** The smallest time a row was ever seen at. */
  function Earliest(first: Option<int>, ws: seq<RowWrite>): Option<int> {
    if ws == [] then first
    else
      var e, x := Earliest(first, ws[..|ws| - 1]), ws[|ws| - 1].rank;
      if x.None? || (e.Some? && e.value <= x.value) then e else x
  }

  lemma {:induction false} EarliestSnoc(first: Option<int>, ws: seq<RowWrite>, w: RowWrite)
    ensures var e := Earliest(first, ws);
            Earliest(first, ws + [w]) == if w.rank.None? || (e.Some? && e.value <= w.rank.value) then e else w.rank
  {
    assert (ws + [w])[..|ws|] == ws;
  }

  lemma {:induction false} SeenOnceAt(m: map<Key, int>, s: Statement, k: Key, first: Option<int>, ws: seq<RowWrite>)
    requires k.NodeKey? && Get(m, k) == Earliest(first, ws)
    ensures Get(SeenOnce(m, s), k) == Earliest(first, if s.key == k then ws + [s.write] else ws)
  {
    EarliestSnoc(first, ws, s.write);
  }

  lemma {:induction false} SeenAt(m: map<Key, int>, ss: seq<Statement>, k: Key)
    ensures Get(Seen(m, ss), k) == if k.NodeKey? then Earliest(Get(m, k), For(ss, k)) else Get(m, k)
  {
    if ss != [] {
      var n := |ss| - 1;
      SeenAt(m, ss[..n], k);
      assert For(ss, k) == if ss[n].key == k then For(ss[..n], k) + [ss[n].write] else For(ss[..n], k);
      if k.NodeKey? {
        SeenOnceAt(Seen(m, ss[..n]), ss[n], k, Get(m, k), For(ss[..n], k));
      }
    }
  }

  lemma {:induction false} EarliestBounds(first: Option<int>, ws: seq<RowWrite>)
    ensures var e := Earliest(first, ws);
            (forall i :: 0 <= i < |ws| && ws[i].rank.Some? ==> e.Some? && e.value <= ws[i].rank.value)
            && (first.Some? ==> e.Some? && e.value <= first.value)
            && (e == first || e in Ranks(ws))
  {
    if ws != [] {
      EarliestBounds(first, ws[..|ws| - 1]);
    }
  }

  lemma {:induction false} EarliestByBag(first: Option<int>, ws: seq<RowWrite>, vs: seq<RowWrite>)
    requires Ranks(ws) == Ranks(vs)
    ensures Earliest(first, ws) == Earliest(first, vs)
  {
    EarliestBounds(first, ws);
    EarliestBounds(first, vs);
    var a, b := Earliest(first, ws), Earliest(first, vs);
    if a in Ranks(vs) && a.Some? { var i := RankFrom(vs, a); }
    if b in Ranks(ws) && b.Some? { var j := RankFrom(ws, b); }
  }

  lemma {:induction false} NodeRanksKnown(items: seq<Item>, k: Key)
    requires AreItems(items) && k.NodeKey?
    ensures forall i :: 0 <= i < |For(Flat(items), k)| ==> For(Flat(items), k)[i].rank.Some?
  {
    if items != [] {
      var n := |items| - 1;
      NodeRanksKnown(items[..n], k);
      ForAppend(Flat(items[..n]), items[n].ss, k);
      ForKnown(items[n].kind, items[n].ss, k);
    }
  }

  lemma {:induction false} ForKnown(kind: Kind, ss: seq<Statement>, k: Key)
    requires k.NodeKey? && forall i :: 0 <= i < |ss| ==> IsOwn(kind, ss[i])
    ensures forall i :: 0 <= i < |For(ss, k)| ==> For(ss, k)[i].rank.Some?
  {
    if ss != [] {
      ForKnown(kind, ss[..|ss| - 1], k);
    }
  }

  lemma {:induction false} OnlyItems(items: seq<Item>, kind: Kind)
    requires AreItems(items)
    ensures AreItems(Only(items, kind))
  {
    if items != [] {
      OnlyItems(items[..|items| - 1], kind);
    }
  }

  lemma {:induction false} NodeWrites(items: seq<Item>, k: Key)
    requires AreItems(items) && k.NodeKey?
    ensures KeyWrites(PlanItems(items), k) == For(Before(PlanItems(items)), k)
    ensures var ws, vs := For(Before(PlanItems(items)), k), For(Flat(items), k);
            Ranks(ws) == Ranks(vs)
            && (forall i :: 0 <= i < |ws| ==> ws[i].rank.Some?) && (forall i :: 0 <= i < |vs| ==> vs[i].rank.Some?)
  {
    var hw, live := Only(items, NodeHardware), Only(items, LiveNode);
    BeforeAt(items, k);
    SnapshotAt(items, k);
    NodeRanks(items, k);
    RanksAppend(For(Flat(hw), k), For(Flat(live), k));
    OnlyItems(items, NodeHardware);
    OnlyItems(items, LiveNode);
    NodeRanksKnown(hw, k);
    NodeRanksKnown(live, k);
    NodeRanksKnown(items, k);
  }

  lemma {:induction false} FirstSeenAt(cfg: Config, db: Db, rs: seq<Record>, now: int, k: Key)
    ensures var items := Items(cfg, Kept(cfg, rs, now));
            AreItems(items)
            && Get(Commit(cfg, db, rs, now).firstSeen, k)
               == (if k.NodeKey? then Earliest(Get(db.firstSeen, k), For(Before(PlanItems(items)), k))
                   else Get(db.firstSeen, k))
            && Get(WriteEach(cfg, db, rs, now).firstSeen, k)
               == (if k.NodeKey? then Earliest(Get(db.firstSeen, k), For(Flat(items), k)) else Get(db.firstSeen, k))
  {
    PlanOfItems(cfg, rs, now);
    var p, items := PlanOf(cfg, rs, now), Items(cfg, Kept(cfg, rs, now));
    assert Before(p) == Before(PlanItems(items));
    SeenAt(db.firstSeen, Before(p), k);
    SeenAt(db.firstSeen, Flat(items), k);
  }

  /** In `nodes`, first_seen and last_seen are those of one-by-one writing too. */
  lemma {:induction false} PlanRefinesNodes(cfg: Config, db: Db, rs: seq<Record>, now: int, k: Key)
    requires k.NodeKey?
    ensures var c, e := Commit(cfg, db, rs, now), WriteEach(cfg, db, rs, now);
            Get(c.firstSeen, k) == Get(e.firstSeen, k)
            && (k in c.rows <==> k in e.rows)
            && (k in c.rows ==> c.rows[k].rank == e.rows[k].rank)
  {
    ItemsAt(cfg, db, rs, now, k);
    FirstSeenAt(cfg, db, rs, now, k);
    var items := Items(cfg, Kept(cfg, rs, now));
    var ws, vs := For(Before(PlanItems(items)), k), For(Flat(items), k);
    NodeWrites(items, k);
    FoldRankByBag(Get(db.rows, k), ws, vs);
    EarliestByBag(Get(db.firstSeen, k), ws, vs);
  }

  // --- committing a batch again ------------------------------------------------------------

  /** A row whose time is past its table's retention. */
  predicate Lapsed(cfg: Config, k: Key, now: int) {
    match k
    case SummaryKey(t, _, _, _, at) => at < Partitions.Cutoff(now, cfg.days(t))
    case EventKey(_, _, at, _) => at < Partitions.Cutoff(now, cfg.days(Events))
    case _ => false
  }

  lemma {:induction false} RecordLapses(cfg: Config, r: Record, now: int, i: nat)
    requires i < |StatementsOf(cfg, r)|
    ensures Expired(cfg, r, now) <==> Lapsed(cfg, StatementsOf(cfg, r)[i].key, now)
  {
  }

  lemma {:induction false} ForNone(ss: seq<Statement>, k: Key)
    requires forall i :: 0 <= i < |ss| ==> ss[i].key != k
    ensures For(ss, k) == []
  {
    if ss != [] {
      ForNone(ss[..|ss| - 1], k);
    }
  }

  lemma {:induction false} RecordSays(cfg: Config, r: Record, now: int, k: Key)
    requires Expired(cfg, r, now) != Lapsed(cfg, k, now)
    ensures For(StatementsOf(cfg, r), k) == []
  {
    var ss := StatementsOf(cfg, r);
    forall i | 0 <= i < |ss| ensures ss[i].key != k { RecordLapses(cfg, r, now, i); }
    ForNone(ss, k);
  }

  // Lists of records, whatever is said of each.

  function Keeps(keep: Record -> bool, rs: seq<Record>): seq<Record> {
    if rs == [] then [] else Keeps(keep, rs[..|rs| - 1]) + if keep(rs[|rs| - 1]) then [rs[|rs| - 1]] else []
  }

  function Heard(says: Record -> seq<RowWrite>, rs: seq<Record>): seq<RowWrite> {
    if rs == [] then [] else Heard(says, rs[..|rs| - 1]) + says(rs[|rs| - 1])
  }

  function Each(item: Record -> Item, rs: seq<Record>): seq<Item> {
    if rs == [] then [] else Each(item, rs[..|rs| - 1]) + [item(rs[|rs| - 1])]
  }

  lemma {:induction false} HeardSnoc(says: Record -> seq<RowWrite>, rs: seq<Record>, r: Record)
    ensures Heard(says, rs + [r]) == Heard(says, rs) + says(r)
  {
    assert (rs + [r])[..|rs|] == rs;
  }

  lemma {:induction false} EachSnoc(item: Record -> Item, rs: seq<Record>, r: Record)
    ensures Each(item, rs + [r]) == Each(item, rs) + [item(r)]
  {
    assert (rs + [r])[..|rs|] == rs;
  }

  lemma {:induction false} HeardKept(says: Record -> seq<RowWrite>, keep: Record -> bool, rs: seq<Record>)
    ensures (forall r :: !keep(r) ==> says(r) == []) ==> Heard(says, Keeps(keep, rs)) == Heard(says, rs)
    ensures (forall r :: keep(r) ==> says(r) == []) ==> Heard(says, Keeps(keep, rs)) == []
  {
    if rs != [] {
      var init, r := rs[..|rs| - 1], rs[|rs| - 1];
      HeardKept(says, keep, init);
      HeardSnoc(says, Keeps(keep, init), r);
      assert !keep(r) ==> Keeps(keep, rs) == Keeps(keep, init);
    }
  }

  lemma {:induction false} OnlySnoc(items: seq<Item>, item: Item, kind: Kind)
    ensures Only(items + [item], kind) == Only(items, kind) + if item.kind == kind then [item] else []
  {
    assert (items + [item])[..|items|] == items;
  }

  lemma {:induction false} OnlyKept(item: Record -> Item, keep: Record -> bool, rs: seq<Record>, kind: Kind)
    requires forall r :: !keep(r) ==> item(r).kind != kind
    ensures Only(Each(item, Keeps(keep, rs)), kind) == Only(Each(item, rs), kind)
  {
    if rs != [] {
      var init, r := rs[..|rs| - 1], rs[|rs| - 1];
      OnlyKept(item, keep, init, kind);
      OnlySnoc(Each(item, init), item(r), kind);
      if keep(r) {
        EachSnoc(item, Keeps(keep, init), r);
        OnlySnoc(Each(item, Keeps(keep, init)), item(r), kind);
      } else {
        assert Keeps(keep, rs) == Keeps(keep, init);
      }
    }
  }

  // ... and what the writer says of each.

  function Saying(cfg: Config, k: Key): Record -> seq<RowWrite> { r => For(StatementsOf(cfg, r), k) }

  function Itemizer(cfg: Config): Record -> Item { r => ItemOf(cfg, r) }

  function Fresh(cfg: Config, now: int): Record -> bool { r => !Expired(cfg, r, now) }

  lemma {:induction false} ItemsAre(cfg: Config, rs: seq<Record>)
    ensures Items(cfg, rs) == Each(Itemizer(cfg), rs)
  {
    if rs != [] {
      var init, r := rs[..|rs| - 1], rs[|rs| - 1];
      assert rs == init + [r];
      ItemsAre(cfg, init);
      ItemsSnoc(cfg, init, r);
    }
  }

  lemma {:induction false} KeptAre(cfg: Config, rs: seq<Record>, now: int)
    ensures Kept(cfg, rs, now) == Keeps(Fresh(cfg, now), rs)
  {
    if rs != [] {
      KeptAre(cfg, rs[..|rs| - 1], now);
    }
  }

  lemma {:induction false} HeardOf(item: Record -> Item, says: Record -> seq<RowWrite>, rs: seq<Record>, k: Key)
    requires forall r :: says(r) == For(item(r).ss, k)
    ensures For(Flat(Each(item, rs)), k) == Heard(says, rs)
  {
    if rs != [] {
      var init, r := rs[..|rs| - 1], rs[|rs| - 1];
      HeardOf(item, says, init, k);
      FlatSnoc(Each(item, init), item(r));
      ForAppend(Flat(Each(item, init)), item(r).ss, k);
    }
  }

  lemma {:induction false} HeardIs(cfg: Config, rs: seq<Record>, k: Key)
    ensures For(Flat(Items(cfg, rs)), k) == Heard(Saying(cfg, k), rs)
  {
    ItemsAre(cfg, rs);
    HeardOf(Itemizer(cfg), Saying(cfg, k), rs, k);
  }

  lemma {:induction false} FlatItems(cfg: Config, rs: seq<Record>, r: Record, k: Key)
    ensures For(Flat(Items(cfg, rs + [r])), k) == For(Flat(Items(cfg, rs)), k) + For(StatementsOf(cfg, r), k)
  {
    ItemsSnoc(cfg, rs, r);
    FlatSnoc(Items(cfg, rs), ItemOf(cfg, r));
    ForAppend(Flat(Items(cfg, rs)), ItemOf(cfg, r).ss, k);
  }

  lemma {:induction false} ItemsSnoc(cfg: Config, rs: seq<Record>, r: Record)
    ensures Items(cfg, rs + [r]) == Items(cfg, rs) + [ItemOf(cfg, r)]
  {
  }

  /** Retention takes all of a key's rows or none: the time it tests is part of the key. */
  lemma {:induction false} KeptAt(cfg: Config, rs: seq<Record>, now: int, k: Key)
    ensures For(Flat(Items(cfg, Kept(cfg, rs, now))), k)
            == if Lapsed(cfg, k, now) then [] else For(Flat(Items(cfg, rs)), k)
  {
    var says, keep := Saying(cfg, k), Fresh(cfg, now);
    KeptAre(cfg, rs, now);
    HeardIs(cfg, Keeps(keep, rs), k);
    HeardIs(cfg, rs, k);
    forall r | keep(r) == Lapsed(cfg, k, now) ensures says(r) == [] { RecordSays(cfg, r, now, k); }
    HeardKept(says, keep, rs);
  }

  lemma {:induction false} KeptOnly(cfg: Config, rs: seq<Record>, now: int, kind: Kind)
    requires TableOf(kind).None?
    ensures Only(Items(cfg, Kept(cfg, rs, now)), kind) == Only(Items(cfg, rs), kind)
  {
    KeptAre(cfg, rs, now);
    ItemsAre(cfg, rs);
    ItemsAre(cfg, Keeps(Fresh(cfg, now), rs));
    OnlyKept(Itemizer(cfg), Fresh(cfg, now), rs, kind);
  }

  /** All a batch has to say about a key. */
  function Says(cfg: Config, rs: seq<Record>, k: Key): seq<RowWrite> {
    var items := Items(cfg, rs);
    if k.NodeKey? then Share(items, NodeHardware, k) + Share(items, LiveNode, k)
    else For(Flat(items), k)
  }

  /** A committed batch in closed form: each key gets what the batch says about it, unless it
      has lapsed. */
  lemma {:induction false} CommitAt(cfg: Config, db: Db, rs: seq<Record>, now: int, k: Key)
    ensures Get(Commit(cfg, db, rs, now).rows, k)
            == Fold(Get(db.rows, k), if Lapsed(cfg, k, now) then [] else Says(cfg, rs, k))
    ensures Get(Commit(cfg, db, rs, now).firstSeen, k)
            == if k.NodeKey? then Earliest(Get(db.firstSeen, k), Says(cfg, rs, k)) else Get(db.firstSeen, k)
  {
    var items := Items(cfg, Kept(cfg, rs, now));
    ItemsAt(cfg, db, rs, now, k);
    FirstSeenAt(cfg, db, rs, now, k);
    if k.NodeKey? {
      NodeWrites(items, k);
      BeforeAt(items, k);
      KeptOnly(cfg, rs, now, NodeHardware);
      KeptOnly(cfg, rs, now, LiveNode);
    } else {
      Regroup(Get(db.rows, k), items, k);
      KeptAt(cfg, rs, now, k);
    }
  }

  lemma {:induction false} FlatProper(items: seq<Item>, k: Key)
    requires AreItems(items)
    ensures AllProper(For(Flat(items), k))
  {
    if items != [] {
      var n := |items| - 1;
      FlatProper(items[..n], k);
      ForProper(items[n].ss, k);
      ForAppend(Flat(items[..n]), items[n].ss, k);
    }
  }

  lemma {:induction false} SaysProper(cfg: Config, rs: seq<Record>, k: Key)
    ensures AllProper(Says(cfg, rs, k))
  {
    RecordItems(cfg, rs);
    var items := Items(cfg, rs);
    OnlyItems(items, NodeHardware);
    OnlyItems(items, LiveNode);
    FlatProper(Only(items, NodeHardware), k);
    FlatProper(Only(items, LiveNode), k);
    FlatProper(items, k);
  }

  lemma {:induction false} EarliestSettled(e: Option<int>, ws: seq<RowWrite>)
    requires forall i :: 0 <= i < |ws| && ws[i].rank.Some? ==> e.Some? && e.value <= ws[i].rank.value
    ensures Earliest(e, ws) == e
  {
    if ws != [] {
      EarliestSettled(e, ws[..|ws| - 1]);
    }
  }

  function Min(a: int, b: int): int { if a <= b then a else b }

  /** Committing a batch twice, with the clock at any two times, is committing it once at the
      earlier: the retry changes nothing, even where retention has moved on meanwhile. */
  lemma {:induction false} Recommit(cfg: Config, db: Db, rs: seq<Record>, first: int, second: int)
    ensures Commit(cfg, Commit(cfg, db, rs, first), rs, second) == Commit(cfg, db, rs, Min(first, second))
  {
    var once, twice := Commit(cfg, db, rs, Min(first, second)), Commit(cfg, Commit(cfg, db, rs, first), rs, second);
    forall k ensures Get(twice.rows, k) == Get(once.rows, k) && Get(twice.firstSeen, k) == Get(once.firstSeen, k) {
      RecommitAt(cfg, db, rs, first, second, k);
    }
    SameRows(twice.rows, once.rows);
    SameRows(twice.firstSeen, once.firstSeen);
  }

  lemma {:induction false} RecommitAt(cfg: Config, db: Db, rs: seq<Record>, first: int, second: int, k: Key)
    ensures var once, twice := Commit(cfg, db, rs, Min(first, second)),
            Commit(cfg, Commit(cfg, db, rs, first), rs, second);
            Get(twice.rows, k) == Get(once.rows, k) && Get(twice.firstSeen, k) == Get(once.firstSeen, k)
  {
    var mid := Commit(cfg, db, rs, first);
    CommitAt(cfg, db, rs, first, k);
    CommitAt(cfg, mid, rs, second, k);
    CommitAt(cfg, db, rs, Min(first, second), k);
    var ws := Says(cfg, rs, k);
    SaysProper(cfg, rs, k);
    FoldIdempotent(Get(db.rows, k), ws);
    if k.NodeKey? {
      EarliestBounds(Get(db.firstSeen, k), ws);
      EarliestSettled(Earliest(Get(db.firstSeen, k), ws), ws);
    }
    assert Lapsed(cfg, k, Min(first, second)) <==> Lapsed(cfg, k, first) && Lapsed(cfg, k, second);
  }

  // --- a log of commits ---------------------------------------------------------------------

  /** Submission `id`, committed with the clock at `now`. */
  datatype Committed = Committed(id: nat, now: int)

  ghost predicate AreCommits(cs: seq<Committed>, batches: seq<seq<Record>>) {
    forall i :: 0 <= i < |cs| ==> cs[i].id < |batches|
  }

  function Batch(batches: seq<seq<Record>>, id: nat): seq<Record> {
    if id < |batches| then batches[id] else []
  }

  ghost function Replay(cfg: Config, db: Db, batches: seq<seq<Record>>, cs: seq<Committed>): Db {
    if cs == [] then db
    else
      var c := cs[|cs| - 1];
      Commit(cfg, Replay(cfg, db, batches, cs[..|cs| - 1]), Batch(batches, c.id), c.now)
  }

  /** The log with each run of repeats of one submission replaced by its earliest. */
  ghost function Once(cs: seq<Committed>): (o: seq<Committed>)
    ensures cs != [] ==> o != [] && o[|o| - 1].id == cs[|cs| - 1].id
    ensures cs == [] ==> o == []
  {
    if cs == [] then [] else OnceMore(Once(cs[..|cs| - 1]), cs[|cs| - 1])
  }

  /** One more commit: it repeats the last submission or is the first of the next. */
  function OnceMore(o: seq<Committed>, c: Committed): seq<Committed> {
    if o != [] && o[|o| - 1].id == c.id
    then o[..|o| - 1] + [Committed(c.id, Min(o[|o| - 1].now, c.now))]
    else o + [c]
  }

  ghost predicate InOrder(cs: seq<Committed>) {
    forall i, j :: 0 <= i < j < |cs| ==> cs[i].id <= cs[j].id
  }

  ghost predicate StrictlyInOrder(cs: seq<Committed>) {
    forall i, j :: 0 <= i < j < |cs| ==> cs[i].id < cs[j].id
  }

  lemma {:induction false} ReplaySnoc(cfg: Config, db: Db, batches: seq<seq<Record>>, cs: seq<Committed>, c: Committed)
    ensures Replay(cfg, db, batches, cs + [c]) == Commit(cfg, Replay(cfg, db, batches, cs), Batch(batches, c.id), c.now)
  {
    assert (cs + [c])[..|cs|] == cs;
  }

  lemma {:induction false} ReplayExtends(cfg: Config, db: Db, batches: seq<seq<Record>>, more: seq<seq<Record>>,
        cs: seq<Committed>)
    requires AreCommits(cs, batches) && batches <= more
    ensures Replay(cfg, db, batches, cs) == Replay(cfg, db, more, cs)
  {
    if cs != [] {
      ReplayExtends(cfg, db, batches, more, cs[..|cs| - 1]);
    }
  }

  /** Every table equals applying each committed submission once. */
  lemma {:induction false} OnceSuffices(cfg: Config, db: Db, batches: seq<seq<Record>>, cs: seq<Committed>)
    ensures Replay(cfg, db, batches, cs) == Replay(cfg, db, batches, Once(cs))
  {
    if cs != [] {
      var n := |cs| - 1;
      OnceSuffices(cfg, db, batches, cs[..n]);
      ReplayOnceMore(cfg, db, batches, Once(cs[..n]), cs[n]);
    }
  }

  lemma {:induction false} ReplayOnceMore(cfg: Config, db: Db, batches: seq<seq<Record>>, o: seq<Committed>,
        c: Committed)
    ensures Replay(cfg, db, batches, OnceMore(o, c))
            == Commit(cfg, Replay(cfg, db, batches, o), Batch(batches, c.id), c.now)
  {
    var m := |o| - 1;
    if o != [] && o[m].id == c.id {
      Recommit(cfg, Replay(cfg, db, batches, o[..m]), Batch(batches, c.id), o[m].now, c.now);
      ReplaySnoc(cfg, db, batches, o[..m], Committed(c.id, Min(o[m].now, c.now)));
    } else {
      ReplaySnoc(cfg, db, batches, o, c);
    }
  }

  ghost function Ids(cs: seq<Committed>): set<nat> {
    if cs == [] then {} else Ids(cs[..|cs| - 1]) + {cs[|cs| - 1].id}
  }

  lemma {:induction false} IdsSnoc(cs: seq<Committed>, c: Committed)
    ensures Ids(cs + [c]) == Ids(cs) + {c.id}
  {
    assert (cs + [c])[..|cs|] == cs;
  }

  /** From a log in submission order, `Once` is a subsequence of the submissions, and the
      same ones. */
  lemma {:induction false} OnceIncreases(cs: seq<Committed>)
    requires InOrder(cs)
    ensures StrictlyInOrder(Once(cs)) && Ids(Once(cs)) == Ids(cs)
  {
    if cs != [] {
      var n := |cs| - 1;
      OnceIncreases(cs[..n]);
      OnceStep(Once(cs[..n]), cs[n]);
    }
  }

  lemma {:induction false} OnceStep(o: seq<Committed>, c: Committed)
    requires StrictlyInOrder(o) && (o != [] ==> o[|o| - 1].id <= c.id)
    ensures StrictlyInOrder(OnceMore(o, c)) && Ids(OnceMore(o, c)) == Ids(o) + {c.id}
  {
    var m := |o| - 1;
    if o != [] && o[m].id == c.id {
      IdsSnoc(o[..m], Committed(c.id, Min(o[m].now, c.now)));
    } else {
      IdsSnoc(o, c);
    }
  }
}
