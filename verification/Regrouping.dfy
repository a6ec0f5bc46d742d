/**
  When regrouping a batch is exact on every table.  A plan sends all hardware before all
  live_node rows, and both write `nodes`; so the order matters there only if the batch has
  hardware behind live state, which the writer thread never submits together.
 */
module Regrouping {
  import opened Upsert
  import opened Codec
  import opened Records
  import opened Writer
  import opened WriterTheorems
  import opened Coalescing

  /** No hardware record comes after a live_node one. */
  ghost predicate HardwareLeads(items: seq<Item>) {
    forall i, j :: 0 <= i < j < |items| ==> !(items[i].kind == LiveNode && items[j].kind == NodeHardware)
  }

  lemma {:induction false} OnlyNone(items: seq<Item>, kind: Kind)
    requires forall i :: 0 <= i < |items| ==> items[i].kind != kind
    ensures Only(items, kind) == []
  {
    if items != [] {
      OnlyNone(items[..|items| - 1], kind);
    }
  }

  lemma {:induction false} ShareSnoc(items: seq<Item>, item: Item, kind: Kind, k: Key)
    ensures Share(items + [item], kind, k) == Share(items, kind, k) + if item.kind == kind then For(item.ss, k) else []
    ensures For(Flat(items + [item]), k) == For(Flat(items), k) + For(item.ss, k)
  {
    var all := items + [item];
    assert all[..|items|] == items;
    FlatOnly(all, kind);
    FlatSnoc(items, item);
    ForAppend(Flat(Only(items, kind)), item.ss, k);
    ForAppend(Flat(items), item.ss, k);
  }

  lemma {:induction false} ShareNone(items: seq<Item>, kind: Kind, k: Key)
    requires forall i :: 0 <= i < |items| ==> items[i].kind != kind
    ensures Share(items, kind, k) == []
  {
    OnlyNone(items, kind);
  }

  lemma {:induction false} Rejoin(h: seq<RowWrite>, l: seq<RowWrite>, x: seq<RowWrite>)
    ensures (h + []) + (l + x) == (h + l) + x
    ensures l == [] ==> (h + x) + (l + []) == (h + l) + x
    ensures x == [] ==> (h + []) + (l + []) == (h + l) + x
  {
  }

  lemma {:induction false} LeadsInOrder(items: seq<Item>, k: Key)
    requires AreItems(items) && HardwareLeads(items) && k.NodeKey?
    ensures Share(items, NodeHardware, k) + Share(items, LiveNode, k) == For(Flat(items), k)
  {
    if items != [] {
      var init, item := items[..|items| - 1], items[|items| - 1];
      assert items == init + [item];
      LeadsInOrder(init, k);
      LeadsStep(init, item, k);
    }
  }

  lemma {:induction false} LeadsStep(init: seq<Item>, item: Item, k: Key)
    requires IsItem(item) && k.NodeKey? && Share(init, NodeHardware, k) + Share(init, LiveNode, k) == For(Flat(init), k)
    requires item.kind == NodeHardware ==> forall i :: 0 <= i < |init| ==> init[i].kind != LiveNode
    ensures Share(init + [item], NodeHardware, k) + Share(init + [item], LiveNode, k) == For(Flat(init + [item]), k)
  {
    var h, l, x := Share(init, NodeHardware, k), Share(init, LiveNode, k), For(item.ss, k);
    ShareSnoc(init, item, NodeHardware, k);
    ShareSnoc(init, item, LiveNode, k);
    Rejoin(h, l, x);
    if item.kind == NodeHardware {
      ShareNone(init, LiveNode, k);
    } else if item.kind != LiveNode {
      ForOther(item.ss, item.kind, k);
    }
  }

  lemma {:induction false} SameWrites(items: seq<Item>, k: Key)
    requires AreItems(items) && HardwareLeads(items) && k.NodeKey?
    ensures KeyWrites(PlanItems(items), k) == For(Flat(items), k) == For(Before(PlanItems(items)), k)
  {
    NodeWrites(items, k);
    BeforeAt(items, k);
    LeadsInOrder(items, k);
  }

  lemma {:induction false} ExactAt(cfg: Config, db: Db, rs: seq<Record>, now: int, k: Key)
    requires HardwareLeads(Items(cfg, Kept(cfg, rs, now)))
    ensures Get(Commit(cfg, db, rs, now).rows, k) == Get(WriteEach(cfg, db, rs, now).rows, k)
    ensures Get(Commit(cfg, db, rs, now).firstSeen, k) == Get(WriteEach(cfg, db, rs, now).firstSeen, k)
  {
    var items := Items(cfg, Kept(cfg, rs, now));
    ItemsAt(cfg, db, rs, now, k);
    FirstSeenAt(cfg, db, rs, now, k);
    if k.NodeKey? {
      SameWrites(items, k);
    } else {
      PlanRefinesRecords(cfg, db, rs, now, k);
    }
  }

  lemma {:induction false} ApartLeads(cfg: Config, rs: seq<Record>, now: int)
    requires AllLive(rs) || NoneLive(rs)
    ensures HardwareLeads(Items(cfg, Kept(cfg, rs, now)))
  {
    KeptKinds(cfg, rs, now);
  }

  lemma {:induction false} KeptKinds(cfg: Config, rs: seq<Record>, now: int)
    ensures AllLive(rs) ==> AllLive(Kept(cfg, rs, now))
    ensures NoneLive(rs) ==> NoneLive(Kept(cfg, rs, now))
  {
    if rs != [] {
      KeptKinds(cfg, rs[..|rs| - 1], now);
    }
  }

  /** A batch as the writer thread makes them, live-only or durable-only, has on every table
      the effect of writing its records one by one. */
  lemma {:induction false} PlanExact(cfg: Config, db: Db, rs: seq<Record>, now: int)
    requires AllLive(rs) || NoneLive(rs)
    ensures Commit(cfg, db, rs, now) == WriteEach(cfg, db, rs, now)
  {
    var c, e := Commit(cfg, db, rs, now), WriteEach(cfg, db, rs, now);
    ApartLeads(cfg, rs, now);
    forall k ensures Get(c.rows, k) == Get(e.rows, k) && Get(c.firstSeen, k) == Get(e.firstSeen, k) {
      ExactAt(cfg, db, rs, now, k);
    }
    SameRows(c.rows, e.rows);
    SameRows(c.firstSeen, e.firstSeen);
  }

  lemma {:induction false} OneShare(a: Item, kind: Kind, k: Key)
    ensures Share([a], kind, k) == (if a.kind == kind then For(a.ss, k) else []) && For(Flat([a]), k) == For(a.ss, k)
  {
    ShareSnoc([], a, kind, k);
    assert [] + [a] == [a];
  }

  lemma {:induction false} TwoItems(a: Item, b: Item, k: Key)
    requires IsItem(a) && IsItem(b) && a.kind == LiveNode && b.kind == NodeHardware && k.NodeKey?
    ensures KeyWrites(PlanItems([a, b]), k) == For(b.ss, k) + For(a.ss, k)
    ensures For(Flat([a, b]), k) == For(a.ss, k) + For(b.ss, k)
  {
    var items := [a] + [b];
    assert items == [a, b] && AreItems(items);
    assert Share(items, NodeHardware, k) == For(b.ss, k) by {
      OneShare(a, NodeHardware, k);
      ShareSnoc([a], b, NodeHardware, k);
    }
    assert Share(items, LiveNode, k) == For(a.ss, k) && For(Flat(items), k) == For(a.ss, k) + For(b.ss, k) by {
      OneShare(a, LiveNode, k);
      ShareSnoc([a], b, LiveNode, k);
    }
    NodeWrites(items, k);
    BeforeAt(items, k);
  }

  lemma {:induction false} TwoSteps(c: Option<Cell<Column, Content>>, v: RowWrite, w: RowWrite)
    ensures Fold(c, [v] + [w]) == Step(Step(c, v), w)
  {
    FoldAppend(c, [v], [w]);
    assert [v][..0] == [] && [w][..0] == [];
  }

  /** The newer of two writes sets all the older does, and leaves of an empty table what it would
      leave behind the older. */
  ghost predicate Overrides(newer: RowWrite, older: RowWrite) {
    older.update.Keys <= newer.update.Keys && newer.insert == older.insert + newer.update
  }

  /** Two writes of one time agree on what both set, and each leaves what the other would. */
  ghost predicate Agreeing(v: RowWrite, w: RowWrite) {
    v.update + w.update == w.update + v.update && v.insert + w.update == w.insert + v.update
  }

  /** The order of two writes does not matter. */
  ghost predicate Commute(v: RowWrite, w: RowWrite)
    requires v.rank.Some? && w.rank.Some?
  {
    if v.rank.value < w.rank.value then Overrides(w, v)
    else if v.rank.value > w.rank.value then Overrides(v, w)
    else Agreeing(v, w)
  }

  ghost predicate SameBothWays(c: Option<Cell<Column, Content>>, v: RowWrite, w: RowWrite) {
    Step(Step(c, v), w) == Step(Step(c, w), v)
  }

  lemma {:induction false} OverridesBothWays(c: Option<Cell<Column, Content>>, older: RowWrite, newer: RowWrite)
    requires older.rank.Some? && newer.rank.Some? && older.rank.value < newer.rank.value && older.keep && newer.keep
    requires Overrides(newer, older)
    ensures SameBothWays(c, older, newer)
  {
    if c.Some? {
      assert (c.value.cols + older.update) + newer.update == c.value.cols + newer.update;
    }
  }

  lemma {:induction false} AgreeBothWays(c: Option<Cell<Column, Content>>, v: RowWrite, w: RowWrite)
    requires v.rank.Some? && w.rank == v.rank && v.keep && w.keep && Agreeing(v, w)
    ensures SameBothWays(c, v, w)
  {
    if c.Some? {
      assert (c.value.cols + v.update) + w.update == c.value.cols + (v.update + w.update);
      assert (c.value.cols + w.update) + v.update == c.value.cols + (w.update + v.update);
    }
  }

  /** An older write that is not overridden shows: on an empty table or on one of its own time. */
  lemma {:induction false} NotOverridden(older: RowWrite, newer: RowWrite)
    requires older.rank.Some? && newer.rank.Some? && older.rank.value < newer.rank.value && older.keep && newer.keep
    requires !Overrides(newer, older)
    ensures !SameBothWays(None, older, newer) || !SameBothWays(Some(Cell(older.rank, map[])), older, newer)
  {
    var z := Cell(older.rank, map[]);
    if x :| x in older.update && x !in newer.update {
      assert x in (z.cols + older.update) + newer.update && x !in z.cols + newer.update;
    }
  }

  lemma {:induction false} NotAgreeing(v: RowWrite, w: RowWrite)
    requires v.rank.Some? && w.rank == v.rank && v.keep && w.keep && !Agreeing(v, w)
    ensures !SameBothWays(None, v, w) || !SameBothWays(Some(Cell(v.rank, map[])), v, w)
  {
    assert (map[] + v.update) + w.update == v.update + w.update;
    assert (map[] + w.update) + v.update == w.update + v.update;
  }

  lemma {:induction false} CommuteExactly(v: RowWrite, w: RowWrite)
    requires v.rank.Some? && w.rank.Some? && v.keep && w.keep
    ensures Commute(v, w) <==> forall c :: SameBothWays(c, v, w)
  {
    if Commute(v, w) {
      forall c ensures SameBothWays(c, v, w) {
        if v.rank.value < w.rank.value { OverridesBothWays(c, v, w); }
        else if v.rank.value > w.rank.value { OverridesBothWays(c, w, v); }
        else { AgreeBothWays(c, v, w); }
      }
    } else if v.rank.value < w.rank.value {
      NotOverridden(v, w);
    } else if v.rank.value > w.rank.value {
      NotOverridden(w, v);
      assert !SameBothWays(None, v, w) || !SameBothWays(Some(Cell(w.rank, map[])), v, w);
    } else {
      NotAgreeing(v, w);
    }
  }

  /** What a live_node or hardware record does to its row of `nodes`. */
  function NodeWriteOf(r: Record): Statement {
    if r.kind == LiveNode then NodeStmt(r.row, Micros(At(r.row, "updated_at")), "label" in r.row)
    else NodeStmt(r.row, Micros(At(r.row, "collected_at")), false)
  }

  lemma {:induction false} NodeShare(cfg: Config, r: Record)
    requires r.kind == LiveNode || r.kind == NodeHardware
    ensures For(ItemOf(cfg, r).ss, NodeWriteOf(r).key) == [NodeWriteOf(r).write]
  {
    var first := if r.kind == LiveNode then LiveNodeStmt(cfg, r.row) else HardwareStmt(cfg, r.row);
    var k := NodeWriteOf(r).key;
    ForTwo(first, NodeWriteOf(r), k);
    ForSingle(first, k);
    ForSingle(NodeWriteOf(r), k);
  }

  lemma {:induction false} KeptBoth(cfg: Config, a: Record, b: Record, now: int)
    requires TableOf(a.kind).None? && TableOf(b.kind).None?
    ensures Items(cfg, Kept(cfg, [a, b], now)) == [ItemOf(cfg, a), ItemOf(cfg, b)]
  {
    assert [a, b][..1] == [a] && [a][..0] == [];
    assert Kept(cfg, [a], now) == [a];
    assert Kept(cfg, [a, b], now) == [a, b];
  }

  /** A batch of a live_node row and, behind it, a hardware record, leaves in the row of `nodes` they
      share what writing them one by one does. */
  ghost predicate MixedAgrees(cfg: Config, db: Db, live: Record, hardware: Record, now: int) {
    var rs, k := [live, hardware], NodeWriteOf(live).key;
    Get(Commit(cfg, db, rs, now).rows, k) == Get(WriteEach(cfg, db, rs, now).rows, k)
  }

  lemma {:induction false} MixedAt(cfg: Config, db: Db, live: Record, hardware: Record, now: int)
    requires live.kind == LiveNode && hardware.kind == NodeHardware
    requires NodeWriteOf(live).key == NodeWriteOf(hardware).key
    ensures MixedAgrees(cfg, db, live, hardware, now)
            <==> SameBothWays(Get(db.rows, NodeWriteOf(live).key), NodeWriteOf(live).write, NodeWriteOf(hardware).write)
  {
    var rs, k := [live, hardware], NodeWriteOf(live).key;
    var v, w := NodeWriteOf(live).write, NodeWriteOf(hardware).write;
    ItemsAt(cfg, db, rs, now, k);
    KeptBoth(cfg, live, hardware, now);
    RecordItem(cfg, live);
    RecordItem(cfg, hardware);
    TwoItems(ItemOf(cfg, live), ItemOf(cfg, hardware), k);
    NodeShare(cfg, live);
    NodeShare(cfg, hardware);
    TwoSteps(Get(db.rows, k), v, w);
    TwoSteps(Get(db.rows, k), w, v);
  }

  lemma {:induction false} NodeRanked(r: Record)
    requires r.kind == LiveNode || r.kind == NodeHardware
    ensures NodeWriteOf(r).write.rank.Some? && NodeWriteOf(r).write.keep
  {
  }

  /** Tables with a given row, or without it. */
  function Holding(k: Key, c: Option<Cell<Column, Content>>): Db {
    Db(if c.Some? then map[k := c.value] else map[], map[])
  }

  /** Mixed, a batch is exact, whatever the tables held, if and only if the two rows' order does not
      matter: the newer sets all the older does and knows its columns, or, at one time, they agree. */
  lemma {:induction false} MixedExactly(cfg: Config, live: Record, hardware: Record, now: int)
    requires live.kind == LiveNode && hardware.kind == NodeHardware
    requires NodeWriteOf(live).key == NodeWriteOf(hardware).key
    ensures NodeWriteOf(live).write.rank.Some? && NodeWriteOf(hardware).write.rank.Some?
    ensures Commute(NodeWriteOf(live).write, NodeWriteOf(hardware).write)
            <==> forall db :: MixedAgrees(cfg, db, live, hardware, now)
  {
    var k, v, w := NodeWriteOf(live).key, NodeWriteOf(live).write, NodeWriteOf(hardware).write;
    NodeRanked(live);
    NodeRanked(hardware);
    CommuteExactly(v, w);
    if Commute(v, w) {
      forall db ensures MixedAgrees(cfg, db, live, hardware, now) { MixedAt(cfg, db, live, hardware, now); }
    } else {
      var c :| !SameBothWays(c, v, w);
      MixedShows(cfg, live, hardware, now, c);
    }
  }

  lemma {:induction false} MixedShows(cfg: Config, live: Record, hardware: Record, now: int,
        c: Option<Cell<Column, Content>>)
    requires live.kind == LiveNode && hardware.kind == NodeHardware
    requires NodeWriteOf(live).key == NodeWriteOf(hardware).key
    requires !SameBothWays(c, NodeWriteOf(live).write, NodeWriteOf(hardware).write)
    ensures !MixedAgrees(cfg, Holding(NodeWriteOf(live).key, c), live, hardware, now)
  {
    var k := NodeWriteOf(live).key;
    MixedAt(cfg, Holding(k, c), live, hardware, now);
    assert Get(Holding(k, c).rows, k) == c;
  }

  /** Two inputs for which it is not: of one time but of another boot, and hardware that comes later
      and so costs a new node its label. */
  lemma {:induction false} MixedBatchDiffers(cfg: Config, live: Record, hardware: Record, now: int)
    requires live.kind == LiveNode && hardware.kind == NodeHardware
    requires NodeWriteOf(live).key == NodeWriteOf(hardware).key
    requires
      || (NodeWriteOf(live).write.rank == NodeWriteOf(hardware).write.rank
          && !At(live.row, "boot_id").Null? && !At(hardware.row, "boot_id").Null?
          && ToDb(At(live.row, "boot_id")) != ToDb(At(hardware.row, "boot_id")))
      || (Micros(At(live.row, "updated_at")) < Micros(At(hardware.row, "collected_at"))
          && "label" in live.row && ToDb(At(live.row, "label")) != ToDb(At(hardware.row, "label")))
    ensures !MixedAgrees(cfg, Db(map[], map[]), live, hardware, now)
  {
    var v, w := NodeWriteOf(live).write, NodeWriteOf(hardware).write;
    MixedAt(cfg, Db(map[], map[]), live, hardware, now);
    NodeRanked(live);
    NodeRanked(hardware);
    if v.rank == w.rank {
      BootSet(live, hardware);
      assert (v.insert + w.update)[Named("boot_id")] != (w.insert + v.update)[Named("boot_id")];
    } else {
      LabelSet(live, hardware);
      assert (v.insert + w.update)[Named("label")] != w.insert[Named("label")];
    }
  }

  lemma {:induction false} BootSet(live: Record, hardware: Record)
    requires live.kind == LiveNode && hardware.kind == NodeHardware
    requires !At(live.row, "boot_id").Null? && !At(hardware.row, "boot_id").Null?
    ensures var v, w := NodeWriteOf(live).write, NodeWriteOf(hardware).write;
            && Named("boot_id") in v.update && v.update[Named("boot_id")] == Field(ToDb(At(live.row, "boot_id")))
            && Named("boot_id") in w.update && w.update[Named("boot_id")] == Field(ToDb(At(hardware.row, "boot_id")))
  {
  }

  lemma {:induction false} LabelSet(live: Record, hardware: Record)
    requires live.kind == LiveNode && hardware.kind == NodeHardware
    ensures var v, w := NodeWriteOf(live).write, NodeWriteOf(hardware).write;
            && Named("label") in v.insert && v.insert[Named("label")] == Field(ToDb(At(live.row, "label")))
            && Named("label") in w.insert && w.insert[Named("label")] == Field(ToDb(At(hardware.row, "label")))
            && Named("label") !in w.update
  {
  }
}
