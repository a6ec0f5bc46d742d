/**
  A batch that waited on the spool is written as it would have been without the wait: its rows
  come back from JSON (node_monitor/database/codec.py) respelled, but every statement they make
  is the same.
 */
module SpoolTransparency {
  import opened Upsert
  import opened Codec
  import opened Records
  import opened Writer

  function CleanRow(row: Row): Row { map c | c in row :: Clean(row[c]) }

  /** A record read back from the spool. */
  function CleanRecord(r: Record): Record { Record(r.kind, CleanRow(r.row)) }

  function CleanBatch(rs: seq<Record>): seq<Record> {
    if rs == [] then [] else CleanBatch(rs[..|rs| - 1]) + [CleanRecord(rs[|rs| - 1])]
  }

  // --- a spool file's lines ----------------------------------------------------------------

  function KindName(kind: Kind): string {
    match kind
    case LiveProcesses => "live_processes"
    case LiveNode => "live_node"
    case NodeHardware => "node_hardware"
    case NodeMetrics => "node_metrics_1m"
    case UserUsage => "user_usage_5m"
    case NodeUsage => "node_usage_5m"
    case CollectionEvent => "collection_event"
    case Other(name) => name
  }

  function KindNamed(name: string): Kind {
    if name == "live_processes" then LiveProcesses
    else if name == "live_node" then LiveNode
    else if name == "node_hardware" then NodeHardware
    else if name == "node_metrics_1m" then NodeMetrics
    else if name == "user_usage_5m" then UserUsage
    else if name == "node_usage_5m" then NodeUsage
    else if name == "collection_event" then CollectionEvent
    else Other(name)
  }

  /** A kind is one of the seven known names or some other name. */
  predicate IsKind(kind: Kind) { KindNamed(KindName(kind)) == kind }

  function EncodeRecord(iso: Iso, r: Record): Json {
    JObject(map["kind" := JStr(KindName(r.kind)), "row" := Encode(iso, Dict(r.row))])
  }

  /** None where decoding raises, and where a row does not decode to a row. */
  function DecodeRecord(iso: Iso, j: Json): Option<Record> {
    if j.JObject? && "kind" in j.m && j.m["kind"].JStr? && "row" in j.m then
      var row := Decode(iso, j.m["row"]);
      if row.Some? && row.value.Dict? then Some(Record(KindNamed(j.m["kind"].s), row.value.m)) else None
    else None
  }

  function EncodeBatch(iso: Iso, rs: seq<Record>): seq<Json> {
    seq(|rs|, i requires 0 <= i < |rs| => EncodeRecord(iso, rs[i]))
  }

  /** A batch is read whole or not at all. */
  function DecodeBatch(iso: Iso, js: seq<Json>): Option<seq<Record>> {
    if forall i | 0 <= i < |js| :: DecodeRecord(iso, js[i]).Some?
    then Some(seq(|js|, i requires 0 <= i < |js| => DecodeRecord(iso, js[i]).value))
    else None
  }

  predicate RowsUnambiguous(rs: seq<Record>) {
    forall i :: 0 <= i < |rs| ==> Unambiguous(Dict(rs[i].row))
  }

  ghost predicate KindsKnown(rs: seq<Record>) {
    forall i :: 0 <= i < |rs| ==> IsKind(rs[i].kind)
  }

  lemma {:induction false} RecordComesBack(iso: Iso, r: Record)
    requires RoundTrips(iso) && IsKind(r.kind)
    ensures DecodeRecord(iso, EncodeRecord(iso, r)) == Some(CleanRecord(r)) <==> Unambiguous(Dict(r.row))
  {
    DecodeEncode(iso, Dict(r.row));
    assert Clean(Dict(r.row)) == Dict(CleanRow(r.row));
    var m := EncodeRecord(iso, r).m;
    assert m["kind"] == JStr(KindName(r.kind)) && m["row"] == Encode(iso, Dict(r.row));
  }

  lemma {:induction false} CleanBatchAt(rs: seq<Record>, i: nat)
    requires i < |rs|
    ensures |CleanBatch(rs)| == |rs| && CleanBatch(rs)[i] == CleanRecord(rs[i])
  {
    var n := |rs| - 1;
    if n > 0 {
      CleanBatchAt(rs[..n], if i < n then i else 0);
    }
  }

  /** A batch comes back from the spool as submitted, up to non-finite floats and tuples, exactly
      if no value in its rows imitates a datetime. */
  lemma {:induction false} BatchComesBack(iso: Iso, rs: seq<Record>)
    requires RoundTrips(iso) && KindsKnown(rs)
    ensures DecodeBatch(iso, EncodeBatch(iso, rs)) == Some(CleanBatch(rs)) <==> RowsUnambiguous(rs)
  {
    var js := EncodeBatch(iso, rs);
    var d := DecodeBatch(iso, js);
    forall i | 0 <= i < |rs|
      ensures |CleanBatch(rs)| == |rs| && CleanBatch(rs)[i] == CleanRecord(rs[i])
      ensures DecodeRecord(iso, js[i]) == Some(CleanRecord(rs[i])) <==> Unambiguous(Dict(rs[i].row))
    {
      CleanBatchAt(rs, i);
      RecordComesBack(iso, rs[i]);
    }
    if RowsUnambiguous(rs) {
      assert d.Some?;
      assert d.value == CleanBatch(rs);
    } else if d == Some(CleanBatch(rs)) {
      forall i | 0 <= i < |rs| ensures Unambiguous(Dict(rs[i].row)) {
        assert DecodeRecord(iso, js[i]).Some? && d.value[i] == DecodeRecord(iso, js[i]).value;
      }
    }
  }

  // --- one row ----------------------------------------------------------------------------

  lemma {:induction false} AtClean(row: Row, c: string)
    ensures At(CleanRow(row), c) == Clean(At(row, c))
  {
  }

  lemma {:induction false} ToDbClean(v: Value)
    ensures ToDb(Clean(v)) == ToDb(v) && Text(Clean(v)) == Text(v) && Micros(Clean(v)) == Micros(v)
  {
    CleanTwice(v);
  }

  lemma {:induction false} FieldsClean(columns: set<string>, row: Row)
    ensures Fields(columns, CleanRow(row)) == Fields(columns, row)
  {
    forall c | c in columns ensures ToDb(At(CleanRow(row), c)) == ToDb(At(row, c)) {
      AtClean(row, c);
      ToDbClean(At(row, c));
    }
  }

  lemma {:induction false} ColumnClean(row: Row, c: string)
    ensures Text(At(CleanRow(row), c)) == Text(At(row, c)) && Micros(At(CleanRow(row), c)) == Micros(At(row, c))
    ensures ToDb(At(CleanRow(row), c)) == ToDb(At(row, c))
  {
    AtClean(row, c);
    ToDbClean(At(row, c));
  }

  lemma {:induction false} SummaryClean(cfg: Config, t: Table, row: Row)
    ensures SummaryStmt(cfg, t, CleanRow(row)) == SummaryStmt(cfg, t, row)
  {
    FieldsClean(cfg.summaryColumns(t), row);
    ColumnClean(row, "system");
    ColumnClean(row, "node");
    ColumnClean(row, "username");
    ColumnClean(row, PartitionColumn(t));
    AtClean(row, "sample_count");
  }

  lemma {:induction false} EventClean(row: Row)
    requires At(row, "detail").Null? || At(row, "detail").Dict?
    requires At(row, "node").Null? || At(row, "node").Str?
    ensures EventStmt(CleanRow(row)) == EventStmt(row)
  {
    ColumnClean(row, "system");
    AtClean(row, "node");
    ColumnClean(row, "ts");
    ColumnClean(row, "event_type");
    AtClean(row, "detail");
    ToDbClean(At(row, "detail"));
  }

  lemma {:induction false} HardwareClean(cfg: Config, row: Row)
    requires At(row, "boot_id").Null? || At(row, "boot_id").Str?
    ensures HardwareStmt(cfg, CleanRow(row)) == HardwareStmt(cfg, row)
  {
    var named := row["boot_id" := Str(UNKNOWN_BOOT_ID)];
    AtClean(row, "boot_id");
    ColumnClean(row, "system");
    ColumnClean(row, "node");
    FieldsClean(cfg.hardwareColumns, row);
    FieldsClean(cfg.hardwareColumns, named);
    assert CleanRow(named) == CleanRow(row)["boot_id" := Str(UNKNOWN_BOOT_ID)];
  }

  lemma {:induction false} NodeClean(row: Row, seen: int, hasLabel: bool)
    requires !At(row, "boot_id").NonFinite?
    ensures NodeStmt(CleanRow(row), seen, hasLabel) == NodeStmt(row, seen, hasLabel)
  {
    ColumnClean(row, "system");
    ColumnClean(row, "node");
    ColumnClean(row, "label");
    ColumnClean(row, "boot_id");
    AtClean(row, "boot_id");
  }

  lemma {:induction false} LiveNodeClean(cfg: Config, row: Row)
    ensures LiveNodeStmt(cfg, CleanRow(row)) == LiveNodeStmt(cfg, row)
  {
    var present, after := set c | c in cfg.liveNodeColumns && c in row, set c | c in cfg.liveNodeColumns
        && c in CleanRow(row);
    assert present == after;
    FieldsClean(present, row);
    ColumnClean(row, "system");
    ColumnClean(row, "node");
    ColumnClean(row, "updated_at");
  }

  function CleanAll(ps: seq<Value>): seq<Value> { seq(|ps|, i requires 0 <= i < |ps| => Clean(ps[i])) }

  /** The row of one process of a snapshot. */
  function ProcessOf(cfg: Config, p: Row): (Column, Content) {
    (Process(if At(p, "pid").Int? then At(p, "pid").i else 0,
        if At(p, "start_time").Int? then At(p, "start_time").i else 0),
     ProcessRow(map c | c in cfg.processColumns :: ToDb(At(p, c))))
  }

  lemma {:induction false} ProcessClean(cfg: Config, p: Row)
    ensures ProcessOf(cfg, CleanRow(p)) == ProcessOf(cfg, p)
  {
    AtClean(p, "pid");
    AtClean(p, "start_time");
    forall c | c in cfg.processColumns ensures ToDb(At(CleanRow(p), c)) == ToDb(At(p, c)) { ColumnClean(p, c); }
    assert (map c | c in cfg.processColumns :: ToDb(At(CleanRow(p), c)))
           == (map c | c in cfg.processColumns :: ToDb(At(p, c)));
  }

  lemma {:induction false} ProcessesClean(cfg: Config, ps: seq<Value>)
    requires forall i :: 0 <= i < |ps| ==> ps[i].Dict?
    ensures Processes(cfg, CleanAll(ps)) == Processes(cfg, ps)
  {
    if ps != [] {
      var n := |ps| - 1;
      ProcessesClean(cfg, ps[..n]);
      assert CleanAll(ps)[..n] == CleanAll(ps[..n]);
      ProcessClean(cfg, ps[n].m);
      assert Clean(ps[n]) == Dict(CleanRow(ps[n].m));
      assert Processes(cfg, ps) == Processes(cfg, ps[..n])[ProcessOf(cfg, ps[n].m).0 := ProcessOf(cfg, ps[n].m).1];
      var p := ProcessOf(cfg, CleanRow(ps[n].m));
      assert Processes(cfg, CleanAll(ps)) == Processes(cfg, CleanAll(ps[..n]))[p.0 := p.1];
    }
  }

  lemma {:induction false} SnapshotClean(cfg: Config, row: Row)
    requires At(row, "processes").List? && forall i :: 0 <= i < |At(row, "processes").xs| ==>
             At(row, "processes").xs[i].Dict?
    ensures SnapshotStmt(cfg, CleanRow(row)) == SnapshotStmt(cfg, row)
  {
    var ps := At(row, "processes").xs;
    AtClean(row, "processes");
    assert Clean(List(ps)) == List(CleanAll(ps));
    ProcessesClean(cfg, ps);
    ColumnClean(row, "system");
    ColumnClean(row, "node");
    ColumnClean(row, "ts");
  }

  /** A record the writer takes, whose boot_id is no float. */
  predicate Spoolable(r: Record) { Complete(r) && !At(r.row, "boot_id").NonFinite? }

  lemma {:induction false} ItemClean(cfg: Config, r: Record)
    requires Spoolable(r)
    ensures ItemOf(cfg, CleanRecord(r)) == ItemOf(cfg, r)
  {
    match r.kind
    case LiveProcesses => SnapshotClean(cfg, r.row);
    case LiveNode => LiveNodeClean(cfg, r.row); ColumnClean(r.row, "updated_at");
        NodeClean(r.row, Micros(At(r.row, "updated_at")), "label" in r.row);
    case NodeHardware => HardwareClean(cfg, r.row); ColumnClean(r.row, "collected_at");
        NodeClean(r.row, Micros(At(r.row, "collected_at")), false);
    case CollectionEvent => EventClean(r.row);
    case NodeMetrics => SummaryClean(cfg, Metrics, r.row);
    case UserUsage => SummaryClean(cfg, UserUsage5m, r.row);
    case NodeUsage => SummaryClean(cfg, NodeUsage5m, r.row);
    case Other(_) =>
  }

  lemma {:induction false} TimeClean(r: Record)
    requires TableOf(r.kind).Some?
    ensures Micros(PartitionTime(CleanRecord(r))) == Micros(PartitionTime(r))
  {
    ColumnClean(r.row, PartitionColumn(TableOf(r.kind).value));
  }

  lemma {:induction false} PlanRecordClean(cfg: Config, p: Plan, r: Record, now: int)
    requires Expired(cfg, r, now) || Spoolable(r)
    ensures PlanRecord(cfg, p, CleanRecord(r), now) == PlanRecord(cfg, p, r, now)
  {
    if TableOf(r.kind).Some? {
      TimeClean(r);
    }
    if Expired(cfg, r, now) {
      assert Expired(cfg, CleanRecord(r), now);
    } else {
      ItemClean(cfg, r);
      assert NeedMonth(p, CleanRecord(r)) == NeedMonth(p, r);
    }
  }

  lemma {:induction false} PlanLast(cfg: Config, rs: seq<Record>, r: Record, now: int, p: Plan)
    requires PlanRecord(cfg, PlanOf(cfg, rs, now), r, now) == p
    ensures PlanOf(cfg, rs + [r], now) == p
  {
    assert (rs + [r])[..|rs|] == rs;
  }

  lemma {:induction false} PlanStep(cfg: Config, rs: seq<Record>, qs: seq<Record>, r: Record, now: int)
    requires Expired(cfg, r, now) || Spoolable(r)
    requires PlanOf(cfg, qs, now) == PlanOf(cfg, rs, now)
    ensures PlanOf(cfg, qs + [CleanRecord(r)], now) == PlanOf(cfg, rs + [r], now)
  {
    var p := PlanRecord(cfg, PlanOf(cfg, rs, now), r, now);
    PlanRecordClean(cfg, PlanOf(cfg, rs, now), r, now);
    PlanLast(cfg, rs, r, now, p);
    PlanLast(cfg, qs, CleanRecord(r), now, p);
  }

  lemma {:induction false} PlanClean(cfg: Config, rs: seq<Record>, now: int)
    requires forall i :: 0 <= i < |rs| ==> Expired(cfg, rs[i], now) || Spoolable(rs[i])
    ensures PlanOf(cfg, CleanBatch(rs), now) == PlanOf(cfg, rs, now)
  {
    if rs != [] {
      var init, r := rs[..|rs| - 1], rs[|rs| - 1];
      assert rs == init + [r];
      PlanClean(cfg, init, now);
      PlanStep(cfg, init, CleanBatch(init), r, now);
    }
  }

  // --- acceptance ----------------------------------------------------------------------------

  /** Nothing the writer checks for presence or shape changes it on the way through JSON. */
  predicate Regular(r: Record) {
    && !At(r.row, "node").NonFinite? && !At(r.row, "boot_id").NonFinite? && !At(r.row, "session_state").NonFinite?
    && !At(r.row, "detail").NonFinite? && !At(r.row, "processes").Tuple?
  }

  lemma {:induction false} ShapeClean(row: Row, c: string)
    ensures At(CleanRow(row), c).Str? == At(row, c).Str? && At(CleanRow(row), c).Int? == At(row, c).Int?
    ensures At(CleanRow(row), c).Dict? == At(row, c).Dict? && IsTime(At(CleanRow(row), c)) == IsTime(At(row, c))
    ensures !At(row, c).NonFinite? ==> At(CleanRow(row), c).Null? == At(row, c).Null?
    ensures !At(row, c).Tuple? ==> At(CleanRow(row), c).List? == At(row, c).List?
  {
    AtClean(row, c);
  }

  lemma {:induction false} IsProcessClean(v: Value)
    ensures IsProcess(Clean(v)) == IsProcess(v)
  {
    if v.Dict? {
      assert Clean(v) == Dict(CleanRow(v.m));
      ShapeClean(v.m, "pid");
      ShapeClean(v.m, "start_time");
    }
  }

  lemma {:induction false} IdentityClean(r: Record)
    requires !At(r.row, "node").NonFinite?
    ensures HasIdentity(CleanRecord(r)) == HasIdentity(r)
  {
    ShapeClean(r.row, "system");
    ShapeClean(r.row, "node");
  }

  predicate AreProcesses(v: Value) { v.List? && forall i | 0 <= i < |v.xs| :: IsProcess(v.xs[i]) }

  lemma {:induction false} ListedClean(v: Value)
    requires !v.Tuple?
    ensures AreProcesses(Clean(v)) == AreProcesses(v)
  {
    if v.List? {
      assert Clean(v) == List(CleanAll(v.xs));
      forall i | 0 <= i < |v.xs| ensures IsProcess(CleanAll(v.xs)[i]) == IsProcess(v.xs[i]) { IsProcessClean(v.xs[i]); }
    }
  }

  lemma {:induction false} CompleteClean(r: Record)
    requires Regular(r)
    ensures Complete(CleanRecord(r)) == Complete(r)
  {
    var row := r.row;
    IdentityClean(r);
    match r.kind
    case LiveProcesses =>
      ShapeClean(row, "ts");
      AtClean(row, "processes");
      ListedClean(At(row, "processes"));
      assert Complete(r) == (HasIdentity(r) && IsTime(At(row, "ts")) && AreProcesses(At(row, "processes")));
    case LiveNode => ShapeClean(row, "updated_at"); ShapeClean(row, "session_state");
    case NodeHardware => ShapeClean(row, "collected_at"); ShapeClean(row, "boot_id");
    case UserUsage => ShapeClean(row, "username");
    case CollectionEvent => ShapeClean(row, "event_type"); ShapeClean(row, "detail");
    case _ =>
  }

  lemma {:induction false} ExpiredClean(cfg: Config, r: Record, now: int)
    ensures Expired(cfg, CleanRecord(r), now) == Expired(cfg, r, now)
  {
    if TableOf(r.kind).Some? {
      TimeClean(r);
    }
  }

  lemma {:induction false} AcceptsClean(cfg: Config, r: Record, now: int)
    requires Regular(r)
    ensures Accepts(cfg, CleanRecord(r), now) == Accepts(cfg, r, now)
  {
    ExpiredClean(cfg, r, now);
    CompleteClean(r);
    if TableOf(r.kind).Some? {
      ShapeClean(r.row, PartitionColumn(TableOf(r.kind).value));
    }
  }

  ghost predicate AllRegular(rs: seq<Record>) {
    forall i :: 0 <= i < |rs| ==> Regular(rs[i])
  }

  lemma {:induction false} PlannableClean(cfg: Config, rs: seq<Record>, now: int)
    requires AllRegular(rs)
    ensures IsPlannable(cfg, CleanBatch(rs), now) == IsPlannable(cfg, rs, now)
    ensures AllLive(CleanBatch(rs)) == AllLive(rs) && |CleanBatch(rs)| == |rs|
  {
    forall i | 0 <= i < |rs|
      ensures |CleanBatch(rs)| == |rs| && CleanBatch(rs)[i] == CleanRecord(rs[i])
      ensures Accepts(cfg, CleanBatch(rs)[i], now) == Accepts(cfg, rs[i], now)
    {
      CleanBatchAt(rs, i);
      AcceptsClean(cfg, rs[i], now);
    }
  }

  lemma {:induction false} BeyondClean(cfg: Config, rs: seq<Record>, now: int)
    ensures Beyond(cfg, CleanBatch(rs), now) == Beyond(cfg, rs, now)
  {
    if rs != [] {
      var init, r := rs[..|rs| - 1], rs[|rs| - 1];
      BeyondClean(cfg, init, now);
      ExpiredClean(cfg, r, now);
      BeyondLast(cfg, CleanBatch(init), CleanRecord(r), now);
    }
  }

  lemma {:induction false} BeyondLast(cfg: Config, rs: seq<Record>, r: Record, now: int)
    ensures Beyond(cfg, rs + [r], now)
            == Beyond(cfg, rs, now) + if Expired(cfg, r, now) then multiset{TableOf(r.kind).value} else multiset{}
  {
    assert (rs + [r])[..|rs|] == rs;
  }

  /**
    Replaying what the spool gives back is replaying what was put on it: the batch read back is
    live-only, taken by the writer, short of rows beyond retention and, if taken, leaves in every
    table just what the batch itself would.  A write depends on its batch in no other way.
   */
  lemma {:induction false} SpoolIsTransparent(iso: Iso, cfg: Config, db: Db, rs: seq<Record>, now: int)
    requires RoundTrips(iso) && KindsKnown(rs) && RowsUnambiguous(rs) && AllRegular(rs)
    ensures var d := DecodeBatch(iso, EncodeBatch(iso, rs));
            && d.Some? && |d.value| == |rs| && AllLive(d.value) == AllLive(rs)
            && IsPlannable(cfg, d.value, now) == IsPlannable(cfg, rs, now)
            && Beyond(cfg, d.value, now) == Beyond(cfg, rs, now)
            && (IsPlannable(cfg, rs, now) ==> Commit(cfg, db, d.value, now) == Commit(cfg, db, rs, now))
  {
    BatchComesBack(iso, rs);
    PlannableClean(cfg, rs, now);
    BeyondClean(cfg, rs, now);
    if IsPlannable(cfg, rs, now) {
      forall i | 0 <= i < |rs| ensures Expired(cfg, rs[i], now) || Spoolable(rs[i]) {
        assert Accepts(cfg, rs[i], now) && Regular(rs[i]);
      }
      PlanClean(cfg, rs, now);
    }
  }

  /** Of the records the writer takes, the spool spoils exactly live rows whose session_state is
      a non-finite float. */
  lemma {:induction false} SpoiledExactly(cfg: Config, r: Record, now: int)
    requires Accepts(cfg, r, now)
    ensures Accepts(cfg, CleanRecord(r), now) <==> !(r.kind == LiveNode && At(r.row, "session_state").NonFinite?)
  {
    ExpiredClean(cfg, r, now);
    if TableOf(r.kind).Some? {
      ShapeClean(r.row, PartitionColumn(TableOf(r.kind).value));
    }
    if !Expired(cfg, r, now) {
      SpoiledComplete(r);
    }
  }

  lemma {:induction false} SpoiledComplete(r: Record)
    requires Complete(r)
    ensures Complete(CleanRecord(r)) <==> !(r.kind == LiveNode && At(r.row, "session_state").NonFinite?)
  {
    var row := r.row;
    IdentityClean(r);
    match r.kind
    case LiveProcesses =>
      ShapeClean(row, "ts");
      AtClean(row, "processes");
      ListedClean(At(row, "processes"));
      assert AreProcesses(At(row, "processes"));
    case LiveNode => ShapeClean(row, "updated_at"); AtClean(row, "session_state");
    case NodeHardware => ShapeClean(row, "collected_at"); ShapeClean(row, "boot_id");
    case UserUsage => ShapeClean(row, "username");
    case CollectionEvent => ShapeClean(row, "event_type"); ShapeClean(row, "detail");
    case _ =>
  }
}
