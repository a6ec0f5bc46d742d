/**
  The database writer: a batch is planned, then applied in one transaction
  (node_monitor/database/writer.py).

  All tables form one map from table-tagged primary key to row.  `nodes.first_seen`, the one
  column that moves backwards, has a map of its own.  Generated event ids are not modelled.
 */
module Writer {
  import opened Upsert
  import opened Codec
  import opened Records
  import Partitions

  datatype Table = Metrics | UserUsage5m | NodeUsage5m | Events

  /** Primary keys, and for collection_events its natural key. */
  datatype Key =
    | SummaryKey(table: Table, system: string, node: string, user: string, at: int)
    | EventKey(system: string, nodeOrNull: Value, at: int, eventType: string)
    | HardwareKey(system: string, node: string, boot: string)
    | NodeKey(system: string, node: string)
    | LiveNodeKey(system: string, node: string)
    | SnapshotKey(system: string, node: string)

  /** A snapshot's "columns" are the process rows it replaces wholesale. */
  datatype Column = Named(name: string) | Process(pid: int, start: int)

  datatype Content = Field(sql: Sql) | ProcessRow(row: map<string, Sql>)

  type Rows = map<Key, Cell<Column, Content>>
  type Statement = Stmt<Key, Column, Content>
  type RowWrite = Write<Column, Content>

  datatype Db = Db(rows: Rows, firstSeen: map<Key, int>)

  /** Retention in days and the column set of each table. */
  datatype Config = Config(
    days: Table -> nat,
    summaryColumns: Table -> set<string>,
    hardwareColumns: set<string>,
    liveNodeColumns: set<string>,
    processColumns: set<string>)

  const UNKNOWN_BOOT_ID := "unknown"

  // --- one record ---------------------------------------------------------------------

  function TableOf(kind: Kind): Option<Table> {
    match kind
    case NodeMetrics => Some(Metrics)
    case UserUsage => Some(UserUsage5m)
    case NodeUsage => Some(NodeUsage5m)
    case CollectionEvent => Some(Events)
    case _ => None
  }

  function PartitionColumn(t: Table): string {
    match t
    case Metrics => "minute"
    case UserUsage5m => "interval_start"
    case NodeUsage5m => "interval_start"
    case Events => "ts"
  }

  function PartitionTime(r: Record): Value
    requires TableOf(r.kind).Some?
  {
    At(r.row, PartitionColumn(TableOf(r.kind).value))
  }

  predicate Expired(cfg: Config, r: Record, now: int) {
    var t := TableOf(r.kind);
    t.Some? && Micros(PartitionTime(r)) < Partitions.Cutoff(now, cfg.days(t.value))
  }

  predicate HasIdentity(r: Record) {
    At(r.row, "system").Str? && (At(r.row, "node").Str? || (r.kind == CollectionEvent && At(r.row, "node").Null?))
  }

  predicate IsProcess(v: Value) {
    v.Dict? && At(v.m, "pid").Int? && At(v.m, "start_time").Int?
  }

  /** The columns a statement cannot do without. */
  predicate Complete(r: Record) {
    HasIdentity(r) &&
    match r.kind
    case LiveProcesses =>
      IsTime(At(r.row, "ts")) && At(r.row, "processes").List? &&
      forall i | 0 <= i < |At(r.row, "processes").xs| :: IsProcess(At(r.row, "processes").xs[i])
    case LiveNode => IsTime(At(r.row, "updated_at")) && !At(r.row, "session_state").Null?
    case NodeHardware => IsTime(At(r.row, "collected_at")) && (At(r.row, "boot_id").Null? || At(r.row, "boot_id").Str?)
    case UserUsage => At(r.row, "username").Str?
    case CollectionEvent => At(r.row, "event_type").Str? && (At(r.row, "detail").Null? || At(r.row, "detail").Dict?)
    case _ => true
  }

  /** Whether `_plan` takes the record; an expired row is counted before it is looked at further. */
  predicate Accepts(cfg: Config, r: Record, now: int) {
    !r.kind.Other? &&
    (TableOf(r.kind).Some? ==> IsTime(PartitionTime(r))) &&
    (Expired(cfg, r, now) || Complete(r))
  }

  function Fields(columns: set<string>, row: Row): map<Column, Content> {
    map c | c in (set n | n in columns :: Named(n)) :: Field(ToDb(At(row, c.name)))
  }

  function SummaryStmt(cfg: Config, t: Table, row: Row): Statement {
    var cols := Fields(cfg.summaryColumns(t), row);
    var user := if t == UserUsage5m then Text(At(row, "username")) else "";
    var count := At(row, "sample_count");
    Stmt(SummaryKey(t, Text(At(row, "system")), Text(At(row, "node")), user, Micros(At(row, PartitionColumn(t)))),
         Write(if count.Int? then Some(count.i) else None, cols, cols, true))
  }

  function EventStmt(row: Row): Statement {
    var detail := At(row, "detail");
    Stmt(EventKey(Text(At(row, "system")), At(row, "node"), Micros(At(row, "ts")), Text(At(row, "event_type"))),
         Write(None, map[Named("detail") := Field(ToDb(if detail.Null? then Dict(map[]) else detail))], map[], true))
  }

  function HardwareStmt(cfg: Config, row: Row): Statement {
    var boot := At(row, "boot_id");
    var values := if boot.Null? then row["boot_id" := Str(UNKNOWN_BOOT_ID)] else row;
    Stmt(HardwareKey(Text(At(row, "system")), Text(At(row, "node")), Text(At(values, "boot_id"))),
         Write(None, Fields(cfg.hardwareColumns, values), map[], true))
  }

  /** The CASE-guarded upsert of `nodes`: last_seen is the rank; label and boot_id follow the
      newest record, and a record without one leaves the stored value alone. */
  function NodeStmt(row: Row, seen: int, hasLabel: bool): Statement {
    var tag, boot := Field(ToDb(At(row, "label"))), Field(ToDb(At(row, "boot_id")));
    Stmt(NodeKey(Text(At(row, "system")), Text(At(row, "node"))),
         Write(Some(seen),
               map[Named("label") := tag, Named("boot_id") := boot],
               (if hasLabel then map[Named("label") := tag] else map[])
               + (if At(row, "boot_id").Null? then map[] else map[Named("boot_id") := boot]),
               true))
  }

  /** A partial row: only the columns present are set. */
  function LiveNodeStmt(cfg: Config, row: Row): Statement {
    var cols := Fields((set c | c in cfg.liveNodeColumns && c in row), row);
    Stmt(LiveNodeKey(Text(At(row, "system")), Text(At(row, "node"))),
         Write(Some(Micros(At(row, "updated_at"))), cols, cols, true))
  }

  /** The last entry for a (pid, start_time) wins. */
  function Processes(cfg: Config, ps: seq<Value>): map<Column, Content> {
    if ps == [] then map[]
    else
      var p := if ps[|ps| - 1].Dict? then ps[|ps| - 1].m else map[];
      var pid, start := At(p, "pid"), At(p, "start_time");
      Processes(cfg, ps[..|ps| - 1])[
        Process(if pid.Int? then pid.i else 0, if start.Int? then start.i else 0) :=
          ProcessRow(map c | c in cfg.processColumns :: ToDb(At(p, c)))]
  }

  function SnapshotStmt(cfg: Config, row: Row): Statement {
    var v := At(row, "processes");
    var ps := Processes(cfg, if v.List? then v.xs else []);
    Stmt(SnapshotKey(Text(At(row, "system")), Text(At(row, "node"))), Write(Some(Micros(At(row, "ts"))), ps, ps, false))
  }

  /** Everything one record asks of the database, in the order it is sent. */
  function StatementsOf(cfg: Config, r: Record): seq<Statement> {
    match r.kind
    case LiveProcesses => [SnapshotStmt(cfg, r.row)]
    case LiveNode => [LiveNodeStmt(cfg, r.row), NodeStmt(r.row, Micros(At(r.row, "updated_at")), "label" in r.row)]
    case NodeHardware => [HardwareStmt(cfg, r.row), NodeStmt(r.row, Micros(At(r.row, "collected_at")), false)]
    case CollectionEvent => [EventStmt(r.row)]
    case NodeMetrics => [SummaryStmt(cfg, Metrics, r.row)]
    case UserUsage => [SummaryStmt(cfg, UserUsage5m, r.row)]
    case NodeUsage => [SummaryStmt(cfg, NodeUsage5m, r.row)]
    case Other(_) => []
  }

  /** A record reduced to its kind and its statements. */
  datatype Item = Item(kind: Kind, ss: seq<Statement>)

  function ItemOf(cfg: Config, r: Record): Item { Item(r.kind, StatementsOf(cfg, r)) }

  // --- a batch, record by record --------------------------------------------------------

  function Kept(cfg: Config, rs: seq<Record>, now: int): seq<Record> {
    if rs == [] then []
    else
      var r := rs[|rs| - 1];
      Kept(cfg, rs[..|rs| - 1], now) + (if Expired(cfg, r, now) then [] else [r])
  }

  /** The tables of the rows a batch loses to retention, one entry per row. */
  function Beyond(cfg: Config, rs: seq<Record>, now: int): multiset<Table> {
    if rs == [] then multiset{}
    else
      var r := rs[|rs| - 1];
      Beyond(cfg, rs[..|rs| - 1], now) + (if Expired(cfg, r, now) then multiset{TableOf(r.kind).value} else multiset{})
  }

  function Items(cfg: Config, rs: seq<Record>): seq<Item> {
    seq(|rs|, i requires 0 <= i < |rs| => ItemOf(cfg, rs[i]))
  }

  function Flat(items: seq<Item>): seq<Statement> {
    if items == [] then [] else Flat(items[..|items| - 1]) + items[|items| - 1].ss
  }

  /** `first_seen = LEAST(...)` */
  function SeenOnce(m: map<Key, int>, s: Statement): map<Key, int> {
    if s.key.NodeKey? && s.write.rank.Some? then
      var seen := s.write.rank.value;
      m[s.key := if s.key in m && m[s.key] <= seen then m[s.key] else seen]
    else m
  }

  function Seen(m: map<Key, int>, ss: seq<Statement>): map<Key, int> {
    if ss == [] then m else SeenOnce(Seen(m, ss[..|ss| - 1]), ss[|ss| - 1])
  }

  /** One statement. */
  function Exec(db: Db, s: Statement): Db {
    Db(db.rows[s.key := Step(Get(db.rows, s.key), s.write).value], SeenOnce(db.firstSeen, s))
  }

  function RunDb(db: Db, ss: seq<Statement>): Db {
    Db(Run(db.rows, ss), Seen(db.firstSeen, ss))
  }

  /** The reference meaning of a batch: each kept record's statements, in record order. */
  function WriteEach(cfg: Config, db: Db, rs: seq<Record>, now: int): Db {
    RunDb(db, Flat(Items(cfg, Kept(cfg, rs, now))))
  }

  // --- a batch, as planned --------------------------------------------------------------

  predicate IsPlannable(cfg: Config, rs: seq<Record>, now: int) {
    forall i :: 0 <= i < |rs| ==> Accepts(cfg, rs[i], now)
  }

  /** The regrouped batch.  `months` are the partitions its rows need, each with a time in it. */
  datatype Plan = Plan(
    snapshots: map<Key, RowWrite>,
    liveNodes: seq<Statement>,
    hardware: seq<Statement>,
    summaries: map<Table, seq<Statement>>,
    events: seq<Statement>,
    months: map<(Table, Partitions.Month), int>,
    beyond: multiset<Table>)

  const EMPTY_PLAN := Plan(map[], [], [], map[], [], map[], multiset{})

  function Under(summaries: map<Table, seq<Statement>>, t: Table): seq<Statement> {
    if t in summaries then summaries[t] else []
  }

  function Summaries(p: Plan, t: Table): seq<Statement> { Under(p.summaries, t) }

  function Month(r: Record): Partitions.Month
    requires TableOf(r.kind).Some?
  {
    Partitions.MonthOf(Micros(PartitionTime(r)))
  }

  /** The newest snapshot of each node, the last of those of one time. */
  function Snapped(snapshots: map<Key, RowWrite>, item: Item): map<Key, RowWrite>
    requires item.kind == LiveProcesses ==> |item.ss| == 1
  {
    if item.kind != LiveProcesses then snapshots
    else
      var s := item.ss[0];
      if s.key !in snapshots || Passes(snapshots[s.key].rank, s.write.rank) then snapshots[s.key := s.write]
          else snapshots
  }

  function Appended(ss: seq<Statement>, item: Item, kind: Kind): seq<Statement> {
    if item.kind == kind then ss + item.ss else ss
  }

  function Summed(summaries: map<Table, seq<Statement>>, item: Item): map<Table, seq<Statement>> {
    match item.kind
    case NodeMetrics => summaries[Metrics := Under(summaries, Metrics) + item.ss]
    case UserUsage => summaries[UserUsage5m := Under(summaries, UserUsage5m) + item.ss]
    case NodeUsage => summaries[NodeUsage5m := Under(summaries, NodeUsage5m) + item.ss]
    case _ => summaries
  }

  /** Files a kept record's statements under the heading of its kind. */
  function Place(p: Plan, item: Item): Plan
    requires item.kind == LiveProcesses ==> |item.ss| == 1
  {
    p.(snapshots := Snapped(p.snapshots, item),
       liveNodes := Appended(p.liveNodes, item, LiveNode),
       hardware := Appended(p.hardware, item, NodeHardware),
       events := Appended(p.events, item, CollectionEvent),
       summaries := Summed(p.summaries, item))
  }

  function NeedMonth(p: Plan, r: Record): Plan {
    var table := TableOf(r.kind);
    if table.None? || (table.value, Month(r)) in p.months then p
    else p.(months := p.months[(table.value, Month(r)) := Micros(PartitionTime(r))])
  }

  function PlanRecord(cfg: Config, p: Plan, r: Record, now: int): Plan {
    if Expired(cfg, r, now) then p.(beyond := p.beyond + multiset{TableOf(r.kind).value})
    else Place(NeedMonth(p, r), ItemOf(cfg, r))
  }

  function PlanOf(cfg: Config, rs: seq<Record>, now: int): Plan {
    if rs == [] then EMPTY_PLAN
    else PlanRecord(cfg, PlanOf(cfg, rs[..|rs| - 1], now), rs[|rs| - 1], now)
  }

  /** The statements sent before the snapshots.  Summary tables share no key, so their order
      among themselves is immaterial. */
  function Before(p: Plan): seq<Statement> {
    Summaries(p, Metrics) + Summaries(p, UserUsage5m) + Summaries(p, NodeUsage5m)
    + p.events + p.hardware + p.liveNodes
  }

  function PutSnapshots(rows: Rows, snaps: map<Key, RowWrite>): Rows {
    map k | k in rows.Keys + snaps.Keys ::
      if k in snaps then Step(Get(rows, k), snaps[k]).value else rows[k]
  }

  function ApplyPlan(db: Db, p: Plan): Db {
    var d := RunDb(db, Before(p));
    d.(rows := PutSnapshots(d.rows, p.snapshots))
  }

  /** What a committed `write` leaves behind. */
  function Commit(cfg: Config, db: Db, rs: seq<Record>, now: int): Db {
    ApplyPlan(db, PlanOf(cfg, rs, now))
  }
}
