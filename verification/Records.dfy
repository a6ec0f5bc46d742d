/** Storage records (node_monitor/pipeline/records.py) and typed access to their rows. */
module Records {
  import opened Upsert
  import opened Codec

  type Row = map<string, Value>

  datatype Kind =
    | LiveProcesses
    | LiveNode
    | NodeHardware
    | NodeMetrics
    | UserUsage
    | NodeUsage
    | CollectionEvent
    | Other(name: string)

  datatype Record = Record(kind: Kind, row: Row)

  /** Live rows say how a node is now; all others are durable. */
  predicate IsLive(r: Record) { r.kind.LiveProcesses? || r.kind.LiveNode? }

  predicate AllLive(rs: seq<Record>) { forall i :: 0 <= i < |rs| ==> IsLive(rs[i]) }

  /** `row.get(c)` */
  function At(row: Row, c: string): Value { if c in row then row[c] else Null }

  function Text(v: Value): string { if v.Str? then v.s else "" }

  function Micros(v: Value): int { if v.Time? then v.t.us else 0 }

  predicate IsTime(v: Value) { v.Time? && v.t.Aware? }
}
