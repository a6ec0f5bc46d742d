/**
  The hand-off from the pipelines to the writer thread: durable records wait whole and in
  order, live records are coalesced per node (node_monitor/collector/record_queue.py).
 */
module RecordQueues {
  import opened Codec
  import opened Records

  /** A live record's node, the key of both live dictionaries. */
  function NodeOf(r: Record): Value { At(r.row, "node") }

  /** `d[node] = r` on a dictionary that keeps its entries in order of first insertion; with
      `merge`, the new row is laid over the one waiting. */
  function Entered(d: seq<Record>, r: Record, merge: bool): seq<Record> {
    if d == [] then [r]
    else if NodeOf(d[0]) == NodeOf(r)
    then [if merge then Record(LiveNode, d[0].row + r.row) else r] + d[1..]
    else [d[0]] + Entered(d[1..], r, merge)
  }

  /** The durable records among those put. */
  function DurableOf(rs: seq<Record>): seq<Record> {
    if rs == [] then []
    else DurableOf(rs[..|rs| - 1]) + if IsLive(rs[|rs| - 1]) then [] else [rs[|rs| - 1]]
  }

  /** What waits after the records `rs`: the newest snapshot of each node ... */
  function ProcessesOf(rs: seq<Record>): seq<Record> {
    if rs == [] then []
    else
      var d, r := ProcessesOf(rs[..|rs| - 1]), rs[|rs| - 1];
      if r.kind == LiveProcesses then Entered(d, r, false) else d
  }

  /** ... and each node's partial rows merged. */
  function NodesOf(rs: seq<Record>): seq<Record> {
    if rs == [] then []
    else
      var d, r := NodesOf(rs[..|rs| - 1]), rs[|rs| - 1];
      if r.kind == LiveNode then Entered(d, r, true) else d
  }

  function LiveOf(rs: seq<Record>): seq<Record> { ProcessesOf(rs) + NodesOf(rs) }

  lemma {:induction false} WaitingSnoc(rs: seq<Record>, r: Record)
    ensures DurableOf(rs + [r]) == if IsLive(r) then DurableOf(rs) else DurableOf(rs) + [r]
    ensures ProcessesOf(rs + [r]) == if r.kind == LiveProcesses then Entered(ProcessesOf(rs), r, false)
            else ProcessesOf(rs)
    ensures NodesOf(rs + [r]) == if r.kind == LiveNode then Entered(NodesOf(rs), r, true) else NodesOf(rs)
  {
    assert (rs + [r])[..|rs|] == rs;
  }

  /** Only live records coalesce: the durable ones come out as they went in. */
  lemma {:induction false} DurableAppend(rs: seq<Record>, qs: seq<Record>)
    ensures DurableOf(rs + qs) == DurableOf(rs) + DurableOf(qs)
  {
    if qs == [] {
      assert rs + qs == rs;
    } else {
      assert (rs + qs)[..|rs + qs| - 1] == rs + qs[..|qs| - 1];
      DurableAppend(rs, qs[..|qs| - 1]);
    }
  }

  /** Enters records one by one into what waits. */
  method EnterAll(durable: seq<Record>, processes: seq<Record>, nodes: seq<Record>, records: seq<Record>,
        ghost window: seq<Record>)
      returns (d: seq<Record>, p: seq<Record>, n: seq<Record>)
    requires durable == DurableOf(window) && processes == ProcessesOf(window) && nodes == NodesOf(window)
    ensures d == DurableOf(window + records) && p == ProcessesOf(window + records) && n == NodesOf(window + records)
  {
    d, p, n := durable, processes, nodes;
    assert window + records[..0] == window;
    for i := 0 to |records|
      invariant d == DurableOf(window + records[..i]) && p == ProcessesOf(window + records[..i])
                && n == NodesOf(window + records[..i])
    {
      var record := records[i];
      WaitingSnoc(window + records[..i], record);
      assert window + records[..i + 1] == (window + records[..i]) + [record];
      if record.kind == LiveProcesses {
        p := Entered(p, record, false);
      } else if record.kind == LiveNode {
        n := Entered(n, record, true);
      } else {
        d := d + [record];
      }
    }
    assert records[..|records|] == records;
  }

  class RecordQueue {
    var durable: seq<Record>
    var liveProcesses: seq<Record>
    var liveNode: seq<Record>
    var closed: bool
    /** What has been put since the last take, and what was taken before. */
    ghost var window: seq<Record>
    ghost var taken: seq<Record>

    ghost predicate Valid()
      reads this
    {
      durable == DurableOf(window) && liveProcesses == ProcessesOf(window) && liveNode == NodesOf(window)
    }

    constructor ()
      ensures Valid() && window == [] && taken == [] && !closed
    {
      durable, liveProcesses, liveNode, closed, window, taken := [], [], [], false, [], [];
    }

    /** False (RuntimeError) once closed: then nothing is put. */
    method Put(records: seq<Record>) returns (accepted: bool)
      requires Valid() && forall r :: r in records && IsLive(r) ==> "node" in r.row
      modifies this
      ensures Valid() && closed == old(closed) && taken == old(taken)
      ensures accepted <==> records == [] || !closed
      ensures window == if accepted then old(window) + records else old(window)
    {
      if records == [] {
        assert window + records == window;
        return true;
      }
      if closed {
        return false;
      }
      var d, p, n := EnterAll(durable, liveProcesses, liveNode, records, window);
      durable, liveProcesses, liveNode, window := d, p, n, window + records;
      accepted := true;
    }

    /** Everything that waits; called once something does, the queue is closed, or the wait
        has timed out. */
    method Take() returns (takenDurable: seq<Record>, takenLive: seq<Record>)
      requires Valid()
      modifies this
      ensures Valid() && window == [] && taken == old(taken) + old(window) && closed == old(closed)
      ensures takenDurable == DurableOf(old(window)) && takenLive == LiveOf(old(window))
    {
      takenDurable := durable;
      takenLive := liveProcesses + liveNode;
      durable, liveProcesses, liveNode, window, taken := [], [], [], [], taken + window;
    }

    method Close()
      requires Valid()
      modifies this`closed
      ensures Valid() && closed
    {
      closed := true;
    }

    method Depth() returns (waiting: nat)
      requires Valid()
      ensures waiting == 0 <==> window == []
    {
      waiting := |durable| + |liveProcesses| + |liveNode|;
      SomethingWaits(window);
    }
  }

  lemma {:induction false} SomethingWaits(rs: seq<Record>)
    ensures |DurableOf(rs)| + |ProcessesOf(rs)| + |NodesOf(rs)| == 0 <==> rs == []
  {
    if rs != [] {
      var d := if rs[|rs| - 1].kind == LiveProcesses then ProcessesOf(rs[..|rs| - 1]) else NodesOf(rs[..|rs| - 1]);
      assert Entered(d, rs[|rs| - 1], true) != [];
    }
  }
}
