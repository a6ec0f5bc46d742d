/**
  The writes a buffered writer tries and how each ended, as the database saw them.  A write for a
  spooled file that finds the database unavailable is followed by a ping, and only by it.
 */
module Attempts {
  import opened Upsert
  import opened Records
  import opened DatabaseWriter
  import opened Spooling

  /** One write, of a spooled file or, without one, of a fresh batch; `answer` is the ping's. */
  datatype Try = Try(file: Option<Name>, records: seq<Record>, now: int, outcome: Outcome, answer: Option<bool>)

  /** The calls it makes: the write, and the ping if there was one. */
  function CallsOf(t: Try): seq<Call> { [Writing(t.records, t.now, t.outcome)] + PingOf(t) }

  function PingOf(t: Try): seq<Call> { if t.answer.Some? then [Pinging(t.answer.value)] else [] }

  function AllCalls(ts: seq<Try>): seq<Call> {
    if ts == [] then [] else AllCalls(ts[..|ts| - 1]) + CallsOf(ts[|ts| - 1])
  }

  /** The file's write failed as in an outage while the database answered. */
  predicate Blames(t: Try, n: Name) {
    t.file == Some(n) && t.outcome.Unavailable? && t.answer == Some(true)
  }

  /** How often that has happened. */
  function Answered(ts: seq<Try>, n: Name): nat {
    if ts == [] then 0 else Answered(ts[..|ts| - 1], n) + if Blames(ts[|ts| - 1], n) then 1 else 0
  }

  predicate IsReplayed(t: Try) { t.file.Some? && t.outcome.Written? }

  /** The spooled batches known to have been written, and their records. */
  function ReplayedBatches(ts: seq<Try>): nat {
    if ts == [] then 0 else ReplayedBatches(ts[..|ts| - 1]) + if IsReplayed(ts[|ts| - 1]) then 1 else 0
  }

  function ReplayedRecords(ts: seq<Try>): nat {
    if ts == [] then 0
    else
      var t := ts[|ts| - 1];
      ReplayedRecords(ts[..|ts| - 1]) + if IsReplayed(t) then |t.records| else 0
  }

  /** The server has refused just these records. */
  ghost predicate WasRefused(ts: seq<Try>, records: seq<Record>) {
    exists i :: 0 <= i < |ts| && ts[i].outcome.Rejected? && ts[i].records == records
  }

  /** Some write since the first `from` was acknowledged. */
  ghost predicate AnyWritten(ts: seq<Try>, from: nat) {
    exists i :: from <= i < |ts| && ts[i].outcome.Written?
  }

  /** The last try since the first `from` ends its attempt: it found the database unavailable,
      and it was not that of a file which, the database answering, has used up its attempts. */
  predicate LastFails(ts: seq<Try>, from: nat, max: int) {
    |ts| > from &&
    var t := ts[|ts| - 1];
    t.outcome.Unavailable? && !(t.file.Some? && t.answer == Some(true) && Answered(ts, t.file.value) >= max)
  }

  /** Tries added since, all at one time. */
  ghost predicate Since(ts: seq<Try>, ts': seq<Try>, now: int) {
    ts <= ts' && forall i :: |ts| <= i < |ts'| ==> ts'[i].now == now
  }

  lemma {:induction false} CallsSnoc(ts: seq<Try>, t: Try)
    ensures AllCalls(ts + [t]) == AllCalls(ts) + CallsOf(t)
  {
    assert (ts + [t])[..|ts|] == ts;
  }

  lemma {:induction false} AnsweredSnoc(ts: seq<Try>, t: Try, n: Name)
    ensures Answered(ts + [t], n) == Answered(ts, n) + if Blames(t, n) then 1 else 0
  {
    assert (ts + [t])[..|ts|] == ts;
  }

  lemma {:induction false} ReplayedSnoc(ts: seq<Try>, t: Try)
    ensures ReplayedBatches(ts + [t]) == ReplayedBatches(ts) + if IsReplayed(t) then 1 else 0
    ensures ReplayedRecords(ts + [t]) == ReplayedRecords(ts) + if IsReplayed(t) then |t.records| else 0
  {
    assert (ts + [t])[..|ts|] == ts;
  }

  lemma {:induction false} RefusedLast(ts: seq<Try>, t: Try)
    requires t.outcome.Rejected?
    ensures WasRefused(ts + [t], t.records)
  {
    assert (ts + [t])[|ts|] == t;
  }

  lemma {:induction false} RefusedStays(ts: seq<Try>, t: Try, records: seq<Record>)
    requires WasRefused(ts, records) || (t.outcome.Rejected? && t.records == records)
    ensures WasRefused(ts + [t], records)
  {
    var more := ts + [t];
    if WasRefused(ts, records) {
      var i :| 0 <= i < |ts| && ts[i].outcome.Rejected? && ts[i].records == records;
      assert more[i] == ts[i];
    } else {
      assert more[|ts|] == t;
    }
  }
}
