/**
  Per-process CPU deltas and dormancy in the probe, and its schedule
  (node_monitor/probe/probe.py, `ProcessTracker` and `_next_due`).
 */
module ProcessTracking {
  import opened Upsert

  /** A process: a recycled pid has another start time. */
  datatype Key = Key(pid: int, start: int)

  datatype Row = Row(key: Key, ticks: int)

  /** One update: the processes seen, the time, and the seconds since the one before. */
  datatype Update = Update(rows: seq<Row>, now: int, interval: real)

  /** What an update reports of a process. */
  datatype Report = Report(cpu: Option<real>, active: Option<bool>, idle: Option<int>, lowerBound: bool)

  datatype Tracked = Tracked(ticks: int, firstSeen: int, lastActive: Option<int>, existedAtStart: bool)

  // --- what a process's history says ------------------------------------------------------------

  function TicksOf(rows: seq<Row>, k: Key): Option<int> {
    if rows == [] then None
    else if rows[|rows| - 1].key == k then Some(rows[|rows| - 1].ticks)
    else TicksOf(rows[..|rows| - 1], k)
  }

  predicate Present(us: seq<Update>, n: nat, k: Key)
    requires n < |us|
  {
    TicksOf(us[n].rows, k).Some?
  }

  function Ticks(us: seq<Update>, n: nat, k: Key): int
    requires n < |us| && Present(us, n, k)
  {
    TicksOf(us[n].rows, k).value
  }

  /** The update since which the process has been there without a break. */
  function Since(us: seq<Update>, n: nat, k: Key): (a: nat)
    requires n < |us| && Present(us, n, k)
    ensures a <= n && (forall j :: a <= j <= n ==> Present(us, j, k)) && (a > 0 ==> !Present(us, a - 1, k))
  {
    if n == 0 || !Present(us, n - 1, k) then n else Since(us, n - 1, k)
  }

  /** The CPU seconds between two updates it is in. */
  function Spent(us: seq<Update>, n: nat, k: Key, clk: int): real
    requires 0 < n < |us| && Present(us, n, k) && Present(us, n - 1, k) && clk > 0
  {
    (Ticks(us, n, k) - Ticks(us, n - 1, k)) as real / clk as real
  }

  predicate IsActive(us: seq<Update>, n: nat, k: Key, clk: int, perMinute: real)
    requires 0 < n < |us| && Present(us, n, k) && Present(us, n - 1, k) && clk > 0
  {
    Spent(us, n, k, clk) >= perMinute * us[n].interval / 60.0
  }

  /** The time of its last active update since it was first seen. */
  function LastActive(us: seq<Update>, n: nat, k: Key, clk: int, perMinute: real): Option<int>
    requires n < |us| && Present(us, n, k) && clk > 0
  {
    if n == Since(us, n, k) then None
    else if IsActive(us, n, k, clk, perMinute) then Some(us[n].now)
    else LastActive(us, n - 1, k, clk, perMinute)
  }

  /** What update n should report. */
  function ReportOf(us: seq<Update>, n: nat, k: Key, clk: int, perMinute: real): Report
    requires n < |us| && Present(us, n, k) && clk > 0
  {
    var a, last := Since(us, n, k), LastActive(us, n, k, clk, perMinute);
    if n == a then Report(None, None, None, false)
    else
      Report(Some(Spent(us, n, k, clk)), Some(IsActive(us, n, k, clk, perMinute)),
             Some(us[n].now - if last.Some? then last.value else us[a].now),
             last.None? && a == 0)
  }

  /** All the CPU a process is reported to have used. */
  function Reported(us: seq<Update>, n: nat, k: Key, clk: int): real
    requires n < |us| && Present(us, n, k) && clk > 0
  {
    if n == Since(us, n, k) then 0.0 else Reported(us, n - 1, k, clk) + Spent(us, n, k, clk)
  }

  /** It telescopes: last ticks less first ticks, while it stays present. */
  lemma {:induction false} CpuTelescopes(us: seq<Update>, n: nat, k: Key, clk: int)
    requires n < |us| && Present(us, n, k) && clk > 0
    ensures Reported(us, n, k, clk) == (Ticks(us, n, k) - Ticks(us, Since(us, n, k), k)) as real / clk as real
  {
    if n != Since(us, n, k) {
      CpuTelescopes(us, n - 1, k, clk);
      Telescope(Ticks(us, n, k), Ticks(us, n - 1, k), Ticks(us, Since(us, n - 1, k), k), clk);
    }
  }

  lemma {:induction false} Telescope(c: int, b: int, a: int, clk: int)
    requires clk > 0
    ensures (b - a) as real / clk as real + (c - b) as real / clk as real == (c - a) as real / clk as real
  {
    assert (b - a) as real + (c - b) as real == (c - a) as real;
  }

  /** The lower-bound flag of a later sighting: never active, and there from the first update. */
  lemma {:induction false} NeverActive(us: seq<Update>, n: nat, k: Key, clk: int, perMinute: real)
    requires n < |us| && Present(us, n, k) && clk > 0
    ensures LastActive(us, n, k, clk, perMinute).None? <==>
            forall j :: Since(us, n, k) < j <= n ==> !IsActive(us, j, k, clk, perMinute)
  {
    if n != Since(us, n, k) && !IsActive(us, n, k, clk, perMinute) {
      NeverActive(us, n - 1, k, clk, perMinute);
      assert Since(us, n, k) == Since(us, n - 1, k);
    }
  }

  // --- more updates do not change what earlier ones say ----------------------------------------------

  lemma {:induction false} SincePrefix(us: seq<Update>, u: Update, n: nat, k: Key)
    requires n < |us| && Present(us, n, k)
    ensures Present(us + [u], n, k) && Since(us + [u], n, k) == Since(us, n, k)
  {
    if n > 0 && Present(us, n - 1, k) {
      SincePrefix(us, u, n - 1, k);
    }
  }

  lemma {:induction false} LastActivePrefix(us: seq<Update>, u: Update, n: nat, k: Key, clk: int, perMinute: real)
    requires n < |us| && Present(us, n, k) && clk > 0
    ensures Present(us + [u], n, k) && LastActive(us + [u], n, k, clk, perMinute)
            == LastActive(us, n, k, clk, perMinute)
  {
    SincePrefix(us, u, n, k);
    if n != Since(us, n, k) {
      LastActivePrefix(us, u, n - 1, k, clk, perMinute);
    }
  }

  // --- the tracker --------------------------------------------------------------------------------------

  function TrackedOf(us: seq<Update>, n: nat, k: Key, clk: int, perMinute: real): Tracked
    requires n < |us| && Present(us, n, k) && clk > 0
  {
    var a := Since(us, n, k);
    Tracked(Ticks(us, n, k), us[a].now, LastActive(us, n, k, clk, perMinute), a == 0)
  }

  /** One row: what is known of the process, if anything, with this update's ticks. */
  function Tracks(known: Option<Tracked>, ticks: int, u: Update, isFirst: bool, clk: int, perMinute: real): (Tracked,
        Report)
    requires clk > 0
  {
    if known.None? then (Tracked(ticks, u.now, None, isFirst), Report(None, None, None, false))
    else
      var t := known.value;
      var cpu := (ticks - t.ticks) as real / clk as real;
      var active := cpu >= perMinute * u.interval / 60.0;
      var last := if active then Some(u.now) else t.lastActive;
      var idle := if active then 0 else u.now - if t.lastActive.None? then t.firstSeen else t.lastActive.value;
      (Tracked(ticks, t.firstSeen, last, t.existedAtStart),
       Report(Some(cpu), Some(active), Some(idle), last.None? && t.existedAtStart))
  }

  /** What the tracker knew of a process before an update, and what it knows after. */
  lemma {:induction false} TracksOn(us: seq<Update>, u: Update, k: Key, ticks: int, clk: int, perMinute: real)
    requires TicksOf(u.rows, k) == Some(ticks) && clk > 0
    ensures var n, more := |us|, us + [u];
            var known := if n > 0 && Present(us, n - 1, k) then Some(TrackedOf(us, n - 1, k, clk, perMinute)) else None;
            Present(more, n, k)
            && Tracks(known, ticks, u, n == 0, clk, perMinute)
                == (TrackedOf(more, n, k, clk, perMinute), ReportOf(more, n, k, clk, perMinute))
  {
    var n, more := |us|, us + [u];
    assert more[n] == u;
    if n > 0 && Present(us, n - 1, k) {
      assert more[n - 1] == us[n - 1];
      SincePrefix(us, u, n - 1, k);
      LastActivePrefix(us, u, n - 1, k, clk, perMinute);
      assert more[Since(us, n - 1, k)] == us[Since(us, n - 1, k)];
    } else if n > 0 {
      assert more[n - 1] == us[n - 1];
    }
  }

  /** The tracker's state is what the history says of the processes in the last update. */
  ghost predicate Knows(state: map<Key, Tracked>, us: seq<Update>, clk: int, perMinute: real) {
    clk > 0 &&
    forall k :: if us != [] && Present(us, |us| - 1, k) then k in state
        && state[k] == TrackedOf(us, |us| - 1, k, clk, perMinute) else k !in state
  }

  predicate Distinct(rows: seq<Row>) { forall i, j :: 0 <= i < j < |rows| ==> rows[i].key != rows[j].key }

  lemma {:induction false} TicksAt(rows: seq<Row>, i: nat)
    requires Distinct(rows) && i < |rows|
    ensures TicksOf(rows, rows[i].key) == Some(rows[i].ticks)
  {
    if i < |rows| - 1 {
      TicksAt(rows[..|rows| - 1], i);
    }
  }

  lemma {:induction false} KnownBefore(state: map<Key, Tracked>, us: seq<Update>, k: Key, clk: int, perMinute: real)
    requires Knows(state, us, clk, perMinute)
    ensures Get(state, k) == if |us| > 0 && Present(us, |us| - 1, k)
            then Some(TrackedOf(us, |us| - 1, k, clk, perMinute)) else None
  {
  }

  /** The processes of the first rows of an update, and those only. */
  ghost predicate SeenSoFar(seen: map<Key, Tracked>, us: seq<Update>, u: Update, i: nat, clk: int, perMinute: real)
    requires i <= |u.rows|
  {
    clk > 0 &&
    forall k :: Get(seen, k) == if TicksOf(u.rows[..i], k).Some? then TrackedNow(us, u, k, clk, perMinute) else None
  }

  ghost function TrackedNow(us: seq<Update>, u: Update, k: Key, clk: int, perMinute: real): Option<Tracked>
    requires clk > 0
  {
    if Present(us + [u], |us|, k) then Some(TrackedOf(us + [u], |us|, k, clk, perMinute)) else None
  }

  lemma {:induction false} SeenStep(seen: map<Key, Tracked>, us: seq<Update>, u: Update, i: nat, clk: int,
        perMinute: real, t: Tracked)
    requires i < |u.rows| && SeenSoFar(seen, us, u, i, clk, perMinute)
             && Some(t) == TrackedNow(us, u, u.rows[i].key, clk, perMinute)
    ensures SeenSoFar(seen[u.rows[i].key := t], us, u, i + 1, clk, perMinute)
  {
    assert u.rows[..i + 1][..i] == u.rows[..i];
    var next := seen[u.rows[i].key := t];
    forall k ensures Get(next, k) == if TicksOf(u.rows[..i + 1], k).Some? then TrackedNow(us, u, k, clk, perMinute)
        else None {
      assert Get(seen, k) == if TicksOf(u.rows[..i], k).Some? then TrackedNow(us, u, k, clk, perMinute) else None;
    }
  }

  lemma {:induction false} SeenAll(seen: map<Key, Tracked>, us: seq<Update>, u: Update, clk: int, perMinute: real)
    requires SeenSoFar(seen, us, u, |u.rows|, clk, perMinute)
    ensures Knows(seen, us + [u], clk, perMinute)
  {
    var more := us + [u];
    assert u.rows[..|u.rows|] == u.rows && more[|us|] == u;
    forall k ensures if Present(more, |us|, k) then k in seen
        && seen[k] == TrackedOf(more, |us|, k, clk, perMinute) else k !in seen {
      assert Get(seen, k) == if TicksOf(u.rows, k).Some? then TrackedNow(us, u, k, clk, perMinute) else None;
    }
  }

  class ProcessTracker {
    const perMinute: real
    const clk: int
    var state: map<Key, Tracked>
    var updates: nat
    ghost var history: seq<Update>

    ghost predicate Valid()
      reads this
    {
      updates == |history| && Knows(state, history, clk, perMinute)
    }

    constructor (perMinute: real, clk: int)
      requires clk > 0
      ensures Valid() && history == [] && this.perMinute == perMinute && this.clk == clk
    {
      this.perMinute, this.clk := perMinute, clk;
      state, updates, history := map[], 0, [];
    }

    /** Each process's report is what its own history says. */
    method Observe(u: Update) returns (reports: seq<Report>)
      requires Valid() && Distinct(u.rows)
      modifies this
      ensures Valid() && history == old(history) + [u] && |reports| == |u.rows|
      ensures forall i :: 0 <= i < |u.rows| ==>
                Present(history, |history| - 1, u.rows[i].key)
                && reports[i] == ReportOf(history, |history| - 1, u.rows[i].key, clk, perMinute)
    {
      var seen;
      seen, reports := TrackAll(state, u, updates == 0, clk, perMinute, history);
      state, updates, history := seen, updates + 1, history + [u];
    }
  }

  method TrackAll(state: map<Key, Tracked>, u: Update, isFirst: bool, clk: int, perMinute: real, ghost us: seq<Update>)
      returns (seen: map<Key, Tracked>, reports: seq<Report>)
    requires Knows(state, us, clk, perMinute) && Distinct(u.rows) && (isFirst <==> us == [])
    ensures Knows(seen, us + [u], clk, perMinute) && |reports| == |u.rows|
    ensures forall i :: 0 <= i < |u.rows| ==> IsReport(reports[i], us, u, u.rows[i].key, clk, perMinute)
  {
    seen, reports := map[], [];
    for i := 0 to |u.rows|
      invariant |reports| == i && SeenSoFar(seen, us, u, i, clk, perMinute)
      invariant forall j :: 0 <= j < i ==> IsReport(reports[j], us, u, u.rows[j].key, clk, perMinute)
    {
      var row := u.rows[i];
      TicksAt(u.rows, i);
      KnownBefore(state, us, row.key, clk, perMinute);
      TracksOn(us, u, row.key, row.ticks, clk, perMinute);
      var (t, r) := Tracks(Get(state, row.key), row.ticks, u, isFirst, clk, perMinute);
      SeenStep(seen, us, u, i, clk, perMinute, t);
      seen := seen[row.key := t];
      reports := reports + [r];
    }
    SeenAll(seen, us, u, clk, perMinute);
  }

  ghost predicate IsReport(r: Report, us: seq<Update>, u: Update, k: Key, clk: int, perMinute: real) {
    clk > 0 && Present(us + [u], |us|, k) && r == ReportOf(us + [u], |us|, k, clk, perMinute)
  }

  // --- the schedule ---------------------------------------------------------------------------------

  /** The next due time: slots missed during a slow collection are skipped. */
  function NextDue(due: real, interval: real, now: real): real {
    var d := due + interval;
    if d > now then d
    else if interval > 0.0 then d + interval * (((now - d) / interval).Floor + 1) as real
    else now
  }

  /** It is a whole number of slots after the last one, the first of them later than now. */
  lemma {:induction false} NextDueIsNextSlot(due: real, interval: real, now: real) returns (n: nat)
    requires interval > 0.0
    ensures var r := NextDue(due, interval, now);
            r > now && (r - interval <= now || n == 1) && n >= 1 && r == due + interval * n as real
  {
    var d := due + interval;
    if d > now {
      n := 1;
      assert d == due + interval * 1 as real;
    } else {
      var q := (now - d) / interval;
      var f := q.Floor;
      assert q * interval == now - d;
      assert f as real <= q < f as real + 1.0;
      Scale(f as real, q, interval);
      Scale(q, f as real + 1.0, interval);
      assert q >= 0.0 by { if q < 0.0 { Scale(q, 0.0, interval); } }
      assert f >= 0;
      n := f + 2;
      assert n as real == f as real + 2.0;
      assert NextDue(due, interval, now) == due + interval * n as real;
    }
  }

  lemma {:induction false} Scale(a: real, b: real, c: real)
    requires c > 0.0
    ensures (a < b ==> a * c < b * c) && (a <= b ==> a * c <= b * c)
  {
  }
}
