/**
  The pipeline of one node: messages in, records out, with late samples turned away by what has
  already been emitted (node_monitor/pipeline/node_pipeline.py).  Rows are taken as already
  enriched.
 */
module NodePipelines {
  import opened Upsert
  import opened Usage
  import opened UsageAggregation
  import opened Minutes
  import opened MinuteAggregation
  import opened Sealing

  /** What came late: counters, a full census, or one without processes. */
  datatype Late = LateCounters | LateCensus | LateSummary

  datatype Out =
    | MinuteOut(minute: MinuteRow)
    | UsageOut(usage: UsageRow)
    | LateOut(what: Late, recv: int)
    | LiveProcessesOut(recv: int, rows: seq<Process>)
    | LiveNodeOut(recv: int, up: bool)
    | EventOut(kind: string, recv: int)

  /** Emitted minutes strictly increase, and end before the open one. */
  ghost predicate MinutesRise(closed: seq<Minute>, open: Option<Minute>, last: Option<int>) {
    forall k :: Opens(k, Naming) ==>
      && (forall i, j :: 0 <= i < j < |closed| ==> closed[i].minute < closed[j].minute)
      && last == (if closed == [] then None else Some(closed[|closed| - 1].minute))
      && (open.Some? && last.Some? ==> last.value < open.value.minute)
  }

  /** So do interval starts. */
  ghost predicate IntervalsRise(closed: seq<Interval>, open: Option<Interval>, last: Option<int>) {
    forall k :: Opens(k, Naming) ==>
      && (forall i, j :: 0 <= i < j < |closed| ==> closed[i].start < closed[j].start)
      && last == (if closed == [] then None else Some(closed[|closed| - 1].start))
      && (open.Some? && last.Some? ==> last.value < open.value.start)
  }

  function SumIntervals(ivs: seq<Interval>): nat {
    if ivs == [] then 0 else SumIntervals(ivs[..|ivs| - 1]) + ivs[|ivs| - 1].samples
  }

  lemma {:induction false} SumIntervalsSnoc(ivs: seq<Interval>, iv: Interval)
    ensures SumIntervals(ivs + [iv]) == SumIntervals(ivs) + iv.samples
  {
    assert (ivs + [iv])[..|ivs|] == ivs;
  }

  /** The open minute is emitted, and a later one may be opened. */
  lemma {:induction false} MinutesStillRise(closed: seq<Minute>, open: Option<Minute>, last: Option<int>,
        open': Option<Minute>)
    requires MinutesRise(closed, open, last) && open.Some? && (open'.Some? ==> open'.value.minute > open.value.minute)
    ensures MinutesRise(closed + [open.value], open', Some(open.value.minute))
  {
    assert Opens(Naming, Naming);
  }

  /** A sample counted: the open minute is emitted if the sample belongs to a later one. */
  lemma {:induction false} MinuteStep(closed: seq<Minute>, open: Option<Minute>, last: Option<int>,
        open': Option<Minute>, minute: int)
    requires MinutesRise(closed, open, last) && (last.Some? ==> last.value < minute) && open'.Some?
    requires var closes := open.Some? && minute > open.value.minute;
             open'.value.minute == if closes || open.None? then minute else open.value.minute
    ensures var closes := open.Some? && minute > open.value.minute;
            MinutesRise(if closes then closed + [open.value] else closed, open',
                if closes then Some(open.value.minute) else last)
  {
    assert Opens(Naming, Naming);
  }

  lemma {:induction false} IntervalsStillRise(closed: seq<Interval>, open: Option<Interval>, last: Option<int>,
        open': Option<Interval>)
    requires IntervalsRise(closed, open, last) && open.Some? && (open'.Some? ==> open'.value.start > open.value.start)
    ensures IntervalsRise(closed + [open.value], open', Some(open.value.start))
  {
    assert Opens(Naming, Naming);
  }

  /** A census counted: the open interval is emitted if the census belongs to a later one. */
  lemma {:induction false} IntervalStep(closed: seq<Interval>, open: Option<Interval>, last: Option<int>,
        open': Option<Interval>, start: int, n: nat, n': nat)
    requires IntervalsRise(closed, open, last) && (last.Some? ==> last.value < start) && open'.Some?
    requires (if open.Some? then n == open.value.samples else n == 0)
    requires var closes := open.Some? && start > open.value.start;
             open'.value.start == (if closes || open.None? then start else open.value.start)
                 && n' == (if closes then 1 else n + 1)
    ensures var closes := open.Some? && start > open.value.start;
            var more := if closes then closed + [open.value] else closed;
            && IntervalsRise(more, open', if closes then Some(open.value.start) else last)
            && SumIntervals(more) + n' == SumIntervals(closed) + n + 1
  {
    assert Opens(Naming, Naming);
    if open.Some? && start > open.value.start {
      SumIntervalsSnoc(closed, open.value);
    }
  }

  // --- what is emitted ------------------------------------------------------------------------

  function MinuteRows(outs: seq<Out>): seq<MinuteRow> {
    if outs == [] then []
    else MinuteRows(outs[..|outs| - 1]) + if outs[|outs| - 1].MinuteOut? then [outs[|outs| - 1].minute] else []
  }

  function UsageRows(outs: seq<Out>): seq<UsageRow> {
    if outs == [] then []
    else UsageRows(outs[..|outs| - 1]) + if outs[|outs| - 1].UsageOut? then [outs[|outs| - 1].usage] else []
  }

  function Lates(outs: seq<Out>, what: Late): nat {
    if outs == [] then 0
    else Lates(outs[..|outs| - 1], what) + if outs[|outs| - 1].LateOut? && outs[|outs| - 1].what == what then 1 else 0
  }

  lemma {:induction false} OutsAppend(xs: seq<Out>, ys: seq<Out>)
    ensures MinuteRows(xs + ys) == MinuteRows(xs) + MinuteRows(ys)
            && UsageRows(xs + ys) == UsageRows(xs) + UsageRows(ys)
    ensures forall what :: Lates(xs + ys, what) == Lates(xs, what) + Lates(ys, what)
  {
    if ys == [] {
      assert xs + ys == xs;
    } else {
      assert (xs + ys)[..|xs + ys| - 1] == xs + ys[..|ys| - 1];
      OutsAppend(xs, ys[..|ys| - 1]);
    }
  }

  lemma {:induction false} OneOut(o: Out)
    ensures MinuteRows([o]) == (if o.MinuteOut? then [o.minute] else [])
            && UsageRows([o]) == (if o.UsageOut? then [o.usage] else [])
    ensures forall what :: Lates([o], what) == if o.LateOut? && o.what == what then 1 else 0
  {
    assert [o][..0] == [];
  }

  function Wrapped(rows: seq<UsageRow>): seq<Out> {
    if rows == [] then [] else Wrapped(rows[..|rows| - 1]) + [UsageOut(rows[|rows| - 1])]
  }

  lemma {:induction false} WrappedOuts(rows: seq<UsageRow>)
    ensures MinuteRows(Wrapped(rows)) == [] && UsageRows(Wrapped(rows)) == rows
            && forall what :: Lates(Wrapped(rows), what) == 0
    ensures rows == [] ==> Wrapped(rows) == []
  {
    if rows != [] {
      WrappedOuts(rows[..|rows| - 1]);
      OutsAppend(Wrapped(rows[..|rows| - 1]), [UsageOut(rows[|rows| - 1])]);
      OneOut(UsageOut(rows[|rows| - 1]));
    }
  }

  function Together(groups: seq<seq<UsageRow>>): seq<UsageRow> {
    if groups == [] then [] else Together(groups[..|groups| - 1]) + groups[|groups| - 1]
  }

  ghost predicate RowsOfMinutes(rows: seq<MinuteRow>, closed: seq<Minute>, expected: int) {
    |rows| == |closed| && forall i :: 0 <= i < |rows| ==> IsRow(rows[i], closed[i], expected)
  }

  ghost predicate RowsOfIntervals(groups: seq<seq<UsageRow>>, intervals: seq<Interval>, expected: int) {
    |groups| == |intervals| && forall i :: 0 <= i < |groups| ==> RowsOf(groups[i], intervals[i], expected)
  }

  /** All that was emitted: one row for each closed minute, in order, the rows of each closed
      interval, in order, and an event for each sample turned away. */
  ghost predicate Emitted(outs: seq<Out>, closed: seq<Minute>, intervals: seq<Interval>, groups: seq<seq<UsageRow>>,
        perMinute: int, perInterval: int, lateCounters: nat, lateCensuses: nat) {
    forall k :: Opens(k, Telling) ==>
      && RowsOfMinutes(MinuteRows(outs), closed, perMinute)
      && UsageRows(outs) == Together(groups) && RowsOfIntervals(groups, intervals, perInterval)
      && Lates(outs, LateCounters) == lateCounters && Lates(outs, LateCensus) == lateCensuses
  }

  /** What one message makes of the minutes: nothing, or the row of the one it closes. */
  ghost predicate MinuteEmitted(out: seq<Out>, closed: seq<Minute>, closed': seq<Minute>, expected: int) {
    (closed' == closed && out == [])
    || (|closed'| == |closed| + 1 && closed'[..|closed|] == closed && |out| == 1 && out[0].MinuteOut?
        && IsRow(out[0].minute, closed'[|closed|], expected))
  }

  /** And of the intervals. */
  ghost predicate IntervalEmitted(rows: seq<UsageRow>, intervals: seq<Interval>, intervals': seq<Interval>,
        expected: int) {
    (intervals' == intervals && rows == [])
    || (|intervals'| == |intervals| + 1 && intervals'[..|intervals|] == intervals
        && RowsOf(rows, intervals'[|intervals|], expected))
  }

  function Grouped(groups: seq<seq<UsageRow>>, rows: seq<UsageRow>): seq<seq<UsageRow>> {
    if rows == [] then groups else groups + [rows]
  }

  lemma {:induction false} TogetherMore(groups: seq<seq<UsageRow>>, rows: seq<UsageRow>)
    ensures Together(Grouped(groups, rows)) == Together(groups) + rows
  {
    assert (groups + [rows])[..|groups|] == groups;
  }

  lemma {:induction false} EmitMinute(outs: seq<Out>, closed: seq<Minute>, intervals: seq<Interval>,
        groups: seq<seq<UsageRow>>, m: int, u: int, lateCounters: nat, lateCensuses: nat, out: seq<Out>,
        closed': seq<Minute>)
    requires Emitted(outs, closed, intervals, groups, m, u, lateCounters, lateCensuses)
             && MinuteEmitted(out, closed, closed', m)
    ensures Emitted(outs + out, closed', intervals, groups, m, u, lateCounters, lateCensuses)
  {
    if out == [] {
      assert outs + out == outs;
    } else {
      assert Opens(Telling, Telling);
      assert out == [out[0]];
      OutsAppend(outs, out);
      OneOut(out[0]);
      MinutesGrow(MinuteRows(outs), closed, m, out[0].minute, closed');
    }
  }

  lemma {:induction false} MinutesGrow(rows: seq<MinuteRow>, closed: seq<Minute>, m: int, row: MinuteRow,
        closed': seq<Minute>)
    requires RowsOfMinutes(rows, closed, m) && |closed'| == |closed| + 1 && closed'[..|closed|] == closed
    requires IsRow(row, closed'[|closed|], m)
    ensures RowsOfMinutes(rows + [row], closed', m)
  {
    assert forall i :: 0 <= i < |closed| ==> closed'[i] == closed[i];
  }

  lemma {:induction false} EmitUsage(outs: seq<Out>, closed: seq<Minute>, intervals: seq<Interval>,
        groups: seq<seq<UsageRow>>, m: int, u: int, lateCounters: nat, lateCensuses: nat, rows: seq<UsageRow>,
        intervals': seq<Interval>)
    requires Emitted(outs, closed, intervals, groups, m, u, lateCounters, lateCensuses)
             && IntervalEmitted(rows, intervals, intervals', u)
    ensures Emitted(outs + Wrapped(rows), closed, intervals', Grouped(groups, rows), m, u, lateCounters, lateCensuses)
  {
    assert Opens(Telling, Telling);
    UsageAdded(outs, rows);
    TogetherMore(groups, rows);
    GroupsGrow(groups, intervals, u, rows, intervals');
  }

  lemma {:induction false} UsageAdded(outs: seq<Out>, rows: seq<UsageRow>)
    ensures MinuteRows(outs + Wrapped(rows)) == MinuteRows(outs)
            && UsageRows(outs + Wrapped(rows)) == UsageRows(outs) + rows
    ensures forall l :: Lates(outs + Wrapped(rows), l) == Lates(outs, l)
  {
    OutsAppend(outs, Wrapped(rows));
    WrappedOuts(rows);
  }

  lemma {:induction false} GroupsGrow(groups: seq<seq<UsageRow>>, intervals: seq<Interval>, u: int,
        rows: seq<UsageRow>, intervals': seq<Interval>)
    requires RowsOfIntervals(groups, intervals, u) && IntervalEmitted(rows, intervals, intervals', u)
    ensures RowsOfIntervals(Grouped(groups, rows), intervals', u)
  {
    var more := Grouped(groups, rows);
    forall i | 0 <= i < |more| ensures |more| == |intervals'| && RowsOf(more[i], intervals'[i], u) {
      if i < |groups| {
        assert more[i] == groups[i] && intervals'[i] == intervals[i];
      }
    }
  }

  lemma {:induction false} EmitOther(outs: seq<Out>, closed: seq<Minute>, intervals: seq<Interval>,
        groups: seq<seq<UsageRow>>, m: int, u: int, lateCounters: nat, lateCensuses: nat, o: Out)
    requires Emitted(outs, closed, intervals, groups, m, u, lateCounters, lateCensuses) && !o.MinuteOut? && !o.UsageOut?
    ensures Emitted(outs + [o], closed, intervals, groups, m, u,
                    lateCounters + (if o.LateOut? && o.what == LateCounters then 1 else 0),
                    lateCensuses + (if o.LateOut? && o.what == LateCensus then 1 else 0))
  {
    assert Opens(Telling, Telling);
    OutsAppend(outs, [o]);
    OneOut(o);
  }

  // --- what the rows add up to --------------------------------------------------------------------

  function RowSamples(rows: seq<MinuteRow>): nat {
    if rows == [] then 0 else RowSamples(rows[..|rows| - 1]) + rows[|rows| - 1].samples
  }

  lemma {:induction false} RowSamplesAre(rows: seq<MinuteRow>, closed: seq<Minute>, expected: int)
    requires RowsOfMinutes(rows, closed, expected)
    ensures RowSamples(rows) == SumSamples(closed)
  {
    if rows != [] {
      RowSamplesAre(rows[..|rows| - 1], closed[..|closed| - 1], expected);
    }
  }

  /** Each interval's censuses, counted once: in its node row. */
  function NodeSamples(rows: seq<UsageRow>): nat {
    if rows == [] then 0 else NodeSamples(rows[..|rows| - 1]) + if rows[|rows| - 1].NodeRow?
        then rows[|rows| - 1].summary.samples else 0
  }

  lemma {:induction false} NodeSamplesAppend(xs: seq<UsageRow>, ys: seq<UsageRow>)
    ensures NodeSamples(xs + ys) == NodeSamples(xs) + NodeSamples(ys)
  {
    if ys == [] {
      assert xs + ys == xs;
    } else {
      assert (xs + ys)[..|xs + ys| - 1] == xs + ys[..|ys| - 1];
      NodeSamplesAppend(xs, ys[..|ys| - 1]);
    }
  }

  lemma {:induction false} NoNodeRows(rows: seq<UsageRow>)
    requires forall i :: 0 <= i < |rows| ==> rows[i].UserRow?
    ensures NodeSamples(rows) == 0
  {
    if rows != [] {
      NoNodeRows(rows[..|rows| - 1]);
    }
  }

  lemma {:induction false} GroupSamples(rows: seq<UsageRow>, iv: Interval, expected: int)
    requires RowsOf(rows, iv, expected)
    ensures NodeSamples(rows) == iv.samples
  {
    assert Opens(Listing, Listing);
    NoNodeRows(rows[..|rows| - 1]);
  }

  lemma {:induction false} AllSamples(groups: seq<seq<UsageRow>>, intervals: seq<Interval>, expected: int)
    requires RowsOfIntervals(groups, intervals, expected)
    ensures NodeSamples(Together(groups)) == SumIntervals(intervals)
  {
    if groups != [] {
      var n := |groups| - 1;
      AllSamples(groups[..n], intervals[..n], expected);
      NodeSamplesAppend(Together(groups[..n]), groups[n]);
      GroupSamples(groups[n], intervals[n], expected);
    }
  }

  /** Rows of one interval: its start, no user twice, and they add up. */
  lemma {:induction false} GroupKeys(rows: seq<UsageRow>, iv: Interval, expected: int)
    requires RowsOf(rows, iv, expected)
    ensures AddUp(rows)
    ensures forall i :: 0 <= i < |rows| ==> rows[i].summary.start == iv.start
    ensures forall i, j :: 0 <= i < j < |rows| && rows[i].UserRow? && rows[j].UserRow? ==>
            rows[i].username != rows[j].username
    ensures forall i :: 0 <= i < |rows| ==> (rows[i].NodeRow? <==> i == |rows| - 1)
  {
    assert Opens(Listing, Listing);
    var users := rows[..|rows| - 1];
    forall i | 0 <= i < |rows| ensures rows[i].summary.start == iv.start && (rows[i].NodeRow? <==> i == |rows| - 1) {
      assert i < |rows| - 1 ==> rows[i] == users[i];
    }
    forall i, j | 0 <= i < j < |rows| && rows[i].UserRow? && rows[j].UserRow?
        ensures rows[i].username != rows[j].username {
      assert rows[i] == users[i] && rows[j] == users[j];
    }
  }

  // --- the books ----------------------------------------------------------------------------------

  /** Everything emitted so far, the intervals closed and the rows of each; counters and full
      censuses received, and those turned away as late. */
  datatype Ledger = Ledger(
    emitted: seq<Out>, intervals: seq<Interval>, groups: seq<seq<UsageRow>>,
    counters: nat, lateCounters: nat, censuses: nat, lateCensuses: nat)

  /** What the ledger is about: the aggregators and the pipeline's own marks. */
  datatype View = View(
    closed: seq<Minute>, open: Option<Minute>, samples: nat, perMinute: int,
    interval: Option<Interval>, counted: nat, perInterval: int,
    lastMinute: Option<int>, lastInterval: Option<int>)

  ghost predicate InBooks(l: Ledger, v: View) {
    forall k :: Opens(k, Whole) ==>
      && MinutesRise(v.closed, v.open, v.lastMinute) && IntervalsRise(l.intervals, v.interval, v.lastInterval)
      && Emitted(l.emitted, v.closed, l.intervals, l.groups, v.perMinute, v.perInterval, l.lateCounters, l.lateCensuses)
      && l.counters == l.lateCounters + v.samples
      && l.censuses == l.lateCensuses + SumIntervals(l.intervals) + v.counted
  }

  const NO_LEDGER := Ledger([], [], [], 0, 0, 0, 0)

  lemma {:induction false} FirstBooks(perMinute: int, perInterval: int)
    ensures InBooks(NO_LEDGER, View([], None, 0, perMinute, None, 0, perInterval, None, None))
  {
  }

  /** Something of no account is emitted. */
  lemma {:induction false} OtherKept(l: Ledger, v: View, o: Out) returns (l': Ledger)
    requires InBooks(l, v) && !o.MinuteOut? && !o.UsageOut? && (o.LateOut? ==> o.what == LateSummary)
    ensures InBooks(l', v) && l' == l.(emitted := l.emitted + [o])
  {
    assert Opens(Whole, Whole);
    EmitOther(l.emitted, v.closed, l.intervals, l.groups, v.perMinute, v.perInterval, l.lateCounters, l.lateCensuses,
        o);
    l' := l.(emitted := l.emitted + [o]);
  }

  /** Counters are turned away. */
  lemma {:induction false} LateCountersKept(l: Ledger, v: View, recv: int) returns (l': Ledger)
    requires InBooks(l, v)
    ensures InBooks(l', v)
    ensures l' == l.(emitted := l.emitted + [LateOut(LateCounters, recv)], counters := l.counters + 1,
            lateCounters := l.lateCounters + 1)
  {
    assert Opens(Whole, Whole);
    var o := LateOut(LateCounters, recv);
    EmitOther(l.emitted, v.closed, l.intervals, l.groups, v.perMinute, v.perInterval, l.lateCounters, l.lateCensuses,
        o);
    l' := l.(emitted := l.emitted + [o], counters := l.counters + 1, lateCounters := l.lateCounters + 1);
  }

  lemma {:induction false} LateCensusKept(l: Ledger, v: View, recv: int) returns (l': Ledger)
    requires InBooks(l, v)
    ensures InBooks(l', v)
    ensures l' == l.(emitted := l.emitted + [LateOut(LateCensus, recv)], censuses := l.censuses + 1,
            lateCensuses := l.lateCensuses + 1)
  {
    assert Opens(Whole, Whole);
    var o := LateOut(LateCensus, recv);
    EmitOther(l.emitted, v.closed, l.intervals, l.groups, v.perMinute, v.perInterval, l.lateCounters, l.lateCensuses,
        o);
    l' := l.(emitted := l.emitted + [o], censuses := l.censuses + 1, lateCensuses := l.lateCensuses + 1);
  }

  /** Counters are counted in the open minute, after the row of the one they close, if any. */
  lemma {:induction false} CountersKept(l: Ledger, v: View, v': View, minute: int, out: seq<Out>) returns (l': Ledger)
    requires InBooks(l, v) && (v.lastMinute.Some? ==> v.lastMinute.value < minute)
             && MinuteEmitted(out, v.closed, v'.closed, v.perMinute)
    requires var closes := v.open.Some? && minute > v.open.value.minute;
             && v'.open.Some? && v'.open.value.minute == (if closes
                 || v.open.None? then minute else v.open.value.minute)
             && v' == v.(closed := if closes then v.closed + [v.open.value] else v.closed, open := v'.open,
                 samples := v.samples + 1,
                         lastMinute := if closes then Some(v.open.value.minute) else v.lastMinute)
    ensures InBooks(l', v') && l' == l.(emitted := l.emitted + out, counters := l.counters + 1)
  {
    assert Opens(Whole, Whole);
    EmitMinute(l.emitted, v.closed, l.intervals, l.groups, v.perMinute, v.perInterval, l.lateCounters, l.lateCensuses,
        out, v'.closed);
    MinuteStep(v.closed, v.open, v.lastMinute, v'.open, minute);
    l' := l.(emitted := l.emitted + out, counters := l.counters + 1);
  }

  /** A census is counted in the open interval, after the rows of the one it closes, if any. */
  lemma {:induction false} CensusKept(l: Ledger, v: View, v': View, start: int, rows: seq<UsageRow>)
        returns (l': Ledger)
    requires InBooks(l, v) && (v.lastInterval.Some? ==> v.lastInterval.value < start)
    requires if v.interval.Some? then v.counted == v.interval.value.samples else v.counted == 0
    requires var closes := v.interval.Some? && start > v.interval.value.start;
             && v'.interval.Some? && v'.interval.value.start
                 == (if closes || v.interval.None? then start else v.interval.value.start)
             && (if closes then RowsOf(rows, v.interval.value, v.perInterval) else rows == [])
             && v' == v.(interval := v'.interval, counted := if closes then 1 else v.counted + 1,
                         lastInterval := if closes then Some(v.interval.value.start) else v.lastInterval)
    ensures InBooks(l', v') && l'.emitted == l.emitted + Wrapped(rows) && l'.censuses == l.censuses + 1
    ensures l'.counters == l.counters && l'.lateCounters == l.lateCounters && l'.lateCensuses == l.lateCensuses
  {
    assert Opens(Whole, Whole);
    var closes := v.interval.Some? && start > v.interval.value.start;
    var more := if closes then l.intervals + [v.interval.value] else l.intervals;
    IntervalStep(l.intervals, v.interval, v.lastInterval, v'.interval, start, v.counted, v'.counted);
    EmitUsage(l.emitted, v.closed, l.intervals, l.groups, v.perMinute, v.perInterval, l.lateCounters, l.lateCensuses,
        rows, more);
    l' := l.(emitted := l.emitted + Wrapped(rows), intervals := more, groups := Grouped(l.groups, rows),
        censuses := l.censuses + 1);
  }

  /** The open minute is emitted. */
  lemma {:induction false} FlushMinuteKept(l: Ledger, v: View, out: seq<Out>, closed: seq<Minute>) returns (l': Ledger)
    requires InBooks(l, v) && MinuteEmitted(out, v.closed, closed, v.perMinute)
    requires closed == if v.open.Some? then v.closed + [v.open.value] else v.closed
    ensures l' == l.(emitted := l.emitted + out)
    ensures InBooks(l', v.(closed := closed, open := None, lastMinute := if v.open.Some? then Some(v.open.value.minute)
            else v.lastMinute))
  {
    assert Opens(Whole, Whole);
    if v.open.Some? { MinutesStillRise(v.closed, v.open, v.lastMinute, None); }
    EmitMinute(l.emitted, v.closed, l.intervals, l.groups, v.perMinute, v.perInterval, l.lateCounters, l.lateCensuses,
        out, closed);
    l' := l.(emitted := l.emitted + out);
  }

  /** The open interval is emitted. */
  lemma {:induction false} FlushUsageKept(l: Ledger, v: View, rows: seq<UsageRow>) returns (l': Ledger)
    requires InBooks(l, v)
    requires if v.interval.Some? then RowsOf(rows, v.interval.value, v.perInterval)
             && v.counted == v.interval.value.samples
             else rows == [] && v.counted == 0
    ensures l'.emitted == l.emitted + Wrapped(rows) && l'.counters == l.counters && l'.censuses == l.censuses
    ensures InBooks(l', v.(interval := None, counted := 0,
                           lastInterval := if v.interval.Some? then Some(v.interval.value.start) else v.lastInterval))
  {
    assert Opens(Whole, Whole);
    var more := if v.interval.Some? then l.intervals + [v.interval.value] else l.intervals;
    if v.interval.Some? {
      IntervalsStillRise(l.intervals, v.interval, v.lastInterval, None);
      SumIntervalsSnoc(l.intervals, v.interval.value);
    }
    EmitUsage(l.emitted, v.closed, l.intervals, l.groups, v.perMinute, v.perInterval, l.lateCounters, l.lateCensuses,
        rows, more);
    l' := l.(emitted := l.emitted + Wrapped(rows), intervals := more, groups := Grouped(l.groups, rows));
  }

  class NodePipeline {
    const minutes: MinuteAggregator
    const usage: UsageAggregator
    var session: int
    var lastCensusAt: Option<int>
    var lastMinute: Option<int>
    var lastInterval: Option<int>
    ghost var ledger: Ledger

    ghost function Look(): View
      reads this, minutes, usage
    {
      View(minutes.closed, minutes.open, |minutes.samples|, minutes.expected, usage.open, |usage.censuses|,
          usage.expected, lastMinute, lastInterval)
    }

    ghost predicate Valid()
      reads this, minutes, usage
    {
      minutes.Valid() && usage.Valid() && InBooks(ledger, Look())
    }

    constructor (expectedMinutes: int, interval: int, expectedCensuses: int)
      requires interval > 0
      ensures Valid() && ledger == NO_LEDGER && fresh(minutes) && fresh(usage)
    {
      minutes := new MinuteAggregator(expectedMinutes);
      usage := new UsageAggregator(interval, expectedCensuses);
      session, lastCensusAt, lastMinute, lastInterval := 0, None, None, None;
      ledger := NO_LEDGER;
      FirstBooks(expectedMinutes, expectedCensuses);
    }

    /** Every counters message is counted in a minute or turned away with a late_sample event. */
    method OnCounters(msg: Counters, recv: int) returns (out: seq<Out>)
      requires Valid()
      modifies this`lastMinute, this`ledger, minutes
      ensures Valid() && ledger.counters == old(ledger.counters) + 1 && ledger.emitted == old(ledger.emitted) + out
      ensures old(lastMinute).Some? && FloorMinute(recv) <= old(lastMinute).value ==>
              out == [LateOut(LateCounters, recv)]
      ensures !(old(lastMinute).Some? && FloorMinute(recv) <= old(lastMinute).value) ==>
                out != [] && out[|out| - 1] == LiveNodeOut(recv, true)
                    && ledger.lateCounters == old(ledger.lateCounters)
    {
      if lastMinute.Some? && FloorMinute(recv) <= lastMinute.value {
        ledger := LateCountersKept(ledger, Look(), recv);
        return [LateOut(LateCounters, recv)];
      }
      ghost var before := Look();
      var rows := minutes.AddCounters(msg, recv, session);
      out := [];
      if |rows| > 0 {
        lastMinute := Some(rows[0].minute);
        out := [MinuteOut(rows[0])];
      }
      ghost var counted := CountersKept(ledger, before, Look(), FloorMinute(recv), out);
      ledger := OtherKept(counted, Look(), LiveNodeOut(recv, true));
      out := out + [LiveNodeOut(recv, true)];
    }

    /** A census without processes only carries GPU and scan metrics. */
    method OnSummaryCensus(gpus: Minutes.Census, recv: int) returns (out: seq<Out>)
      requires Valid()
      modifies this`lastCensusAt, this`ledger, minutes`census, minutes`log
      ensures Valid() && ledger == old(ledger).(emitted := old(ledger.emitted) + out)
      ensures var late := lastMinute.Some? && FloorMinute(recv) <= lastMinute.value;
              && out == (if late then [LateOut(LateSummary, recv)] else [])
              && lastCensusAt == (if late then old(lastCensusAt) else Some(recv))
              && minutes.log == (if late then old(minutes.log) else old(minutes.LogWith(gpus, recv)))
    {
      if lastMinute.Some? && FloorMinute(recv) <= lastMinute.value {
        ledger := OtherKept(ledger, Look(), LateOut(LateSummary, recv));
        return [LateOut(LateSummary, recv)];
      }
      NoteCensus(gpus, recv);
      out := [];
      assert ledger.emitted + out == ledger.emitted;
    }

    /** Every full census is counted in an interval or turned away with a late_sample event. */
    method OnFullCensus(processes: seq<Process>, gpus: Minutes.Census, recv: int) returns (out: seq<Out>)
      requires Valid()
      modifies this`lastCensusAt, this`lastInterval, this`ledger, minutes`census, minutes`log, usage
      ensures Valid() && ledger.censuses == old(ledger.censuses) + 1 && ledger.emitted == old(ledger.emitted) + out
      ensures var late := old(lastInterval).Some? && usage.Floor(recv) <= old(lastInterval).value;
              && (late ==> out == [LateOut(LateCensus, recv)])
              && (!late ==> out != [] && out[0] == LiveProcessesOut(recv, processes)
                            && ledger.lateCensuses == old(ledger.lateCensuses))
              && lastCensusAt == (if late then old(lastCensusAt) else Some(recv))
              && minutes.log == (if late then old(minutes.log) else old(minutes.LogWith(gpus, recv)))
    {
      if lastInterval.Some? && usage.Floor(recv) <= lastInterval.value {
        ledger := LateCensusKept(ledger, Look(), recv);
        return [LateOut(LateCensus, recv)];
      }
      out := CountCensus(processes, recv, gpus.status == Some("ok"));
      NoteCensus(gpus, recv);
    }

    /** The GPU and scan metrics of a census that is not late wait for their minute. */
    method NoteCensus(gpus: Minutes.Census, recv: int)
      requires minutes.Valid()
      modifies this`lastCensusAt, minutes`census, minutes`log
      ensures minutes.Valid() && Look() == old(Look())
      ensures lastCensusAt == Some(recv) && minutes.log == old(minutes.LogWith(gpus, recv))
    {
      lastCensusAt := Some(recv);
      minutes.AddCensus(gpus, recv);
    }

    /** A census that is not late: its live rows, and the rows of an interval it closes. */
    method CountCensus(processes: seq<Process>, recv: int, measured: bool) returns (out: seq<Out>)
      requires usage.Valid() && InBooks(ledger, Look()) && (lastInterval.Some? ==>
               lastInterval.value < usage.Floor(recv))
      modifies this`lastInterval, this`ledger, usage
      ensures usage.Valid() && InBooks(ledger, Look()) && ledger.censuses == old(ledger.censuses) + 1
      ensures ledger.emitted == old(ledger.emitted) + out && out != [] && out[0] == LiveProcessesOut(recv, processes)
      ensures ledger.lateCensuses == old(ledger.lateCensuses)
    {
      ghost var live := OtherKept(ledger, Look(), LiveProcessesOut(recv, processes));
      ghost var before := Look();
      var rows := usage.AddCensus(processes, recv, measured);
      if rows != [] {
        lastInterval := Some(StartOf(rows));
      }
      ledger := CensusKept(live, before, Look(), usage.Floor(recv), rows);
      out := [LiveProcessesOut(recv, processes)] + Wrapped(rows);
    }

    method OnEvent(kind: string, recv: int) returns (out: seq<Out>)
      requires Valid()
      modifies this`session, this`ledger
      ensures Valid() && session == old(session) + (if kind == "session_started" then 1 else 0)
      ensures ledger == old(ledger).(emitted := old(ledger.emitted) + out)
      ensures out == [EventOut(kind, recv)] + if kind == "session_lost" then [LiveNodeOut(recv, false)] else []
    {
      out := [EventOut(kind, recv)];
      ghost var told := OtherKept(ledger, Look(), EventOut(kind, recv));
      if kind == "session_lost" {
        out := out + [LiveNodeOut(recv, false)];
        told := OtherKept(told, Look(), LiveNodeOut(recv, false));
      }
      if kind == "session_started" {
        session := session + 1;
      }
      ledger := told;
    }

    /** Emits what is open. */
    method Flush() returns (out: seq<Out>)
      requires Valid()
      modifies this`lastMinute, this`lastInterval, this`ledger, minutes, usage
      ensures Valid() && minutes.open == None && usage.open == None && ledger.emitted == old(ledger.emitted) + out
      ensures ledger.counters == old(ledger.counters) && ledger.censuses == old(ledger.censuses)
    {
      var first := FlushMinutes();
      var rows := FlushUsage();
      out := first + Wrapped(rows);
    }

    method FlushMinutes() returns (out: seq<Out>)
      requires minutes.Valid() && InBooks(ledger, Look())
      modifies this`lastMinute, this`ledger, minutes
      ensures minutes.Valid() && InBooks(ledger, Look()) && minutes.open == None
      ensures ledger == old(ledger).(emitted := old(ledger.emitted) + out)
    {
      ghost var before := Look();
      var rows := minutes.Flush();
      out := [];
      if |rows| > 0 {
        lastMinute := Some(rows[0].minute);
        out := [MinuteOut(rows[0])];
      }
      ledger := FlushMinuteKept(ledger, before, out, minutes.closed);
    }

    method FlushUsage() returns (rows: seq<UsageRow>)
      requires usage.Valid() && InBooks(ledger, Look())
      modifies this`lastInterval, this`ledger, usage
      ensures usage.Valid() && InBooks(ledger, Look()) && usage.open == None
      ensures ledger.emitted == old(ledger.emitted) + Wrapped(rows)
      ensures ledger.counters == old(ledger.counters) && ledger.censuses == old(ledger.censuses)
    {
      ghost var before := Look();
      rows := usage.Flush();
      if rows != [] {
        lastInterval := Some(StartOf(rows));
      }
      ledger := FlushUsageKept(ledger, before, rows);
    }

    /** In any order of messages, each is counted in the sample_count of exactly one emitted row
        or of the open one, or turned away with an emitted late_sample event. */
    lemma {:induction false} NothingLost()
      requires Valid()
      ensures RowSamples(MinuteRows(ledger.emitted)) + (if minutes.open.Some? then minutes.open.value.samples else 0)
              + Lates(ledger.emitted, LateCounters) == ledger.counters
      ensures NodeSamples(UsageRows(ledger.emitted)) + (if usage.open.Some? then usage.open.value.samples else 0)
              + Lates(ledger.emitted, LateCensus) == ledger.censuses
    {
      assert Opens(Whole, Whole) && Opens(Telling, Telling);
      minutes.DeltasAddUp("", Rx);
      RowSamplesAre(MinuteRows(ledger.emitted), minutes.closed, minutes.expected);
      AllSamples(ledger.groups, ledger.intervals, usage.expected);
    }

    /** The minutes of the emitted rows strictly increase; the usage rows come interval by
        interval, starts strictly increasing, no user twice in one and the users' adding up to
        the node's; and every minute row is its minute's, so its rates and shares make sense. */
    lemma {:induction false} KeysIncrease()
      requires Valid()
      ensures Ordered(MinuteRows(ledger.emitted), UsageRows(ledger.emitted), ledger.groups)
    {
      assert Opens(Whole, Whole);
      KeysOf(ledger.emitted, minutes.closed, ledger.intervals, ledger.groups, minutes.expected, usage.expected,
             ledger.lateCounters, ledger.lateCensuses, minutes.open, usage.open, lastMinute, lastInterval);
    }
  }

  ghost predicate Ordered(minuteRows: seq<MinuteRow>, usageRows: seq<UsageRow>, groups: seq<seq<UsageRow>>) {
    && (forall i, j :: 0 <= i < j < |minuteRows| ==> minuteRows[i].minute < minuteRows[j].minute)
    && (forall i :: 0 <= i < |minuteRows| ==> Sensible(minuteRows[i]))
    && usageRows == Together(groups) && (forall g :: 0 <= g < |groups| ==> OneInterval(groups[g]))
    && (forall g, h :: 0 <= g < h < |groups| && groups[g] != [] && groups[h] != [] ==>
        StartOf(groups[g]) < StartOf(groups[h]))
  }

  /** Rows of one start, a node row last and before it rows of different users that add up to it;
      in none does an average exceed its maximum. */
  ghost predicate OneInterval(rows: seq<UsageRow>) {
    && rows != [] && AddUp(rows)
    && (forall i :: 0 <= i < |rows| ==>
          rows[i].summary.start == StartOf(rows) && (rows[i].NodeRow? <==> i == |rows| - 1))
    && forall i, j :: 0 <= i < j < |rows| && rows[i].UserRow? && rows[j].UserRow? ==>
        rows[i].username != rows[j].username
  }

  lemma {:induction false} KeysOf(outs: seq<Out>, closed: seq<Minute>, intervals: seq<Interval>,
        groups: seq<seq<UsageRow>>, m: int, u: int, lateCounters: nat, lateCensuses: nat, open: Option<Minute>,
        interval: Option<Interval>, lastMinute: Option<int>, lastInterval: Option<int>)
    requires Emitted(outs, closed, intervals, groups, m, u, lateCounters, lateCensuses)
    requires MinutesRise(closed, open, lastMinute) && IntervalsRise(intervals, interval, lastInterval)
    ensures Ordered(MinuteRows(outs), UsageRows(outs), groups)
  {
    assert Opens(Telling, Telling) && Opens(Naming, Naming);
    forall g | 0 <= g < |groups| ensures OneInterval(groups[g]) && StartOf(groups[g]) == intervals[g].start {
      GroupKeys(groups[g], intervals[g], u);
    }
    assert Opens(Listing, Listing);
    forall i | 0 <= i < |MinuteRows(outs)| ensures Sensible(MinuteRows(outs)[i]) {
      RowSensible(closed[i], MinuteRows(outs)[i].slot, m);
    }
  }

  /** The interval of rows just emitted, as the last of them says. */
  function StartOf(rows: seq<UsageRow>): int
    requires rows != []
  {
    rows[|rows| - 1].summary.start
  }
}
