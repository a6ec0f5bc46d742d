/**
  The aggregator of one node's counters: minutes close when a later one begins, and their rows
  carry rates over exactly the pairs of samples they cover
  (node_monitor/pipeline/node_metrics.py).
 */
module MinuteAggregation {
  import opened Upsert
  import opened Minutes
  import opened Sealing

  // --- rows -----------------------------------------------------------------------------------

  datatype Rate = Rate(rx: real, tx: real)

  datatype MinuteRow = MinuteRow(
    minute: int, cpuPct: Option<map<Mode, real>>, rates: map<string, Rate>, slot: Slot,
    probeCpu: Option<real>, rss: Option<int>, samples: nat, expected: int, last: Option<Counters>)

  function Jiffies(cpu: map<Mode, int>): int
    requires AllModes(cpu)
  {
    cpu[User] + cpu[Nice] + cpu[System] + cpu[Iowait] + cpu[Irq] + cpu[Softirq] + cpu[Steal] + cpu[Idle]
  }

  function Percent(part: int, whole: int): real
    requires whole > 0
  {
    100.0 * part as real / whole as real
  }

  /** A rate per second over microseconds. */
  function PerSecond(amount: int, elapsed: int): real
    requires elapsed > 0
  {
    1000000.0 * amount as real / elapsed as real
  }

  function Rates(net: map<string, Acc>): map<string, Rate>
    requires Divisible(net)
  {
    map i | i in net :: Rate(PerSecond(net[i].rx, net[i].elapsed), PerSecond(net[i].tx, net[i].elapsed))
  }

  function RowOf(m: Minute, slot: Slot, expected: int): MinuteRow
    requires AllModes(m.cpu) && Divisible(m.net)
  {
    MinuteRow(m.minute,
              if m.cpuPairs > 0 && Jiffies(m.cpu) > 0 then Some(map k | k in m.cpu ::
                  Percent(m.cpu[k], Jiffies(m.cpu))) else None,
              Rates(m.net), slot, if m.probePairs > 0 then Some(m.probeCpu) else None, m.rss, m.samples, expected,
                  m.last)
  }

  lemma {:induction false} RateNotNegative(a: int, b: int)
    requires a >= 0 && b > 0
    ensures PerSecond(a, b) >= 0.0
  {
  }

  /** The row of a minute, with whatever its censuses had to say. */
  ghost predicate IsRow(row: MinuteRow, m: Minute, expected: int) {
    && row.minute == m.minute && row.samples == m.samples
    && forall k :: Opens(k, Listing) ==> AllModes(m.cpu) && Divisible(m.net) && row == RowOf(m, row.slot, expected)
  }

  /** No rate is negative, and the shares of the CPU states add up to a hundred. */
  ghost predicate Sensible(r: MinuteRow) {
    && (forall i :: i in r.rates ==> r.rates[i].rx >= 0.0 && r.rates[i].tx >= 0.0)
    && (r.cpuPct.Some? ==> HasAll(r.cpuPct.value) && SumAll(r.cpuPct.value) == 100.0)
  }

  ghost predicate HasAll(p: map<Mode, real>) { forall k: Mode :: k in p }

  function SumAll(p: map<Mode, real>): real
    requires HasAll(p)
  {
    p[User] + p[Nice] + p[System] + p[Iowait] + p[Irq] + p[Softirq] + p[Steal] + p[Idle]
  }

  lemma {:induction false} RowSensible(m: Minute, slot: Slot, expected: int)
    requires AllModes(m.cpu) && Divisible(m.net)
    ensures Sensible(RowOf(m, slot, expected))
  {
    forall i | i in m.net ensures PerSecond(m.net[i].rx, m.net[i].elapsed) >= 0.0
        && PerSecond(m.net[i].tx, m.net[i].elapsed) >= 0.0 {
      RateNotNegative(m.net[i].rx, m.net[i].elapsed);
      RateNotNegative(m.net[i].tx, m.net[i].elapsed);
    }
    if Jiffies(m.cpu) > 0 {
      SharesAddUp(m.cpu);
    }
  }

  lemma {:induction false} SharesAddUp(cpu: map<Mode, int>)
    requires AllModes(cpu) && Jiffies(cpu) > 0
    ensures var t := Jiffies(cpu);
            Percent(cpu[User], t) + Percent(cpu[Nice], t) + Percent(cpu[System], t) + Percent(cpu[Iowait], t)
            + Percent(cpu[Irq], t) + Percent(cpu[Softirq], t) + Percent(cpu[Steal], t) + Percent(cpu[Idle], t) == 100.0
  {
    var t := Jiffies(cpu);
    var w := 100.0 / t as real;
    forall k: Mode ensures Percent(cpu[k], t) == w * cpu[k] as real {}
    assert w * t as real == 100.0;
  }

  // --- all minutes together -----------------------------------------------------------------------

  function SumNet(ms: seq<Minute>, iface: string, f: Field): int {
    if ms == [] then 0 else SumNet(ms[..|ms| - 1], iface, f) + PartAt(ms[|ms| - 1].net, iface, f)
  }

  function SumSamples(ms: seq<Minute>): nat {
    if ms == [] then 0 else SumSamples(ms[..|ms| - 1]) + ms[|ms| - 1].samples
  }

  /** The closed minutes hold what the samples before `first` add up to. */
  ghost predicate ClosedAddUp(closed: seq<Minute>, ss: seq<Sample>, first: nat) {
    && first <= |ss| && SumSamples(closed) == first
    && forall i, f :: SumNet(closed, i, f) == NetOver(ss, 0, first, i, f)
  }

  lemma {:induction false} ClosedAddUpMore(closed: seq<Minute>, ss: seq<Sample>, first: nat, s: Sample)
    requires ClosedAddUp(closed, ss, first)
    ensures ClosedAddUp(closed, ss + [s], first)
  {
    forall i, f ensures SumNet(closed, i, f) == NetOver(ss + [s], 0, first, i, f) {
      NetPrefix(ss, ss + [s], 0, first, i, f);
    }
  }

  lemma {:induction false} CloseAddUp(closed: seq<Minute>, m: Minute, ss: seq<Sample>, first: nat)
    requires ClosedAddUp(closed, ss, first) && Sums(m, ss, first)
    ensures ClosedAddUp(closed + [m], ss, |ss|)
  {
    assert (closed + [m])[..|closed|] == closed;
    forall i, f ensures SumNet(closed + [m], i, f) == NetOver(ss, 0, |ss|, i, f) {
      NetSplits(ss, 0, first, |ss|, i, f);
      assert PartAt(m.net, i, f) == NetOver(ss, first, |ss|, i, f);
    }
  }

  function LastOf(ss: seq<Sample>): Option<Sample> { if ss == [] then None else Some(ss[|ss| - 1]) }

  ghost predicate MinuteOpen(open: Option<Minute>, ss: seq<Sample>, first: nat) {
    if open.None? then first == |ss| else Sums(open.value, ss, first)
  }

  ghost predicate InStep(prev: Option<Sample>, open: Option<Minute>, census: map<Mark, Slot>, ss: seq<Sample>,
        first: nat, closed: seq<Minute>, log: seq<Offer>) {
    forall k :: Opens(k, Whole) ==>
      && prev == LastOf(ss) && MinuteOpen(open, ss, first)
      && ClosedAddUp(closed, ss, first) && Pending(census, log)
  }

  lemma {:induction false} OfferInStep(prev: Option<Sample>, open: Option<Minute>, census: map<Mark, Slot>,
        ss: seq<Sample>, first: nat, closed: seq<Minute>, log: seq<Offer>, m: Mark, c: Census)
    requires InStep(prev, open, census, ss, first, closed, log)
    ensures InStep(prev, open, Newest(Stored(census, m, c)), ss, first, closed, log + [Offer(m, c)])
  {
    assert Opens(Whole, Whole);
    OfferKept(census, log, m, c);
  }

  lemma {:induction false} CloseInStep(prev: Option<Sample>, m: Minute, census: map<Mark, Slot>, ss: seq<Sample>,
        first: nat, closed: seq<Minute>, log: seq<Offer>)
    requires InStep(prev, Some(m), census, ss, first, closed, log)
    ensures AllModes(m.cpu) && Divisible(m.net)
    ensures InStep(prev, None, Later(census, Mark(m.minute)), ss, |ss|, closed + [m], Unclosed(log, Mark(m.minute)))
  {
    assert Opens(Whole, Whole);
    CloseAddUp(closed, m, ss, first);
    CloseKept(census, log, Mark(m.minute));
  }

  class MinuteAggregator {
    const expected: int
    var open: Option<Minute>
    var prev: Option<Sample>
    var census: map<Mark, Slot>
    var lastClosed: Option<int>
    /** Every sample so far, where the open minute's begin, and the minutes closed. */
    ghost var samples: seq<Sample>
    ghost var first: nat
    ghost var closed: seq<Minute>
    /** The censuses accepted for minutes not closed yet. */
    ghost var log: seq<Offer>

    ghost predicate Valid()
      reads this
    {
      InStep(prev, open, census, samples, first, closed, log)
    }

    constructor (expected: int)
      ensures Valid() && open == None && lastClosed == None && samples == [] && closed == []
              && this.expected == expected
    {
      this.expected := expected;
      open, prev, census, lastClosed := None, None, map[], None;
      samples, first, closed, log := [], 0, [], [];
    }

    /** The census's minute is not over. */
    predicate Takes(recv: int)
      reads this`open, this`lastClosed
    {
      && !(open.Some? && FloorMinute(recv) < open.value.minute)
      && !(lastClosed.Some? && FloorMinute(recv) <= lastClosed.value)
    }

    /** The log of the censuses that wait, with this one if it is taken. */
    ghost function LogWith(c: Census, recv: int): seq<Offer>
      reads this`open, this`lastClosed, this`log
    {
      if Takes(recv) then log + [Offer(Mark(FloorMinute(recv)), c)] else log
    }

    /** Stores a census for its minute, unless that is over; only the newest are kept. */
    method AddCensus(c: Census, recv: int)
      requires Valid()
      modifies this`census, this`log
      ensures Valid() && log == old(LogWith(c, recv))
    {
      var minute := FloorMinute(recv);
      if open.Some? && minute < open.value.minute {
        return;
      }
      if lastClosed.Some? && minute <= lastClosed.value {
        return;
      }
      OfferInStep(prev, open, census, samples, first, closed, log, Mark(minute), c);
      census := Newest(Stored(census, Mark(minute), c));
      log := log + [Offer(Mark(minute), c)];
    }

    /** Closes the open minute. */
    method Close() returns (row: MinuteRow)
      requires Valid() && open.Some?
      modifies this
      ensures Valid() && open == None && lastClosed == Some(old(open).value.minute)
      ensures closed == old(closed) + [old(open).value] && samples == old(samples) && first == |samples|
      ensures AllModes(old(open).value.cpu) && Divisible(old(open).value.net)
      ensures row == RowOf(old(open).value, SlotAt(old(census), Mark(old(open).value.minute)), expected)
      ensures log == Unclosed(old(log), Mark(old(open).value.minute))
    {
      var m := open.value;
      CloseInStep(prev, m, census, samples, first, closed, log);
      row := RowOf(m, SlotAt(census, Mark(m.minute)), expected);
      census, open, lastClosed := Later(census, Mark(m.minute)), None, Some(m.minute);
      closed, first, log := closed + [m], |samples|, Unclosed(log, Mark(m.minute));
    }

    method AddCounters(msg: Counters, recv: int, session: int) returns (rows: seq<MinuteRow>)
      requires Valid()
      modifies this
      ensures Valid() && samples == old(samples) + [Sample(msg, recv, session)] && open.Some?
      ensures var closes := old(open).Some? && FloorMinute(recv) > old(open).value.minute;
              && open.value.minute == (if closes || old(open).None? then FloorMinute(recv) else old(open).value.minute)
              && closed == (if closes then old(closed) + [old(open).value] else old(closed))
              && |rows| == (if closes then 1 else 0)
              && (closes ==>
                    IsRow(rows[0], old(open).value, expected)
                    && rows[0].slot == SlotAt(old(census), Mark(old(open).value.minute)))
              && open.value.samples == (if closes || old(open).None? then 1 else old(open).value.samples + 1)
    {
      rows := [];
      var minute := FloorMinute(recv);
      if open.Some? && minute > open.value.minute {
        var row := Close();
        rows := [row];
      }
      AddSample(minute, Sample(msg, recv, session));
    }

    /** Counts a sample in the open minute, opening one if there is none. */
    method AddSample(minute: int, s: Sample)
      requires Valid()
      modifies this`open, this`prev, this`samples
      ensures Valid() && samples == old(samples) + [s] && open.Some?
      ensures open.value.minute == (if old(open).None? then minute else old(open).value.minute)
      ensures open.value.samples == (if old(open).None? then 1 else old(open).value.samples + 1)
    {
      assert Opens(Whole, Whole);
      var next := Grow(open, prev, minute, s, samples, first);
      ClosedAddUpMore(closed, samples, first, s);
      open, prev := Some(next), Some(s);
      samples := samples + [s];
    }

    method Flush() returns (rows: seq<MinuteRow>)
      requires Valid()
      modifies this
      ensures Valid() && open == None && samples == old(samples)
      ensures closed == (if old(open).Some? then old(closed) + [old(open).value] else old(closed))
      ensures |rows| == (if old(open).Some? then 1 else 0)
      ensures old(open).Some? ==>
                IsRow(rows[0], old(open).value, expected) && rows[0].slot
                    == SlotAt(old(census), Mark(old(open).value.minute))
    {
      if open.None? {
        return [];
      }
      var row := Close();
      return [row];
    }

    /** For every interface, what the emitted minutes and the open one accumulated is the sum
        over consecutive samples of one session, with time passed and no reset. */
    lemma {:induction false} DeltasAddUp(iface: string, f: Field)
      requires Valid()
      ensures SumNet(closed, iface, f) + (if open.Some? then PartAt(open.value.net, iface, f) else 0)
              == NetOver(samples, 0, |samples|, iface, f)
      ensures SumSamples(closed) + (if open.Some? then open.value.samples else 0) == |samples|
    {
      assert Opens(Whole, Whole);
      NetSplits(samples, 0, first, |samples|, iface, f);
      assert SumNet(closed, iface, f) == NetOver(samples, 0, first, iface, f);
      assert open.Some? ==> PartAt(open.value.net, iface, f) == NetOver(samples, first, |samples|, iface, f);
    }
  }

  /** The open minute, or a new one, with one more sample. */
  method Grow(open: Option<Minute>, prev: Option<Sample>, minute: int, s: Sample, ghost ss: seq<Sample>,
        ghost first: nat) returns (next: Minute)
    requires prev == LastOf(ss) && MinuteOpen(open, ss, first)
    ensures Sums(next, ss + [s], first)
    ensures next.minute == (if open.None? then minute else open.value.minute)
    ensures next.samples == (if open.None? then 1 else open.value.samples + 1)
  {
    var cur := if open.None? then NewMinute(minute) else open.value;
    next := cur.(samples := cur.samples + 1, last := Some(s.msg),
                 rss := if s.msg.rss.Some? then s.msg.rss else cur.rss,
                 offsets := cur.offsets + if s.msg.offset.Some? then [s.msg.offset.value] else []);
    if prev.Some? && IsPair(prev.value, s) {
      NoJiffies();
      next := AddPair(next, prev.value.msg, s.msg, s.recv - prev.value.recv);
      Paired(open, ss, first, s, minute, cur, next);
    } else {
      Alone(open, ss, first, s, minute, next);
    }
  }

  function SlotAt(census: map<Mark, Slot>, m: Mark): Slot { if m in census then census[m] else EMPTY_SLOT }

  lemma {:induction false} Alone(open: Option<Minute>, ss: seq<Sample>, first: nat, s: Sample, minute: int,
        next: Minute)
    requires MinuteOpen(open, ss, first) && !(ss != [] && IsPair(ss[|ss| - 1], s))
    requires var cur := if open.None? then NewMinute(minute) else open.value;
             next == cur.(last := Some(s.msg), samples := cur.samples + 1, offsets := next.offsets, rss := next.rss)
    ensures Sums(next, ss + [s], first)
  {
    if open.None? {
      SumsFirst(minute, ss, s, next);
    } else {
      SumsAlone(open.value, ss, first, s, next);
    }
  }

  lemma {:induction false} Paired(open: Option<Minute>, ss: seq<Sample>, first: nat, s: Sample, minute: int,
        cur: Minute, next: Minute)
    requires MinuteOpen(open, ss, first) && ss != [] && IsPair(ss[|ss| - 1], s)
    requires cur == if open.None? then NewMinute(minute) else open.value
    requires PairAdded(cur, next, ss[|ss| - 1].msg, s.msg, s.recv - ss[|ss| - 1].recv)
    requires next.samples == cur.samples + 1 && next.last == Some(s.msg)
    ensures Sums(next, ss + [s], first)
  {
    if open.None? {
      SumsFirstPair(cur, ss, s, next, minute);
    } else {
      SumsPair(open.value, ss, first, s, next);
    }
  }
}
