/**
  Counters messages folded into one-minute rows, and the censuses that wait for their minute
  (node_monitor/pipeline/node_metrics.py).  Times are microseconds.
 */
module Minutes {
  import opened Upsert

  const MINUTE := 60_000_000

  function FloorMinute(recv: int): int { recv - recv % MINUTE }

  datatype Traffic = Traffic(rx: int, tx: int)

  /** A counters message: jiffies by state, bytes by interface, and the probe's own CPU time
      (None if the message lacks it). */
  datatype Counters = Counters(cpu: map<Mode, int>, net: map<string, Traffic>, probeCpu: Option<real>,
      rss: Option<int>, offset: Option<int>)

  datatype Sample = Sample(msg: Counters, recv: int, session: int)

  /** The jiffies that count; guest time is already inside user time. */
  datatype Mode = User | Nice | System | Iowait | Irq | Softirq | Steal | Idle

  predicate AllModes(cpu: map<Mode, int>) { forall k: Mode :: k in cpu }

  // --- the simple form: sums over consecutive samples ------------------------------------------

  /** Two consecutive samples count if they are of one session and time has passed. */
  predicate IsPair(a: Sample, b: Sample) { a.session == b.session && b.recv - a.recv > 0 }

  datatype Acc = Acc(rx: int, tx: int, elapsed: int)

  datatype Field = Rx | Tx | Elapsed

  function Part(a: Acc, f: Field): int {
    match f
    case Rx => a.rx
    case Tx => a.tx
    case Elapsed => a.elapsed
  }

  /** The pair has the interface on both sides and neither counter was reset. */
  predicate Measures(a: Counters, b: Counters, iface: string) {
    iface in a.net && iface in b.net && b.net[iface].rx >= a.net[iface].rx && b.net[iface].tx >= a.net[iface].tx
  }

  function NetDelta(a: Counters, b: Counters, elapsed: int, iface: string, f: Field): int {
    if !Measures(a, b, iface) then 0
    else
      match f
      case Rx => b.net[iface].rx - a.net[iface].rx
      case Tx => b.net[iface].tx - a.net[iface].tx
      case Elapsed => elapsed
  }

  function NetPair(a: Sample, b: Sample, iface: string, f: Field): int {
    if IsPair(a, b) then NetDelta(a.msg, b.msg, b.recv - a.recv, iface, f) else 0
  }

  function NetEnd(ss: seq<Sample>, k: nat, iface: string, f: Field): int
    requires k < |ss|
  {
    if k == 0 then 0 else NetPair(ss[k - 1], ss[k], iface, f)
  }

  /** An interface's traffic, or the time it covers, over the pairs that end in samples lo..hi. */
  function NetOver(ss: seq<Sample>, lo: nat, hi: nat, iface: string, f: Field): int
    requires hi <= |ss|
    decreases hi
  {
    if hi <= lo then 0 else NetOver(ss, lo, hi - 1, iface, f) + NetEnd(ss, hi - 1, iface, f)
  }

  predicate HasJiffies(a: Counters, b: Counters) {
    AllModes(a.cpu) && AllModes(b.cpu) && forall k: Mode :: b.cpu[k] >= a.cpu[k]
  }

  function CpuPair(a: Sample, b: Sample, key: Mode): int {
    if IsPair(a, b) then CpuDelta(a.msg, b.msg, key) else 0
  }

  function CpuDelta(a: Counters, b: Counters, key: Mode): int {
    if HasJiffies(a, b) then b.cpu[key] - a.cpu[key] else 0
  }

  function CpuEnd(ss: seq<Sample>, k: nat, key: Mode): int
    requires k < |ss|
  {
    if k == 0 then 0 else CpuPair(ss[k - 1], ss[k], key)
  }

  function CpuOver(ss: seq<Sample>, lo: nat, hi: nat, key: Mode): int
    requires hi <= |ss|
    decreases hi
  {
    if hi <= lo then 0 else CpuOver(ss, lo, hi - 1, key) + CpuEnd(ss, hi - 1, key)
  }

  function ProbePair(a: Sample, b: Sample): real {
    if IsPair(a, b) then ProbeDelta(a.msg, b.msg) else 0.0
  }

  function ProbeDelta(a: Counters, b: Counters): real {
    if a.probeCpu.Some? && b.probeCpu.Some? && b.probeCpu.value >= a.probeCpu.value
        then b.probeCpu.value - a.probeCpu.value else 0.0
  }

  function ProbeEnd(ss: seq<Sample>, k: nat): real
    requires k < |ss|
  {
    if k == 0 then 0.0 else ProbePair(ss[k - 1], ss[k])
  }

  function ProbeOver(ss: seq<Sample>, lo: nat, hi: nat): real
    requires hi <= |ss|
    decreases hi
  {
    if hi <= lo then 0.0 else ProbeOver(ss, lo, hi - 1) + ProbeEnd(ss, hi - 1)
  }

  lemma {:induction false} NetSplits(ss: seq<Sample>, lo: nat, mid: nat, hi: nat, iface: string, f: Field)
    requires lo <= mid <= hi <= |ss|
    ensures NetOver(ss, lo, hi, iface, f) == NetOver(ss, lo, mid, iface, f) + NetOver(ss, mid, hi, iface, f)
    decreases hi
  {
    if mid < hi {
      NetSplits(ss, lo, mid, hi - 1, iface, f);
    }
  }

  lemma {:induction false} NetPrefix(ss: seq<Sample>, more: seq<Sample>, lo: nat, hi: nat, iface: string, f: Field)
    requires hi <= |ss| && ss <= more
    ensures NetOver(ss, lo, hi, iface, f) == NetOver(more, lo, hi, iface, f)
    decreases hi
  {
    if lo < hi {
      NetPrefix(ss, more, lo, hi - 1, iface, f);
    }
  }

  lemma {:induction false} CpuPrefix(ss: seq<Sample>, more: seq<Sample>, lo: nat, hi: nat, key: Mode)
    requires hi <= |ss| && ss <= more
    ensures CpuOver(ss, lo, hi, key) == CpuOver(more, lo, hi, key)
    decreases hi
  {
    if lo < hi {
      CpuPrefix(ss, more, lo, hi - 1, key);
    }
  }

  lemma {:induction false} ProbePrefix(ss: seq<Sample>, more: seq<Sample>, lo: nat, hi: nat)
    requires hi <= |ss| && ss <= more
    ensures ProbeOver(ss, lo, hi) == ProbeOver(more, lo, hi)
    decreases hi
  {
    if lo < hi {
      ProbePrefix(ss, more, lo, hi - 1);
    }
  }

  // --- the open minute ----------------------------------------------------------------------------

  datatype Minute = Minute(
    minute: int, last: Option<Counters>, samples: nat, offsets: seq<int>,
    cpu: map<Mode, int>, cpuPairs: nat,
    net: map<string, Acc>,
    probeCpu: real, probePairs: nat, rss: Option<int>)

  const NO_JIFFIES: map<Mode, int> := map[User := 0, Nice := 0, System := 0, Iowait := 0, Irq := 0, Softirq := 0,
      Steal := 0, Idle := 0]

  function NewMinute(minute: int): Minute {
    Minute(minute, None, 0, [], NO_JIFFIES, 0, map[], 0.0, 0, None)
  }

  function PartAt(net: map<string, Acc>, iface: string, f: Field): int { if iface in net then Part(net[iface], f)
        else 0 }

  /** Every accumulator of an interface covers some time and went up. */
  ghost predicate Divisible(net: map<string, Acc>) {
    forall i :: i in net ==> net[i].elapsed > 0 && net[i].rx >= 0 && net[i].tx >= 0
  }

  /** The accumulators once the pair has been added for all interfaces but `todo`. */
  ghost predicate NetAdded(net: map<string, Acc>, r: map<string, Acc>, a: Counters, b: Counters, elapsed: int,
        todo: set<string>) {
    Divisible(r) && forall i, f :: PartAt(r, i, f) == PartAt(net, i, f) + if i in todo then 0
        else NetDelta(a, b, elapsed, i, f)
  }

  function Increased(net: map<string, Acc>, a: Counters, b: Counters, elapsed: int, i: string): map<string, Acc> {
    if !Measures(a, b, i) then net
    else
      var acc := if i in net then net[i] else Acc(0, 0, 0);
      net[i := Acc(acc.rx + (b.net[i].rx - a.net[i].rx), acc.tx + (b.net[i].tx - a.net[i].tx), acc.elapsed + elapsed)]
  }

  lemma {:induction false} NetSteps(net: map<string, Acc>, r: map<string, Acc>, a: Counters, b: Counters,
        elapsed: int, todo: set<string>, i: string)
    requires NetAdded(net, r, a, b, elapsed, todo) && i in todo && elapsed > 0
    ensures NetAdded(net, Increased(r, a, b, elapsed, i), a, b, elapsed, todo - {i})
  {
    var next := Increased(r, a, b, elapsed, i);
    forall j, f ensures PartAt(next, j, f) == PartAt(net, j, f) + if j in todo - {i} then 0
        else NetDelta(a, b, elapsed, j, f) {
      assert PartAt(r, j, f) == PartAt(net, j, f) + if j in todo then 0 else NetDelta(a, b, elapsed, j, f);
    }
  }

  /** Adds the interfaces common to both messages. */
  method AddNet(net: map<string, Acc>, a: Counters, b: Counters, elapsed: int) returns (r: map<string, Acc>)
    requires Divisible(net) && elapsed > 0
    ensures NetAdded(net, r, a, b, elapsed, {})
  {
    r := net;
    var todo := a.net.Keys * b.net.Keys;
    while todo != {}
      invariant NetAdded(net, r, a, b, elapsed, todo)
      decreases |todo|
    {
      var i :| i in todo;
      NetSteps(net, r, a, b, elapsed, todo, i);
      r := Increased(r, a, b, elapsed, i);
      todo := todo - {i};
    }
  }

  /** Adds the jiffies if no state's went back. */
  method AddCpu(cpu: map<Mode, int>, a: Counters, b: Counters) returns (r: map<Mode, int>)
    requires AllModes(cpu) && HasJiffies(a, b)
    ensures AllModes(r) && forall k: Mode :: r[k] == cpu[k] + (b.cpu[k] - a.cpu[k])
  {
    r := map k | k in cpu :: cpu[k] + (b.cpu[k] - a.cpu[k]);
  }

  /** Each family of counters is judged on its own, so one reset does not discard the others. */
  method AddPair(m: Minute, a: Counters, b: Counters, elapsed: int) returns (r: Minute)
    requires AllModes(m.cpu) && Divisible(m.net) && elapsed > 0
    ensures r == m.(cpu := r.cpu, cpuPairs := r.cpuPairs, net := r.net, probeCpu := r.probeCpu,
            probePairs := r.probePairs)
    ensures AllModes(r.cpu) && Divisible(r.net)
    ensures forall k: Mode :: r.cpu[k] == m.cpu[k] + CpuDelta(a, b, k)
    ensures NetAdded(m.net, r.net, a, b, elapsed, {})
    ensures r.probeCpu == m.probeCpu + ProbeDelta(a, b)
  {
    r := m;
    if HasJiffies(a, b) {
      var cpu := AddCpu(m.cpu, a, b);
      r := r.(cpu := cpu, cpuPairs := r.cpuPairs + 1);
    }
    var net := AddNet(m.net, a, b, elapsed);
    r := r.(net := net);
    if a.probeCpu.Some? && b.probeCpu.Some? && b.probeCpu.value >= a.probeCpu.value {
      r := r.(probeCpu := r.probeCpu + (b.probeCpu.value - a.probeCpu.value), probePairs := r.probePairs + 1);
    }
  }

  /** The minute holds samples first.. of the stream: their number and, family by family, the
      sums of the pairs that end in them. */
  ghost predicate Sums(m: Minute, ss: seq<Sample>, first: nat) {
    && first < |ss| && m.samples == |ss| - first && m.last == Some(ss[|ss| - 1].msg)
    && AllModes(m.cpu) && Divisible(m.net)
    && (forall i, f :: PartAt(m.net, i, f) == NetOver(ss, first, |ss|, i, f))
    && (forall k: Mode :: m.cpu[k] == CpuOver(ss, first, |ss|, k))
    && m.probeCpu == ProbeOver(ss, first, |ss|)
  }

  lemma {:induction false} SumsFirst(minute: int, ss: seq<Sample>, s: Sample, m: Minute)
    requires m == NewMinute(minute).(last := Some(s.msg), samples := 1, offsets := m.offsets, rss := m.rss)
    requires ss == [] || !IsPair(ss[|ss| - 1], s)
    ensures Sums(m, ss + [s], |ss|)
  {
    var more := ss + [s];
    assert more[|ss|] == s && (ss != [] ==> more[|ss| - 1] == ss[|ss| - 1]);
    NoJiffies();
  }

  lemma {:induction false} NoJiffies()
    ensures AllModes(NO_JIFFIES) && forall k: Mode :: NO_JIFFIES[k] == 0
  {
    forall k: Mode ensures k in NO_JIFFIES && NO_JIFFIES[k] == 0 {
      match k
      case User => case Nice => case System => case Iowait =>
      case Irq => case Softirq => case Steal => case Idle =>
    }
  }

  /** A sample that makes no pair adds nothing but itself. */
  lemma {:induction false} SumsAlone(m: Minute, ss: seq<Sample>, first: nat, s: Sample, m': Minute)
    requires Sums(m, ss, first) && !IsPair(ss[|ss| - 1], s)
    requires m' == m.(last := Some(s.msg), samples := m.samples + 1, offsets := m'.offsets, rss := m'.rss)
    ensures Sums(m', ss + [s], first)
  {
    var more := ss + [s];
    assert more[|ss|] == s && more[|ss| - 1] == ss[|ss| - 1];
    Extends(ss, s, first);
  }

  lemma {:induction false} Extends(ss: seq<Sample>, s: Sample, first: nat)
    requires first <= |ss|
    ensures forall i, f :: NetOver(ss + [s], first, |ss|, i, f) == NetOver(ss, first, |ss|, i, f)
    ensures forall k :: CpuOver(ss + [s], first, |ss|, k) == CpuOver(ss, first, |ss|, k)
    ensures ProbeOver(ss + [s], first, |ss|) == ProbeOver(ss, first, |ss|)
  {
    forall i, f ensures NetOver(ss + [s], first, |ss|, i, f) == NetOver(ss, first, |ss|, i, f) {
      NetPrefix(ss, ss + [s], first, |ss|, i, f);
    }
    forall k ensures CpuOver(ss + [s], first, |ss|, k) == CpuOver(ss, first, |ss|, k) {
      CpuPrefix(ss, ss + [s], first, |ss|, k);
    }
    ProbePrefix(ss, ss + [s], first, |ss|);
  }

  /** The accumulators `r` are those of `m` with the pair a, b added. */
  ghost predicate PairAdded(m: Minute, r: Minute, a: Counters, b: Counters, elapsed: int) {
    && AllModes(m.cpu) && AllModes(r.cpu) && NetAdded(m.net, r.net, a, b, elapsed, {})
    && (forall k: Mode :: r.cpu[k] == m.cpu[k] + CpuDelta(a, b, k))
    && r.probeCpu == m.probeCpu + ProbeDelta(a, b)
  }

  lemma {:induction false} SumsPair(m: Minute, ss: seq<Sample>, first: nat, s: Sample, r: Minute)
    requires first < |ss| && Sums(m, ss, first) && IsPair(ss[|ss| - 1], s)
    requires PairAdded(m, r, ss[|ss| - 1].msg, s.msg, s.recv - ss[|ss| - 1].recv)
    requires r.samples == m.samples + 1 && r.last == Some(s.msg)
    ensures Sums(r, ss + [s], first)
  {
    var more := ss + [s];
    assert more[|ss|] == s && more[|ss| - 1] == ss[|ss| - 1];
    Extends(ss, s, first);
    forall i, f ensures PartAt(r.net, i, f) == NetOver(more, first, |more|, i, f) {
      assert PartAt(m.net, i, f) == NetOver(ss, first, |ss|, i, f);
    }
  }

  /** The first sample of a minute may pair with the last of the minute before. */
  lemma {:induction false} SumsFirstPair(m: Minute, ss: seq<Sample>, s: Sample, r: Minute, minute: int)
    requires ss != [] && IsPair(ss[|ss| - 1], s)
    requires m.cpu == NO_JIFFIES && m.net == map[] && m.probeCpu == 0.0
    requires PairAdded(m, r, ss[|ss| - 1].msg, s.msg, s.recv - ss[|ss| - 1].recv)
    requires r.samples == 1 && r.last == Some(s.msg)
    ensures Sums(r, ss + [s], |ss|)
  {
    var more := ss + [s];
    assert more[|ss|] == s && more[|ss| - 1] == ss[|ss| - 1];
    forall i, f ensures PartAt(r.net, i, f) == NetOver(more, |ss|, |more|, i, f) {
      assert PartAt(m.net, i, f) == 0;
    }
  }

  // --- pending censuses ------------------------------------------------------------------------------

  const MAX_PENDING := 10

  /** A minute, as the key of the pending censuses. */
  datatype Mark = Mark(at: int)

  datatype Census = Census(gpus: seq<string>, scan: Option<real>, status: Option<string>)

  datatype Slot = Slot(gpus: seq<string>, scan: Option<real>, status: Option<string>)

  const EMPTY_SLOT := Slot([], None, None)

  /** The latest GPUs and status, and the longest scan. */
  function Updated(s: Slot, c: Census): Slot {
    Slot(c.gpus, if c.scan.Some? && (s.scan.None? || c.scan.value > s.scan.value) then c.scan else s.scan, c.status)
  }

  /** A census accepted for a minute that is not closed yet. */
  datatype Offer = Offer(minute: Mark, census: Census)

  function MinutesOf(log: seq<Offer>): set<Mark> {
    if log == [] then {} else MinutesOf(log[..|log| - 1]) + {log[|log| - 1].minute}
  }

  function SlotOf(log: seq<Offer>, minute: Mark): Slot {
    if log == [] then EMPTY_SLOT
    else
      var s := SlotOf(log[..|log| - 1], minute);
      if log[|log| - 1].minute == minute then Updated(s, log[|log| - 1].census) else s
  }

  /** `some` are the `n` largest of `all`, or all of them if there are no more. */
  ghost predicate AreLargest(some: set<Mark>, all: set<Mark>, n: nat) {
    && some <= all && |some| <= n && (some == all || |some| == n)
    && forall x, y :: x in all - some && y in some ==> x.at < y.at
  }

  ghost predicate Pending(census: map<Mark, Slot>, log: seq<Offer>) {
    AreLargest(census.Keys, MinutesOf(log), MAX_PENDING) && forall m :: m in census ==> census[m] == SlotOf(log, m)
  }

  lemma {:induction false} LeastExists(s: set<Mark>)
    requires s != {}
    ensures exists x :: x in s && forall y :: y in s ==> x.at <= y.at
    decreases |s|
  {
    var x :| x in s;
    var rest := s - {x};
    assert forall y :: y in s ==> y == x || y in rest;
    if rest != {} {
      LeastExists(rest);
      var z :| z in rest && forall y :: y in rest ==> z.at <= y.at;
      var w := if x.at < z.at then x else z;
      assert w in s && forall y :: y in s ==> w.at <= y.at;
    }
  }

  function LeastOf(s: set<Mark>): (r: Mark)
    requires s != {}
    ensures r in s && forall y :: y in s ==> r.at <= y.at
  {
    LeastExists(s);
    var x :| x in s && forall y :: y in s ==> x.at <= y.at;
    x
  }

  lemma {:induction false} LogSnoc(log: seq<Offer>, o: Offer)
    ensures MinutesOf(log + [o]) == MinutesOf(log) + {o.minute}
    ensures forall m :: SlotOf(log + [o], m) == if m == o.minute then Updated(SlotOf(log, m), o.census)
            else SlotOf(log, m)
  {
    assert (log + [o])[..|log|] == log;
  }

  lemma {:induction false} SlotNone(log: seq<Offer>, m: Mark)
    requires m !in MinutesOf(log)
    ensures SlotOf(log, m) == EMPTY_SLOT
  {
    if log != [] {
      SlotNone(log[..|log| - 1], m);
    }
  }

  /** With one more, the least must go if that makes too many. */
  function Trimmed(some: set<Mark>): set<Mark> {
    if |some| <= MAX_PENDING then some else some - {LeastOf(some)}
  }

  lemma {:induction false} LargestWith(some: set<Mark>, all: set<Mark>, m: Mark)
    requires AreLargest(some, all, MAX_PENDING)
    ensures AreLargest(Trimmed(some + {m}), all + {m}, MAX_PENDING)
  {
    var more, rest := some + {m}, Trimmed(some + {m});
    if m in some {
      assert more == some && all + {m} == all;
    } else if |more| <= MAX_PENDING {
      assert some == all;
    } else {
      var least := LeastOf(more);
      assert |more| == |some| + 1 && |rest| == MAX_PENDING;
      forall x, y | x in (all + {m}) - rest && y in rest ensures x.at < y.at {
        assert y != least && least.at <= y.at;
        if x != least {
          assert x in all - some;
          assert least != m ==> x.at < least.at;
        }
      }
    }
  }

  lemma {:induction false} GivenUpAgain(some: set<Mark>, all: set<Mark>, m: Mark)
    requires AreLargest(some, all, MAX_PENDING) && m in all && m !in some
    ensures m !in Trimmed(some + {m})
  {
    assert |some + {m}| == MAX_PENDING + 1;
    assert forall y :: y in some ==> m.at < y.at;
  }

  function Stored(census: map<Mark, Slot>, m: Mark, c: Census): map<Mark, Slot> {
    census[m := Updated(if m in census then census[m] else EMPTY_SLOT, c)]
  }

  function Newest(census: map<Mark, Slot>): map<Mark, Slot> {
    map k | k in census && k in Trimmed(census.Keys) :: census[k]
  }

  /** Storing a census keeps the newest minutes, each with all its censuses. */
  lemma {:induction false} OfferKept(census: map<Mark, Slot>, log: seq<Offer>, m: Mark, c: Census)
    requires Pending(census, log)
    ensures Pending(Newest(Stored(census, m, c)), log + [Offer(m, c)])
  {
    var more := Stored(census, m, c);
    var rest := Newest(more);
    assert more.Keys == census.Keys + {m} && rest.Keys == Trimmed(more.Keys);
    LogSnoc(log, Offer(m, c));
    assert AreLargest(rest.Keys, MinutesOf(log + [Offer(m, c)]), MAX_PENDING) by {
      LargestWith(census.Keys, MinutesOf(log), m);
    }
    forall k | k in rest ensures rest[k] == SlotOf(log + [Offer(m, c)], k) {
      SlotKept(census, log, m, c, k);
    }
  }

  lemma {:induction false} SlotKept(census: map<Mark, Slot>, log: seq<Offer>, m: Mark, c: Census, k: Mark)
    requires Pending(census, log) && k in Stored(census, m, c) && k in Trimmed(census.Keys + {m})
    ensures Stored(census, m, c)[k] == SlotOf(log + [Offer(m, c)], k)
  {
    LogSnoc(log, Offer(m, c));
    if k == m && m !in census {
      if m in MinutesOf(log) {
        GivenUpAgain(census.Keys, MinutesOf(log), m);
        assert false;
      }
      SlotNone(log, m);
    }
  }

  /** What is left of a log once a minute is closed. */
  function Unclosed(log: seq<Offer>, minute: Mark): seq<Offer> {
    if log == [] then []
    else Unclosed(log[..|log| - 1], minute) + if log[|log| - 1].minute.at > minute.at then [log[|log| - 1]] else []
  }

  lemma {:induction false} UnclosedIs(log: seq<Offer>, minute: Mark)
    ensures forall m :: m in MinutesOf(Unclosed(log, minute)) <==> m in MinutesOf(log) && m.at > minute.at
    ensures forall m: Mark :: m.at > minute.at ==> SlotOf(Unclosed(log, minute), m) == SlotOf(log, m)
  {
    if log != [] {
      var init, o := log[..|log| - 1], log[|log| - 1];
      UnclosedIs(init, minute);
      assert log == init + [o];
      LogSnoc(init, o);
      if o.minute.at > minute.at {
        assert Unclosed(log, minute) == Unclosed(init, minute) + [o];
        LogSnoc(Unclosed(init, minute), o);
      } else {
        assert Unclosed(log, minute) == Unclosed(init, minute);
      }
    }
  }

  lemma {:induction false} LargestUnclosed(some: set<Mark>, all: set<Mark>, some': set<Mark>, all': set<Mark>,
        minute: Mark)
    requires AreLargest(some, all, MAX_PENDING)
    requires forall m :: m in some' <==> m in some && m.at > minute.at
    requires forall m :: m in all' <==> m in all && m.at > minute.at
    ensures AreLargest(some', all', MAX_PENDING)
  {
    SubsetSize(some', some);
    if gone :| gone in some && gone.at <= minute.at {
      forall x | x in all' ensures x in some' {
        assert x !in all - some;
      }
      assert all' == some';
    } else {
      assert some' == some;
    }
  }

  function Later(census: map<Mark, Slot>, minute: Mark): map<Mark, Slot> {
    map m | m in census && m.at > minute.at :: census[m]
  }

  /** Closing a minute drops it and everything before it. */
  lemma {:induction false} CloseKept(census: map<Mark, Slot>, log: seq<Offer>, minute: Mark)
    requires Pending(census, log)
    ensures Pending(Later(census, minute), Unclosed(log, minute))
  {
    var rest := Later(census, minute);
    UnclosedIs(log, minute);
    LargestUnclosed(census.Keys, MinutesOf(log), rest.Keys, MinutesOf(Unclosed(log, minute)), minute);
  }

  lemma {:induction false} SubsetSize(a: set<Mark>, b: set<Mark>)
    requires a <= b
    ensures |a| <= |b|
  {
    assert b == a + (b - a);
  }
}
