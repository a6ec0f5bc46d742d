/**
  The aggregator that folds censuses into the open interval and emits its rows when a census
  arrives in a later one (node_monitor/pipeline/usage.py).
 */
module UsageAggregation {
  import opened Upsert
  import opened Usage
  import opened Sealing

  // --- the open interval --------------------------------------------------------------------

  datatype Interval = Interval(
    start: int, samples: nat, gpuSamples: nat,
    node: Tally, users: map<string, Tally>,
    userSum: nat, userMax: nat, activeSum: nat)

  /** The user processes of a census. */
  function Sightings(rows: seq<Process>, measured: bool): seq<Sighting> {
    if rows == [] then []
    else Sightings(rows[..|rows| - 1], measured) + if rows[|rows| - 1].isUser
        then [Sighting(rows[|rows| - 1], measured)] else []
  }

  function ActiveUsers(xs: seq<Sighting>): set<string> {
    if xs == [] then {}
    else ActiveUsers(xs[..|xs| - 1]) + if xs[|xs| - 1].p.cpuState == "active" then {xs[|xs| - 1].p.username} else {}
  }

  function SumSizes(sizes: seq<nat>): nat {
    if sizes == [] then 0 else SumSizes(sizes[..|sizes| - 1]) + sizes[|sizes| - 1]
  }

  function MaxSize(sizes: seq<nat>): nat {
    if sizes == [] then 0 else Max(MaxSize(sizes[..|sizes| - 1]), sizes[|sizes| - 1])
  }

  function UserCounts(censuses: seq<seq<Sighting>>): seq<nat> {
    seq(|censuses|, i requires 0 <= i < |censuses| => |UsersOf(censuses[i])|)
  }

  function ActiveCounts(censuses: seq<seq<Sighting>>): seq<nat> {
    seq(|censuses|, i requires 0 <= i < |censuses| => |ActiveUsers(censuses[i])|)
  }

  /** What an interval holds once it has seen these censuses. */
  function IntervalOf(start: int, censuses: seq<seq<Sighting>>, flags: seq<bool>): Interval {
    IntervalFrom(start, |censuses|, CountTrue(flags), FoldAll(censuses), UserTallies(censuses),
                 UserCounts(censuses), ActiveCounts(censuses))
  }

  function IntervalFrom(start: int, n: nat, trues: nat, node: Tally, users: map<string, Tally>, seen: seq<nat>,
        active: seq<nat>): Interval {
    Interval(start, n, trues, node, users, SumSizes(seen), MaxSize(seen), SumSizes(active))
  }

  // --- one census ---------------------------------------------------------------------------

  /** The census's tallies, by user. */
  function CensusUsers(xs: seq<Sighting>): map<string, Tally> {
    map u | u in UsersOf(xs) :: CensusTally(Of(xs, u))
  }

  /** A user's tally so far. */
  function TallyIn(m: map<string, Tally>, u: string): Tally { if u in m then m[u] else NO_TALLY }

  lemma {:induction false} CensusUserIn(xs: seq<Sighting>, u: string)
    ensures TallyIn(CensusUsers(xs), u) == CensusTally(Of(xs, u))
  {
    OfNone(xs, u);
  }

  lemma {:induction false} CensusUserSnoc(xs: seq<Sighting>, x: Sighting, u: string)
    ensures CensusTally(Of(xs + [x], u)) == if u == x.p.username then Counted(CensusTally(Of(xs, u)), x)
            else CensusTally(Of(xs, u))
  {
    OfSnoc(xs, x, u);
    TallySnoc(Of(xs, u), x);
  }

  lemma {:induction false} CensusUsersSnoc(xs: seq<Sighting>, x: Sighting, t: Tally)
    requires t == Counted(TallyIn(CensusUsers(xs), x.p.username), x)
    ensures CensusUsers(xs + [x]) == CensusUsers(xs)[x.p.username := t]
  {
    var n, r := CensusUsers(xs + [x]), CensusUsers(xs)[x.p.username := t];
    forall u ensures Get(n, u) == Get(r, u) {
      CensusUserSnoc(xs, x, u);
      CensusUserIn(xs, u);
      UsersSnoc(xs, x);
    }
    SameRows(n, r);
  }

  lemma {:induction false} UsersSnoc(xs: seq<Sighting>, x: Sighting)
    ensures UsersOf(xs + [x]) == UsersOf(xs) + {x.p.username}
  {
    assert (xs + [x])[..|xs|] == xs;
  }

  /** The tallies of one census. */
  datatype Census = Census(node: Tally, users: map<string, Tally>, active: set<string>)

  function CensusOf(xs: seq<Sighting>): Census { Census(CensusTally(xs), CensusUsers(xs), ActiveUsers(xs)) }

  function Noted(c: Census, x: Sighting): Census {
    Census(Counted(c.node, x), c.users[x.p.username := Counted(TallyIn(c.users, x.p.username), x)],
           c.active + if x.p.cpuState == "active" then {x.p.username} else {})
  }

  lemma {:induction false} CensusSnoc(xs: seq<Sighting>, x: Sighting)
    ensures CensusOf(xs + [x]) == Noted(CensusOf(xs), x)
  {
    TallySnoc(xs, x);
    CensusUsersSnoc(xs, x, Counted(TallyIn(CensusUsers(xs), x.p.username), x));
    assert (xs + [x])[..|xs|] == xs;
  }

  lemma {:induction false} SightingsSnoc(rows: seq<Process>, i: nat, measured: bool)
    requires i < |rows|
    ensures Sightings(rows[..i + 1], measured) ==
            if rows[i].isUser then Sightings(rows[..i], measured) + [Sighting(rows[i], measured)]
                else Sightings(rows[..i], measured)
  {
    assert rows[..i + 1][..i] == rows[..i];
  }

  method TallyCensus(rows: seq<Process>, measured: bool) returns (c: Census)
    ensures c == CensusOf(Sightings(rows, measured))
  {
    c := Census(NO_TALLY, map[], {});
    assert c == CensusOf([]);
    for i := 0 to |rows|
      invariant c == CensusOf(Sightings(rows[..i], measured))
    {
      SightingsSnoc(rows, i, measured);
      if rows[i].isUser {
        CensusSnoc(Sightings(rows[..i], measured), Sighting(rows[i], measured));
        c := Noted(c, Sighting(rows[i], measured));
      }
    }
    assert rows[..|rows|] == rows;
  }

  /** Each user seen in the census is folded in, the others stay as they were. */
  function FoldBy<K, T>(users: map<K, T>, census: map<K, T>, none: T, fold: (T, T) -> T): map<K, T> {
    map u | u in users.Keys + census.Keys :: FoldOne(users, census, none, fold, u).value
  }

  function FoldOne<K, T>(users: map<K, T>, census: map<K, T>, none: T, fold: (T, T) -> T, u: K): (r: Option<T>)
    ensures r.Some? <==> u in users || u in census
  {
    if u in census then Some(fold(if u in users then users[u] else none, census[u])) else Get(users, u)
  }

  lemma {:induction false} FoldByAt<K, T>(users: map<K, T>, census: map<K, T>, none: T, fold: (T, T) -> T, u: K)
    ensures Get(FoldBy(users, census, none, fold), u) == FoldOne(users, census, none, fold, u)
  {
  }

  method FoldEach<K, T>(users: map<K, T>, census: map<K, T>, none: T, fold: (T, T) -> T) returns (r: map<K, T>)
    ensures r == FoldBy(users, census, none, fold)
  {
    r := users;
    var todo := census.Keys;
    while todo != {}
      invariant todo <= census.Keys
      invariant forall u :: Get(r, u) == if u in todo then Get(users, u) else FoldOne(users, census, none, fold, u)
      decreases |todo|
    {
      var u :| u in todo;
      assert Get(r, u) == Get(users, u);
      r := r[u := fold(if u in r then r[u] else none, census[u])];
      todo := todo - {u};
    }
    forall u ensures Get(r, u) == Get(FoldBy(users, census, none, fold), u) { FoldByAt(users, census, none, fold, u); }
    SameRows(r, FoldBy(users, census, none, fold));
  }

  const FOLD: (Tally, Tally) -> Tally := (t: Tally, c: Tally) => Folded(t, c)

  function FoldUsers(users: map<string, Tally>, census: map<string, Tally>): map<string, Tally> {
    FoldBy(users, census, NO_TALLY, FOLD)
  }

  lemma {:induction false} FoldEmptyCensus(censuses: seq<seq<Sighting>>)
    ensures Folded(FoldAll(censuses), CensusTally([])) == FoldAll(censuses)
  {
    FoldNothing(FoldAll(censuses));
    MaximaNotNegative(censuses);
  }

  lemma {:induction false} FoldAllSnoc(censuses: seq<seq<Sighting>>, xs: seq<Sighting>)
    ensures FoldAll(censuses + [xs]) == Folded(FoldAll(censuses), CensusTally(xs))
  {
    assert (censuses + [xs])[..|censuses|] == censuses;
  }

  lemma {:induction false} OfEachSnoc(censuses: seq<seq<Sighting>>, xs: seq<Sighting>, u: string)
    ensures OfEach(censuses + [xs], u) == OfEach(censuses, u) + [Of(xs, u)]
  {
  }

  lemma {:induction false} FoldUserSnoc(censuses: seq<seq<Sighting>>, xs: seq<Sighting>, u: string)
    ensures var t := FoldAll(OfEach(censuses, u));
            FoldAll(OfEach(censuses + [xs], u)) == if u in UsersOf(xs) then Folded(t, CensusTally(Of(xs, u))) else t
  {
    OfEachSnoc(censuses, xs, u);
    FoldAllSnoc(OfEach(censuses, u), Of(xs, u));
    OfNone(xs, u);
    FoldEmptyCensus(OfEach(censuses, u));
  }

  lemma {:induction false} FoldMissing(censuses: seq<seq<Sighting>>, u: string)
    requires u !in UsersOf(Flat(censuses))
    ensures FoldAll(OfEach(censuses, u)) == NO_TALLY
  {
    if censuses != [] {
      var init, xs := censuses[..|censuses| - 1], censuses[|censuses| - 1];
      assert censuses == init + [xs];
      UsersAppend(Flat(init), xs);
      FoldMissing(init, u);
      FoldUserSnoc(init, xs, u);
    }
  }

  lemma {:induction false} UserTallyIn(censuses: seq<seq<Sighting>>, u: string)
    ensures TallyIn(UserTallies(censuses), u) == FoldAll(OfEach(censuses, u))
  {
    if u !in UsersOf(Flat(censuses)) {
      FoldMissing(censuses, u);
    }
  }

  lemma {:induction false} UserKnown(censuses: seq<seq<Sighting>>, xs: seq<Sighting>, u: string)
    ensures u in UserTallies(censuses + [xs]) <==> u in UserTallies(censuses) || u in UsersOf(xs)
  {
    assert (censuses + [xs])[..|censuses|] == censuses;
    UsersAppend(Flat(censuses), xs);
  }

  lemma {:induction false} FoldUserIs(censuses: seq<seq<Sighting>>, xs: seq<Sighting>, u: string)
    ensures FoldOne(UserTallies(censuses), CensusUsers(xs), NO_TALLY, FOLD, u) == Get(UserTallies(censuses + [xs]), u)
  {
    var users := UserTallies(censuses);
    UserKnown(censuses, xs, u);
    UserTallyIn(censuses, u);
    FoldUserSnoc(censuses, xs, u);
    var t := FoldAll(OfEach(censuses, u));
    if u in UsersOf(xs) {
      assert FoldOne(users, CensusUsers(xs), NO_TALLY, FOLD, u) == Some(FOLD(t, CensusTally(Of(xs, u))));
    }
  }

  /** Folding one more census into every user is tallying each user over one more census. */
  lemma {:induction false} FoldUsersIs(censuses: seq<seq<Sighting>>, xs: seq<Sighting>)
    ensures FoldUsers(UserTallies(censuses), CensusUsers(xs)) == UserTallies(censuses + [xs])
  {
    var r, s := FoldUsers(UserTallies(censuses), CensusUsers(xs)), UserTallies(censuses + [xs]);
    forall u ensures Get(r, u) == Get(s, u) {
      FoldByAt(UserTallies(censuses), CensusUsers(xs), NO_TALLY, FOLD, u);
      FoldUserIs(censuses, xs, u);
    }
    SameRows(r, s);
  }

  lemma {:induction false} CountsSnoc(censuses: seq<seq<Sighting>>, xs: seq<Sighting>)
    ensures UserCounts(censuses + [xs]) == UserCounts(censuses) + [|UsersOf(xs)|]
    ensures ActiveCounts(censuses + [xs]) == ActiveCounts(censuses) + [|ActiveUsers(xs)|]
  {
  }

  lemma {:induction false} SizesSnoc(sizes: seq<nat>, n: nat)
    ensures SumSizes(sizes + [n]) == SumSizes(sizes) + n && MaxSize(sizes + [n]) == Max(MaxSize(sizes), n)
  {
    assert (sizes + [n])[..|sizes|] == sizes;
  }

  lemma {:induction false} SightingsFlagged(rows: seq<Process>, measured: bool)
    ensures forall j :: 0 <= j < |Sightings(rows, measured)| ==> Sightings(rows, measured)[j].gpuMeasured == measured
  {
    if rows != [] {
      SightingsFlagged(rows[..|rows| - 1], measured);
    }
  }

  // --- rows ---------------------------------------------------------------------------------

  datatype Average = Average(count: real, cpu: real, rss: real)

  datatype Summary = Summary(
    start: int,
    processAvg: real, processMax: int, cpu: real, rssAvg: real, rssMax: int,
    gpuAvg: Option<real>, gpuMax: Option<int>,
    threadsAvg: real, dFraction: real, interactiveFraction: real,
    byCategory: Option<map<string, Average>>, byActivity: map<string, Average>, byDormancy: Option<map<string,
        Average>>,
    byBoth: map<string, map<string, Average>>,
    samples: nat, expected: int, unmeasured: int)

  datatype UsageRow =
    | UserRow(username: string, summary: Summary)
    | NodeRow(summary: Summary, usersAvg: real, usersMax: nat, activeAvg: real)

  function Ratio(a: int, b: int): real
    requires b != 0
  {
    a as real / b as real
  }

  function Averages(t: Table, samples: nat): map<string, Average>
    requires samples > 0
  {
    map k | k in t :: Average(Ratio(t[k].count, samples), t[k].cpu, Ratio(t[k].rss, samples))
  }

  /** A user's by_category and by_dormancy are left out: they are sums of by_category_dormancy. */
  function Row(t: Tally, start: int, samples: nat, gpuSamples: nat, expected: int, isUser: bool): Summary
    requires samples > 0
  {
    var s, n := t.sum, t.sum.amount.count;
    Summary(start, Ratio(n, samples), t.nMax, s.amount.cpu, Ratio(s.amount.rss, samples), t.rssMax,
            if gpuSamples > 0 then Some(Ratio(s.gpu, gpuSamples)) else None,
                if gpuSamples > 0 then Some(t.gpuMax) else None,
            Ratio(s.threads, samples),
            if n != 0 then Ratio(s.d, n) else 0.0, if n != 0 then Ratio(s.interactive, n) else 0.0,
            if isUser then None else Some(Averages(t.byCategory, samples)), Averages(t.byActivity, samples),
            if isUser then None else Some(Averages(t.byDormancy, samples)),
            map c | c in t.byBoth :: Averages(t.byBoth[c], samples),
            samples, expected, s.unmeasured)
  }

  lemma {:induction false} RatioAtMost(a: int, n: nat, m: int)
    requires n > 0 && a <= n * m
    ensures Ratio(a, n) <= m as real
  {
    assert a as real <= n as real * m as real;
    assert Ratio(a, n) * n as real == a as real;
  }

  /** Averages never exceed maxima, and GPU columns are there exactly if a census measured. */
  lemma {:induction false} AveragesWithinMaxima(censuses: seq<seq<Sighting>>, flags: seq<bool>, start: int,
        expected: int, isUser: bool)
    requires censuses != [] && Flagged(censuses, flags)
    ensures var r := Row(FoldAll(censuses), start, |censuses|, CountTrue(flags), expected, isUser);
            && r.processAvg <= r.processMax as real && r.rssAvg <= r.rssMax as real
            && (r.gpuAvg.Some? <==> true in flags) && (r.gpuMax.Some? <==> true in flags)
            && (r.gpuAvg.Some? ==> r.gpuAvg.value <= r.gpuMax.value as real)
  {
    SumsWithinMaxima(censuses);
    TrueCounts(flags);
    GpuWithinMaximum(censuses, flags);
    RowWithin(FoldAll(censuses), start, |censuses|, CountTrue(flags), expected, isUser);
  }

  lemma {:induction false} RowWithin(t: Tally, start: int, samples: nat, gpuSamples: nat, expected: int, isUser: bool)
    requires samples > 0 && t.sum.amount.count <= samples * t.nMax && t.sum.amount.rss <= samples * t.rssMax
    requires Within(t.sum.gpu, gpuSamples, t.gpuMax)
    ensures var r := Row(t, start, samples, gpuSamples, expected, isUser);
            && r.processAvg <= r.processMax as real && r.rssAvg <= r.rssMax as real
            && (r.gpuAvg.Some? <==> gpuSamples > 0) && (r.gpuMax.Some? <==> gpuSamples > 0)
            && (r.gpuAvg.Some? ==> r.gpuAvg.value <= r.gpuMax.value as real)
  {
    RatioAtMost(t.sum.amount.count, samples, t.nMax);
    RatioAtMost(t.sum.amount.rss, samples, t.rssMax);
    if gpuSamples > 0 {
      RatioAtMost(t.sum.gpu, gpuSamples, t.gpuMax);
    }
  }

  lemma {:induction false} TrueCounts(flags: seq<bool>)
    ensures CountTrue(flags) > 0 <==> true in flags
  {
    if flags != [] {
      TrueCounts(flags[..|flags| - 1]);
      assert flags == flags[..|flags| - 1] + [flags[|flags| - 1]];
    }
  }

  // --- the aggregator ------------------------------------------------------------------------

  class UsageAggregator {
    const interval: int
    const expected: int
    var open: Option<Interval>
    /** The censuses of the open interval, and which of them measured the GPUs. */
    ghost var censuses: seq<seq<Sighting>>
    ghost var flags: seq<bool>

    ghost predicate Valid()
      reads this
    {
      interval > 0 && IntervalOpen(open, censuses, flags)
    }

    constructor (interval: int, expected: int)
      requires interval > 0
      ensures Valid() && open == None && this.interval == interval && this.expected == expected
    {
      this.interval, this.expected := interval, expected;
      open, censuses, flags := None, [], [];
    }

    function Floor(recv: int): int
      requires interval > 0
    {
      recv - recv % interval
    }

    /** Folds a census into the open interval; the rows of an earlier one come out first. A
        receive time that stepped back counts in the interval that is open. */
    method AddCensus(rows: seq<Process>, recv: int, measured: bool) returns (out: seq<UsageRow>)
      requires Valid()
      modifies this
      ensures Valid() && open.Some?
      ensures var closes := old(open).Some? && Floor(recv) > old(open).value.start;
              && open.value.start == (if closes || old(open).None? then Floor(recv) else old(open).value.start)
              && censuses == (if closes then [] else old(censuses)) + [Sightings(rows, measured)]
              && flags == (if closes then [] else old(flags)) + [measured]
              && (if closes then RowsOf(out, old(open).value, expected) else out == [])
    {
      assert Opens(Whole, Whole);
      var start := Floor(recv);
      out := [];
      if open.Some? && start > open.value.start {
        out := Flush();
      }
      if open.None? {
        open := Some(NewInterval(start));
        NewIntervalIs(start);
      }
      Fold(rows, measured);
    }

    /** `_Interval.add` on the open interval. */
    method Fold(rows: seq<Process>, measured: bool)
      requires open.Some? && Flagged(censuses, flags) && open.value == IntervalOf(open.value.start, censuses, flags)
      modifies this
      ensures IntervalOpen(open, censuses, flags) && open.Some? && open.value.start == old(open).value.start
      ensures censuses == old(censuses) + [Sightings(rows, measured)] && flags == old(flags) + [measured]
    {
      var iv := open.value;
      var c := TallyCensus(rows, measured);
      var folded := FoldEach(iv.users, c.users, NO_TALLY, FOLD);
      open := Some(Grown(iv, Folded(iv.node, c.node), folded, |c.users|, |c.active|, measured));
      FoldAllSnoc(censuses, Sightings(rows, measured));
      FoldUsersIs(censuses, Sightings(rows, measured));
      IntervalGrows(iv.start, censuses, flags, Sightings(rows, measured), measured, Folded(iv.node, c.node), folded,
          censuses + [Sightings(rows, measured)]);
      FlaggedSnoc(censuses, flags, rows, measured);
      censuses, flags := censuses + [Sightings(rows, measured)], flags + [measured];
    }

    /** Closes the interval: one row for each user seen in it, then the node's. */
    method Flush() returns (out: seq<UsageRow>)
      requires Valid()
      modifies this
      ensures Valid() && open == None && censuses == [] && flags == []
      ensures if old(open).None? then out == [] else RowsOf(out, old(open).value, expected)
    {
      if open.None? {
        return [];
      }
      var iv := open.value;
      out := UserRows(iv, expected);
      RowsTold(out, iv, censuses, flags, expected);
      out := out + [NodeRowOf(iv, expected)];
      open, censuses, flags := None, [], [];
    }
  }

  ghost predicate IntervalOpen(open: Option<Interval>, censuses: seq<seq<Sighting>>, flags: seq<bool>) {
    && (open.None? <==> censuses == []) && |flags| == |censuses|
    && (open.Some? ==> open.value.samples == |censuses|)
    && forall k :: Opens(k, Whole) ==>
         && Flagged(censuses, flags)
         && (open.Some? ==> open.value == IntervalOf(open.value.start, censuses, flags))
  }

  function NewInterval(start: int): Interval { Interval(start, 0, 0, NO_TALLY, map[], 0, 0, 0) }

  lemma {:induction false} NewIntervalIs(start: int)
    ensures NewInterval(start) == IntervalOf(start, [], [])
  {
    assert UserTallies([]) == map[];
    assert UserCounts([]) == [] && ActiveCounts([]) == [];
  }

  function Grown(iv: Interval, node: Tally, users: map<string, Tally>, seen: nat, active: nat,
        measured: bool): Interval {
    Interval(iv.start, iv.samples + 1, iv.gpuSamples + (if measured then 1 else 0), node, users,
             iv.userSum + seen, Max(iv.userMax, seen), iv.activeSum + active)
  }

  lemma {:induction false} IntervalGrows(start: int, censuses: seq<seq<Sighting>>, flags: seq<bool>,
        xs: seq<Sighting>, measured: bool, node: Tally, users: map<string, Tally>, all: seq<seq<Sighting>>)
    requires all == censuses + [xs] && node == FoldAll(all) && users == UserTallies(all)
    ensures IntervalOf(start, all, flags + [measured]) ==
            Grown(IntervalOf(start, censuses, flags), node, users, |CensusUsers(xs)|, |ActiveUsers(xs)|, measured)
  {
    CountsSnoc(censuses, xs);
    CensusSize(xs);
    TruesSnoc(flags, measured);
    FromGrows(start, |censuses|, CountTrue(flags), FoldAll(censuses), UserTallies(censuses), UserCounts(censuses),
              ActiveCounts(censuses), node, users, |UsersOf(xs)|, |ActiveUsers(xs)|, measured);
  }

  lemma {:induction false} CensusSize(xs: seq<Sighting>)
    ensures |CensusUsers(xs)| == |UsersOf(xs)|
  {
    assert CensusUsers(xs).Keys == UsersOf(xs);
  }

  lemma {:induction false} TruesSnoc(flags: seq<bool>, flag: bool)
    ensures CountTrue(flags + [flag]) == CountTrue(flags) + (if flag then 1 else 0)
  {
    assert (flags + [flag])[..|flags|] == flags;
  }

  lemma {:induction false} FromGrows(start: int, n: nat, trues: nat, node0: Tally, users0: map<string, Tally>,
        seen: seq<nat>, active: seq<nat>, node: Tally, users: map<string, Tally>, a: nat, b: nat, measured: bool)
    ensures IntervalFrom(start, n + 1, trues + (if measured then 1 else 0), node, users, seen + [a], active + [b])
            == Grown(IntervalFrom(start, n, trues, node0, users0, seen, active), node, users, a, b, measured)
  {
    SizesSnoc(seen, a);
    SizesSnoc(active, b);
  }

  lemma {:induction false} FlaggedSnoc(censuses: seq<seq<Sighting>>, flags: seq<bool>, rows: seq<Process>,
        measured: bool)
    requires Flagged(censuses, flags)
    ensures Flagged(censuses + [Sightings(rows, measured)], flags + [measured])
  {
    SightingsFlagged(rows, measured);
  }

  function NodeRowOf(iv: Interval, expected: int): UsageRow
    requires iv.samples > 0
  {
    NodeRow(Row(iv.node, iv.start, iv.samples, iv.gpuSamples, expected, false),
            Ratio(iv.userSum, iv.samples), iv.userMax, Ratio(iv.activeSum, iv.samples))
  }

  function UserRowOf(iv: Interval, expected: int, u: string): UsageRow
    requires iv.samples > 0 && u in iv.users
  {
    UserRow(u, Row(iv.users[u], iv.start, iv.samples, iv.gpuSamples, expected, true))
  }

  /** The rows come in no particular order here; the source sorts them by name. */
  method UserRows(iv: Interval, expected: int) returns (out: seq<UsageRow>)
    requires iv.samples > 0
    ensures UserRowsOf(out, iv, expected, iv.users.Keys)
  {
    out := [];
    var todo := iv.users.Keys;
    while todo != {}
      invariant todo <= iv.users.Keys && UserRowsOf(out, iv, expected, iv.users.Keys - todo)
      decreases |todo|
    {
      var u :| u in todo;
      UserRowAdded(out, iv, expected, iv.users.Keys - todo, u);
      out := out + [UserRowOf(iv, expected, u)];
      todo := todo - {u};
      assert iv.users.Keys - todo == iv.users.Keys - (todo + {u}) + {u};
    }
  }

  /** One row for each of the users, and no user twice. */
  ghost predicate UserRowsOf(out: seq<UsageRow>, iv: Interval, expected: int, users: set<string>) {
    && iv.samples > 0 && users <= iv.users.Keys
    && (forall i :: 0 <= i < |out| ==>
          out[i].UserRow? && out[i].username in users && out[i] == UserRowOf(iv, expected, out[i].username))
    && (forall i, j :: 0 <= i < j < |out| ==> out[i] != out[j])
    && (forall u :: u in users ==> UserRowOf(iv, expected, u) in out)
  }

  lemma {:induction false} UserRowAdded(out: seq<UsageRow>, iv: Interval, expected: int, users: set<string>, u: string)
    requires UserRowsOf(out, iv, expected, users) && u in iv.users && u !in users
    ensures UserRowsOf(out + [UserRowOf(iv, expected, u)], iv, expected, users + {u})
  {
  }

  // --- the rows of an interval -----------------------------------------------------------------

  /** What adds up over rows: average processes, RSS, GPU memory and threads, CPU seconds and
      processes whose CPU was not measured. */
  datatype Totals = Totals(processes: real, cpu: real, rss: real, gpu: real, threads: real, unmeasured: int)

  function TotalsOf(s: Summary): Totals {
    Totals(s.processAvg, s.cpu, s.rssAvg, if s.gpuAvg.Some? then s.gpuAvg.value else 0.0, s.threadsAvg, s.unmeasured)
  }

  function AddTotals(a: Totals, b: Totals): Totals {
    Totals(a.processes + b.processes, a.cpu + b.cpu, a.rss + b.rss, a.gpu + b.gpu, a.threads + b.threads,
           a.unmeasured + b.unmeasured)
  }

  function SumTotals(rows: seq<UsageRow>): Totals {
    if rows == [] then Totals(0.0, 0.0, 0.0, 0.0, 0.0, 0)
    else AddTotals(SumTotals(rows[..|rows| - 1]), TotalsOf(rows[|rows| - 1].summary))
  }

  /** The same, of the sums a row is made from. */
  function TotalsFrom(s: Share, samples: nat, gpuSamples: nat): Totals
    requires samples > 0
  {
    Totals(Ratio(s.amount.count, samples), s.amount.cpu, Ratio(s.amount.rss, samples),
           if gpuSamples > 0 then Ratio(s.gpu, gpuSamples) else 0.0, Ratio(s.threads, samples), s.unmeasured)
  }

  lemma {:induction false} RatioAdds(a: int, b: int, n: nat)
    requires n > 0
    ensures Ratio(a + b, n) == Ratio(a, n) + Ratio(b, n)
  {
  }

  lemma {:induction false} TotalsAddUp(a: Share, b: Share, samples: nat, gpuSamples: nat)
    requires samples > 0
    ensures TotalsFrom(Add(a, b), samples, gpuSamples)
            == AddTotals(TotalsFrom(a, samples, gpuSamples), TotalsFrom(b, samples, gpuSamples))
  {
    RatioAdds(a.amount.count, b.amount.count, samples);
    RatioAdds(a.amount.rss, b.amount.rss, samples);
    RatioAdds(a.threads, b.threads, samples);
    if gpuSamples > 0 {
      RatioAdds(a.gpu, b.gpu, gpuSamples);
    }
  }

  lemma {:induction false} RowTotals(t: Tally, start: int, samples: nat, gpuSamples: nat, expected: int, isUser: bool)
    requires samples > 0
    ensures TotalsOf(Row(t, start, samples, gpuSamples, expected, isUser)) == TotalsFrom(t.sum, samples, gpuSamples)
  {
  }

  lemma {:induction false} SumsRemove(users: map<string, Tally>, some: set<string>, u: string)
    requires u in users && u in some
    ensures SumShares(SumsOf(users, some)) == Add(SumShares(SumsOf(users, some - {u})), users[u].sum)
  {
    var m, rest := SumsOf(users, some), SumsOf(users, some - {u});
    SumRemove(m, u);
    assert m - {u} == rest;
    AddAssociates(SumShares(rest), users[u].sum, NO_SHARE);
  }

  /** Rows of some of an interval's users add up to what those users' sums give. */
  lemma {:induction false} UserRowsTotal(out: seq<UsageRow>, iv: Interval, expected: int, some: set<string>)
    requires UserRowsOf(out, iv, expected, some)
    ensures SumTotals(out) == TotalsFrom(SumShares(SumsOf(iv.users, some)), iv.samples, iv.gpuSamples)
  {
    if out == [] {
      assert SumsOf(iv.users, some) == map[];
      NoTotals(iv.samples, iv.gpuSamples);
    } else {
      var init, last := out[..|out| - 1], out[|out| - 1].username;
      LastUser(out, iv, expected, some);
      UserRowsTotal(init, iv, expected, some - {last});
      SumsRemove(iv.users, some, last);
      RowTotals(iv.users[last], iv.start, iv.samples, iv.gpuSamples, expected, true);
      TotalsAddUp(SumShares(SumsOf(iv.users, some - {last})), iv.users[last].sum, iv.samples, iv.gpuSamples);
    }
  }

  lemma {:induction false} NoTotals(samples: nat, gpuSamples: nat)
    requires samples > 0
    ensures TotalsFrom(NO_SHARE, samples, gpuSamples) == SumTotals([])
  {
  }

  lemma {:induction false} LastUser(out: seq<UsageRow>, iv: Interval, expected: int, users: set<string>)
    requires UserRowsOf(out, iv, expected, users) && out != []
    ensures UserRowsOf(out[..|out| - 1], iv, expected, users - {out[|out| - 1].username})
  {
    var n := |out| - 1;
    forall u | u in users - {out[n].username} ensures UserRowOf(iv, expected, u) in out[..n] {
      assert UserRowOf(iv, expected, u) in out;
      assert UserRowOf(iv, expected, u) != out[n];
    }
  }

  /** Averages do not exceed maxima, and the GPU columns come together. */
  ghost predicate Proper(r: Summary) {
    && r.processAvg <= r.processMax as real && r.rssAvg <= r.rssMax as real
    && (r.gpuAvg.Some? <==> r.gpuMax.Some?) && (r.gpuAvg.Some? ==> r.gpuAvg.value <= r.gpuMax.value as real)
  }

  // Cells of the maps, absent ones being zero.

  type Cell = Summary -> Average

  const NO_AVERAGE := Average(0.0, 0.0, 0.0)

  function AverageAt(t: map<string, Average>, k: string): Average { if k in t then t[k] else NO_AVERAGE }

  function ActivityCell(k: string): Cell { (s: Summary) => AverageAt(s.byActivity, k) }

  function BothCell(c: string, d: string): Cell {
    (s: Summary) => if c in s.byBoth then AverageAt(s.byBoth[c], d) else NO_AVERAGE
  }

  function AddAverage(a: Average, b: Average): Average { Average(a.count + b.count, a.cpu + b.cpu, a.rss + b.rss) }

  function SumCells(rows: seq<UsageRow>, cell: Cell): Average {
    if rows == [] then NO_AVERAGE else AddAverage(SumCells(rows[..|rows| - 1], cell), cell(rows[|rows| - 1].summary))
  }

  function AverageFrom(a: Amount, samples: nat): Average
    requires samples > 0
  {
    Average(Ratio(a.count, samples), a.cpu, Ratio(a.rss, samples))
  }

  lemma {:induction false} AveragesAdd(a: Amount, b: Amount, samples: nat)
    requires samples > 0
    ensures AverageFrom(Plus(a, b), samples) == AddAverage(AverageFrom(a, samples), AverageFrom(b, samples))
    ensures AverageFrom(NO_AMOUNT, samples) == NO_AVERAGE
  {
    RatioAdds(a.count, b.count, samples);
    RatioAdds(a.rss, b.rss, samples);
  }

  lemma {:induction false} SumOfRemove(t: Table, k: string)
    requires k in t
    ensures SumOf(t) == Plus(SumOf(t - {k}), t[k])
  {
    SumRemove(Lifted(t), k);
    assert Lifted(t) - {k} == Lifted(t - {k});
    PlusAssociates(t[k], SumOf(t - {k}), NO_AMOUNT);
  }

  /** One cell of the rows of some users adds up to what those users' amounts give. */
  lemma {:induction false} UserCells(out: seq<UsageRow>, iv: Interval, expected: int, amounts: Table, cell: Cell)
    requires UserRowsOf(out, iv, expected, amounts.Keys)
    requires forall u :: u in amounts ==>
               cell(UserRowOf(iv, expected, u).summary) == AverageFrom(amounts[u], iv.samples)
    ensures SumCells(out, cell) == AverageFrom(SumOf(amounts), iv.samples)
  {
    if out == [] {
      assert amounts == map[];
      assert Lifted(amounts) == map[];
      AveragesAdd(NO_AMOUNT, NO_AMOUNT, iv.samples);
    } else {
      var init, last := out[..|out| - 1], out[|out| - 1].username;
      LastUser(out, iv, expected, amounts.Keys);
      assert (amounts - {last}).Keys == amounts.Keys - {last};
      UserCells(init, iv, expected, amounts - {last}, cell);
      SumOfRemove(amounts, last);
      AveragesAdd(SumOf(amounts - {last}), amounts[last], iv.samples);
    }
  }

  lemma {:induction false} ActivityFrom(t: Tally, start: int, samples: nat, gpuSamples: nat, expected: int,
        isUser: bool, k: string)
    requires samples > 0
    ensures ActivityCell(k)(Row(t, start, samples, gpuSamples, expected, isUser))
            == AverageFrom(At(t.byActivity, k), samples)
  {
    AveragesAdd(NO_AMOUNT, NO_AMOUNT, samples);
  }

  lemma {:induction false} BothFrom(t: Tally, start: int, samples: nat, gpuSamples: nat, expected: int, isUser: bool,
        c: string, d: string)
    requires samples > 0
    ensures BothCell(c, d)(Row(t, start, samples, gpuSamples, expected, isUser))
            == AverageFrom(At(Sub(t.byBoth, c), d), samples)
  {
    AveragesAdd(NO_AMOUNT, NO_AMOUNT, samples);
  }

  lemma {:induction false} ActivityRows(out: seq<UsageRow>, iv: Interval, censuses: seq<seq<Sighting>>,
        flags: seq<bool>, expected: int, k: string)
    requires iv == IntervalOf(iv.start, censuses, flags) && iv.samples > 0
    requires UserRowsOf(out, iv, expected, iv.users.Keys)
    ensures SumCells(out, ActivityCell(k)) == ActivityCell(k)(NodeRowOf(iv, expected).summary)
  {
    var amounts: Table := map u | u in iv.users :: At(iv.users[u].byActivity, k);
    assert amounts.Keys == iv.users.Keys;
    forall u | u in amounts
      ensures ActivityCell(k)(UserRowOf(iv, expected, u).summary) == AverageFrom(amounts[u], iv.samples)
    {
      ActivityFrom(iv.users[u], iv.start, iv.samples, iv.gpuSamples, expected, true, k);
    }
    UserCells(out, iv, expected, amounts, ActivityCell(k));
    ActivityAdds(censuses, k);
    ActivityFrom(iv.node, iv.start, iv.samples, iv.gpuSamples, expected, false, k);
  }

  lemma {:induction false} BothRows(out: seq<UsageRow>, iv: Interval, censuses: seq<seq<Sighting>>, flags: seq<bool>,
        expected: int, c: string, d: string)
    requires iv == IntervalOf(iv.start, censuses, flags) && iv.samples > 0
    requires UserRowsOf(out, iv, expected, iv.users.Keys)
    ensures SumCells(out, BothCell(c, d)) == BothCell(c, d)(NodeRowOf(iv, expected).summary)
  {
    var amounts: Table := map u | u in iv.users :: At(Sub(iv.users[u].byBoth, c), d);
    assert amounts.Keys == iv.users.Keys;
    forall u | u in amounts
      ensures BothCell(c, d)(UserRowOf(iv, expected, u).summary) == AverageFrom(amounts[u], iv.samples)
    {
      BothFrom(iv.users[u], iv.start, iv.samples, iv.gpuSamples, expected, true, c, d);
    }
    UserCells(out, iv, expected, amounts, BothCell(c, d));
    BothAdds(censuses, c, d);
    BothFrom(iv.node, iv.start, iv.samples, iv.gpuSamples, expected, false, c, d);
  }

  /** The last row is the node's; the users' add up to it, totals and cells, and every row is
      proper. */
  ghost predicate AddUp(out: seq<UsageRow>)
    requires out != []
  {
    var users, node := out[..|out| - 1], out[|out| - 1].summary;
    SumTotals(users) == TotalsOf(node) && CellsAddUp(users, node) && AllProper(out)
  }

  ghost predicate CellsAddUp(users: seq<UsageRow>, node: Summary) {
    && (forall k :: SumCells(users, ActivityCell(k)) == ActivityCell(k)(node))
    && (forall c, d :: SumCells(users, BothCell(c, d)) == BothCell(c, d)(node))
  }

  ghost predicate AllProper(out: seq<UsageRow>) {
    forall i :: 0 <= i < |out| ==> Proper(out[i].summary)
  }

  lemma {:induction false} CellsTold(out: seq<UsageRow>, iv: Interval, censuses: seq<seq<Sighting>>, flags: seq<bool>,
        expected: int)
    requires iv == IntervalOf(iv.start, censuses, flags) && iv.samples > 0
    requires UserRowsOf(out, iv, expected, iv.users.Keys)
    ensures CellsAddUp(out, NodeRowOf(iv, expected).summary)
  {
    forall k ensures SumCells(out, ActivityCell(k)) == ActivityCell(k)(NodeRowOf(iv, expected).summary) {
      ActivityRows(out, iv, censuses, flags, expected, k);
    }
    forall c, d ensures SumCells(out, BothCell(c, d)) == BothCell(c, d)(NodeRowOf(iv, expected).summary) {
      BothRows(out, iv, censuses, flags, expected, c, d);
    }
  }

  lemma {:induction false} ProperTold(out: seq<UsageRow>, iv: Interval, censuses: seq<seq<Sighting>>, flags: seq<bool>,
        expected: int)
    requires iv == IntervalOf(iv.start, censuses, flags) && Flagged(censuses, flags) && censuses != []
    requires UserRowsOf(out, iv, expected, iv.users.Keys)
    ensures AllProper(out + [NodeRowOf(iv, expected)])
  {
    var all := out + [NodeRowOf(iv, expected)];
    NodeProper(iv, censuses, flags, expected);
    forall i | 0 <= i < |all| ensures Proper(all[i].summary) {
      if i < |out| {
        UserProper(iv, censuses, flags, expected, out[i].username);
      }
    }
  }

  lemma {:induction false} OfFlagged(xs: seq<Sighting>, u: string, flag: bool)
    requires forall j :: 0 <= j < |xs| ==> xs[j].gpuMeasured == flag
    ensures forall j :: 0 <= j < |Of(xs, u)| ==> Of(xs, u)[j].gpuMeasured == flag
  {
    if xs != [] {
      OfFlagged(xs[..|xs| - 1], u, flag);
    }
  }

  lemma {:induction false} EachFlagged(censuses: seq<seq<Sighting>>, flags: seq<bool>, u: string)
    requires Flagged(censuses, flags)
    ensures Flagged(OfEach(censuses, u), flags)
  {
    forall i | 0 <= i < |flags| ensures forall j :: 0 <= j < |Of(censuses[i], u)| ==>
        Of(censuses[i], u)[j].gpuMeasured == flags[i] {
      OfFlagged(censuses[i], u, flags[i]);
    }
  }

  lemma {:induction false} UserProper(iv: Interval, censuses: seq<seq<Sighting>>, flags: seq<bool>, expected: int,
        u: string)
    requires iv == IntervalOf(iv.start, censuses, flags) && Flagged(censuses, flags) && censuses != [] && u in iv.users
    ensures Proper(UserRowOf(iv, expected, u).summary)
  {
    EachFlagged(censuses, flags, u);
    AveragesWithinMaxima(OfEach(censuses, u), flags, iv.start, expected, true);
  }

  lemma {:induction false} NodeProper(iv: Interval, censuses: seq<seq<Sighting>>, flags: seq<bool>, expected: int)
    requires iv == IntervalOf(iv.start, censuses, flags) && Flagged(censuses, flags) && censuses != []
    ensures Proper(NodeRowOf(iv, expected).summary)
  {
    AveragesWithinMaxima(censuses, flags, iv.start, expected, false);
  }

  lemma {:induction false} NodeTotals(iv: Interval, censuses: seq<seq<Sighting>>, flags: seq<bool>, expected: int)
    requires iv == IntervalOf(iv.start, censuses, flags) && censuses != []
    ensures TotalsOf(NodeRowOf(iv, expected).summary)
            == TotalsFrom(SumShares(SumsOf(iv.users, iv.users.Keys)), iv.samples, iv.gpuSamples)
  {
    TotalsAdd(censuses);
    RowTotals(iv.node, iv.start, iv.samples, iv.gpuSamples, expected, false);
  }

  /** The rows of an interval add up and are proper. */
  lemma {:induction false} RowsTold(out: seq<UsageRow>, iv: Interval, censuses: seq<seq<Sighting>>, flags: seq<bool>,
        expected: int)
    requires IntervalOpen(Some(iv), censuses, flags) && iv.samples > 0 && UserRowsOf(out, iv, expected, iv.users.Keys)
    ensures RowsOf(out + [NodeRowOf(iv, expected)], iv, expected)
  {
    assert Opens(Whole, Whole);
    var all := out + [NodeRowOf(iv, expected)];
    assert all[..|all| - 1] == out;
    UserRowsTotal(out, iv, expected, iv.users.Keys);
    NodeTotals(iv, censuses, flags, expected);
    CellsTold(out, iv, censuses, flags, expected);
    ProperTold(out, iv, censuses, flags, expected);
  }

  /** The rows of an interval: one for each user, then the node's, to which they add up. */
  ghost predicate RowsOf(out: seq<UsageRow>, iv: Interval, expected: int) {
    && out != [] && out[|out| - 1].summary.start == iv.start
    && forall k :: Opens(k, Listing) ==>
         && UserRowsOf(out[..|out| - 1], iv, expected, iv.users.Keys) && out[|out| - 1] == NodeRowOf(iv, expected)
         && AddUp(out)
  }
}
