/**
  Five-minute usage summaries: per-census tallies of user processes folded into a node's and
  each user's totals (node_monitor/pipeline/usage.py).
 */
module Usage {
  import opened Upsert

  datatype Process = Process(
    isUser: bool, username: string,
    cpu: Option<real>, rss: int, gpu: Option<int>, threads: int,
    state: string, interactive: bool,
    cpuState: string, idleBucket: string, ownerPresence: string,
    category: string, activity: string)

  /** A user process in a census, and whether the census measured the GPUs. */
  datatype Sighting = Sighting(p: Process, gpuMeasured: bool)

  // --- what adds up ---------------------------------------------------------------------

  /** A cell of a by_... map. */
  datatype Amount = Amount(count: int, cpu: real, rss: int)

  const NO_AMOUNT := Amount(0, 0.0, 0)

  function Plus(a: Amount, b: Amount): Amount { Amount(a.count + b.count, a.cpu + b.cpu, a.rss + b.rss) }

  function AmountOf(x: Sighting): Amount {
    Amount(1, if x.p.cpu.Some? then x.p.cpu.value else 0.0, x.p.rss)
  }

  /** The totals of a tally apart from its maps. */
  datatype Share = Share(amount: Amount, unmeasured: int, gpu: int, threads: int, d: int, interactive: int)

  const NO_SHARE := Share(NO_AMOUNT, 0, 0, 0, 0, 0)

  function Add(a: Share, b: Share): Share {
    Share(Plus(a.amount, b.amount), a.unmeasured + b.unmeasured, a.gpu + b.gpu, a.threads + b.threads, a.d + b.d,
        a.interactive + b.interactive)
  }

  function ShareOf(x: Sighting): Share {
    Share(AmountOf(x), if x.p.cpu.None? then 1 else 0,
          if x.gpuMeasured && x.p.gpu.Some? then x.p.gpu.value else 0,
          x.p.threads, if x.p.state == "D" then 1 else 0, if x.p.interactive then 1 else 0)
  }

  function Dormancy(p: Process): string { p.cpuState + "|" + p.idleBucket + "|" + p.ownerPresence }

  function Activity(p: Process): string { if p.activity == "" then "unknown" else p.activity }

  // --- tables -----------------------------------------------------------------------------

  type Table = map<string, Amount>
  type Nested = map<string, Table>

  function At(t: Table, k: string): Amount { if k in t then t[k] else NO_AMOUNT }

  function Sub(t: Nested, k: string): Table { if k in t then t[k] else map[] }

  function Bump(t: Table, k: string, c: Amount): Table { t[k := Plus(At(t, k), c)] }

  function BumpIn(t: Nested, k: string, l: string, c: Amount): Nested { t[k := Bump(Sub(t, k), l, c)] }

  function Merged(a: Table, b: Table): Table {
    map k | k in a.Keys + b.Keys :: Plus(At(a, k), At(b, k))
  }

  function MergedIn(a: Nested, b: Nested): Nested {
    map k | k in a.Keys + b.Keys :: Merged(Sub(a, k), Sub(b, k))
  }

  lemma {:induction false} PlusAssociates(a: Amount, b: Amount, c: Amount)
    ensures Plus(Plus(a, b), c) == Plus(a, Plus(b, c)) && Plus(a, NO_AMOUNT) == a && Plus(a, b) == Plus(b, a)
  {
  }

  lemma {:induction false} MergedAt(a: Table, b: Table, k: string)
    ensures At(Merged(a, b), k) == Plus(At(a, k), At(b, k)) && (k in Merged(a, b) <==> k in a || k in b)
  {
  }

  lemma {:induction false} BumpAt(t: Table, k: string, c: Amount, j: string)
    ensures At(Bump(t, k, c), j) == if j == k then Plus(At(t, k), c) else At(t, j)
    ensures j in Bump(t, k, c) <==> j in t || j == k
  {
  }

  lemma {:induction false} MergeBumpAt(a: Table, b: Table, k: string, c: Amount, j: string)
    ensures Get(Bump(Merged(a, b), k, c), j) == Get(Merged(a, Bump(b, k, c)), j)
  {
    BumpAt(Merged(a, b), k, c, j);
    BumpAt(b, k, c, j);
    MergedAt(a, b, j);
    MergedAt(a, Bump(b, k, c), j);
    PlusAssociates(At(a, k), At(b, k), c);
  }

  lemma {:induction false} MergeBump(a: Table, b: Table, k: string, c: Amount)
    ensures Bump(Merged(a, b), k, c) == Merged(a, Bump(b, k, c))
  {
    forall j ensures Get(Bump(Merged(a, b), k, c), j) == Get(Merged(a, Bump(b, k, c)), j) {
      MergeBumpAt(a, b, k, c, j);
    }
    SameRows(Bump(Merged(a, b), k, c), Merged(a, Bump(b, k, c)));
  }

  lemma {:induction false} MergedInAt(a: Nested, b: Nested, j: string)
    ensures Sub(MergedIn(a, b), j) == Merged(Sub(a, j), Sub(b, j))
  {
  }

  lemma {:induction false} BumpInAt(t: Nested, k: string, l: string, c: Amount, j: string)
    ensures Sub(BumpIn(t, k, l, c), j) == if j == k then Bump(Sub(t, k), l, c) else Sub(t, j)
    ensures BumpIn(t, k, l, c).Keys == t.Keys + {k}
  {
  }

  lemma {:induction false} SameNested(x: Nested, y: Nested)
    requires x.Keys == y.Keys && forall j :: Sub(x, j) == Sub(y, j)
    ensures x == y
  {
    forall j | j in x ensures x[j] == y[j] {
      assert Sub(x, j) == Sub(y, j);
    }
  }

  lemma {:induction false} MergeBumpInAt(a: Nested, b: Nested, k: string, l: string, c: Amount, j: string)
    ensures Sub(BumpIn(MergedIn(a, b), k, l, c), j) == Sub(MergedIn(a, BumpIn(b, k, l, c)), j)
  {
    BumpInAt(MergedIn(a, b), k, l, c, j);
    MergedInAt(a, b, j);
    MergedInAt(a, BumpIn(b, k, l, c), j);
    BumpInAt(b, k, l, c, j);
    MergeBump(Sub(a, k), Sub(b, k), l, c);
  }

  lemma {:induction false} MergeBumpIn(a: Nested, b: Nested, k: string, l: string, c: Amount)
    ensures BumpIn(MergedIn(a, b), k, l, c) == MergedIn(a, BumpIn(b, k, l, c))
  {
    var x, y := BumpIn(MergedIn(a, b), k, l, c), MergedIn(a, BumpIn(b, k, l, c));
    BumpInAt(MergedIn(a, b), k, l, c, k);
    BumpInAt(b, k, l, c, k);
    assert x.Keys == y.Keys;
    forall j ensures Sub(x, j) == Sub(y, j) { MergeBumpInAt(a, b, k, l, c, j); }
    SameNested(x, y);
  }

  lemma {:induction false} MergeNothing(a: Table)
    ensures Merged(a, map[]) == a
  {
  }

  lemma {:induction false} MergeNothingIn(a: Nested)
    ensures MergedIn(a, map[]) == a
  {
    forall k | k in a ensures Merged(a[k], map[]) == a[k] { MergeNothing(a[k]); }
  }

  // --- tallies ------------------------------------------------------------------------------

  datatype Tally = Tally(
    sum: Share, nMax: int, rssMax: int, gpuMax: int,
    byCategory: Table, byActivity: Table, byDormancy: Table, byBoth: Nested)

  const NO_TALLY := Tally(NO_SHARE, 0, 0, 0, map[], map[], map[], map[])

  function Max(a: int, b: int): int { if a >= b then a else b }

  /** `_CensusTally.add` */
  function Counted(t: Tally, x: Sighting): Tally {
    Filed(t, ShareOf(x), x.p.category, Activity(x.p), Dormancy(x.p), AmountOf(x))
  }

  function Filed(t: Tally, share: Share, category: string, activity: string, dormancy: string, c: Amount): Tally {
    t.(sum := Add(t.sum, share),
       byCategory := Bump(t.byCategory, category, c),
       byActivity := Bump(t.byActivity, activity, c),
       byDormancy := Bump(t.byDormancy, dormancy, c),
       byBoth := BumpIn(t.byBoth, category, dormancy, c))
  }

  /** One census's tally. */
  function CensusTally(xs: seq<Sighting>): Tally {
    if xs == [] then NO_TALLY else Counted(CensusTally(xs[..|xs| - 1]), xs[|xs| - 1])
  }

  /** `_Tally.fold` */
  function Folded(t: Tally, census: Tally): Tally {
    Tally(Add(t.sum, census.sum),
          Max(t.nMax, census.sum.amount.count), Max(t.rssMax, census.sum.amount.rss), Max(t.gpuMax, census.sum.gpu),
          Merged(t.byCategory, census.byCategory), Merged(t.byActivity, census.byActivity),
          Merged(t.byDormancy, census.byDormancy), MergedIn(t.byBoth, census.byBoth))
  }

  /** The tally of an interval, fold by fold. */
  function FoldAll(censuses: seq<seq<Sighting>>): Tally {
    if censuses == [] then NO_TALLY
    else Folded(FoldAll(censuses[..|censuses| - 1]), CensusTally(censuses[|censuses| - 1]))
  }

  // --- the simple form: one tally over all sightings -----------------------------------------

  function Flat(censuses: seq<seq<Sighting>>): seq<Sighting> {
    if censuses == [] then [] else Flat(censuses[..|censuses| - 1]) + censuses[|censuses| - 1]
  }

  /** Equal but for the maxima. */
  ghost predicate SameTotals(t: Tally, u: Tally) {
    t == u.(nMax := t.nMax, rssMax := t.rssMax, gpuMax := t.gpuMax)
  }

  lemma {:induction false} FoldCounted(t: Tally, c: Tally, x: Sighting)
    ensures SameTotals(Folded(t, Counted(c, x)), Counted(Folded(t, c), x))
  {
    FoldFiled(t, c, ShareOf(x), x.p.category, Activity(x.p), Dormancy(x.p), AmountOf(x));
  }

  lemma {:induction false} FoldFiled(t: Tally, c: Tally, share: Share, category: string, activity: string,
        dormancy: string, a: Amount)
    ensures SameTotals(Folded(t, Filed(c, share, category, activity, dormancy, a)),
                       Filed(Folded(t, c), share, category, activity, dormancy, a))
  {
    MergeBump(t.byCategory, c.byCategory, category, a);
    MergeBump(t.byActivity, c.byActivity, activity, a);
    MergeBump(t.byDormancy, c.byDormancy, dormancy, a);
    MergeBumpIn(t.byBoth, c.byBoth, category, dormancy, a);
    AddAssociates(t.sum, c.sum, share);
  }

  lemma {:induction false} FoldNothing(t: Tally)
    ensures SameTotals(Folded(t, NO_TALLY), t)
  {
    MergeNothing(t.byCategory);
    MergeNothing(t.byActivity);
    MergeNothing(t.byDormancy);
    MergeNothingIn(t.byBoth);
  }

  /** Folding two tallies adds up to tallying everything in one go, maxima aside. */
  lemma {:induction false} FoldedIsTally(t: Tally, xs: seq<Sighting>, ys: seq<Sighting>)
    requires SameTotals(t, CensusTally(xs))
    ensures SameTotals(Folded(t, CensusTally(ys)), CensusTally(xs + ys))
  {
    if ys == [] {
      assert xs + ys == xs;
      FoldNothing(t);
    } else {
      var init, y := ys[..|ys| - 1], ys[|ys| - 1];
      FoldedIsTally(t, xs, init);
      assert xs + ys == (xs + init) + [y] && ys == init + [y];
      TallySnoc(xs + init, y);
      TallySnoc(init, y);
      FoldedMore(t, CensusTally(init), CensusTally(xs + init), y);
    }
  }

  lemma {:induction false} TallySnoc(xs: seq<Sighting>, x: Sighting)
    ensures CensusTally(xs + [x]) == Counted(CensusTally(xs), x)
  {
    assert (xs + [x])[..|xs|] == xs;
  }

  lemma {:induction false} FoldedMore(t: Tally, c: Tally, u: Tally, x: Sighting)
    requires SameTotals(Folded(t, c), u)
    ensures SameTotals(Folded(t, Counted(c, x)), Counted(u, x))
  {
    FoldCounted(t, c, x);
  }

  /** The folded interval equals a tally over all its sightings. */
  lemma {:induction false} IntervalIsTally(censuses: seq<seq<Sighting>>)
    ensures SameTotals(FoldAll(censuses), CensusTally(Flat(censuses)))
  {
    if censuses != [] {
      var n := |censuses| - 1;
      IntervalIsTally(censuses[..n]);
      FoldedIsTally(FoldAll(censuses[..n]), Flat(censuses[..n]), censuses[n]);
    }
  }

  // --- what a tally says about its sightings -----------------------------------------------------

  /** What the sightings that satisfy `keep` add up to. */
  function Total(xs: seq<Sighting>, keep: Sighting -> bool): Share {
    if xs == [] then NO_SHARE
    else
      var x := xs[|xs| - 1];
      Add(Total(xs[..|xs| - 1], keep), Part(x, keep))
  }

  ghost predicate Some1(xs: seq<Sighting>, keep: Sighting -> bool) {
    exists i :: 0 <= i < |xs| && keep(xs[i])
  }

  lemma {:induction false} Some1Snoc(xs: seq<Sighting>, keep: Sighting -> bool)
    requires xs != []
    ensures Some1(xs, keep) <==> Some1(xs[..|xs| - 1], keep) || keep(xs[|xs| - 1])
  {
    var n := |xs| - 1;
    if Some1(xs, keep) && !keep(xs[n]) {
      var i :| 0 <= i < |xs| && keep(xs[i]);
      assert xs[..n][i] == xs[i];
    }
    if Some1(xs[..n], keep) {
      var i :| 0 <= i < n && keep(xs[..n][i]);
      assert xs[i] == xs[..n][i];
    }
  }

  function Under(key: Sighting -> string, k: string): Sighting -> bool { x => key(x) == k }

  /** A cell of each map is exactly the sightings under its key, and it exists if there is one. */
  ghost predicate Accounts(t: Table, xs: seq<Sighting>, key: Sighting -> string) {
    forall k :: AccountsFor(t, xs, key, k)
  }

  ghost predicate AccountsFor(t: Table, xs: seq<Sighting>, key: Sighting -> string, k: string) {
    (k in t <==> Some1(xs, Under(key, k))) && At(t, k) == Total(xs, Under(key, k)).amount
  }

  lemma {:induction false} TotalSnoc(xs: seq<Sighting>, keep: Sighting -> bool)
    requires xs != []
    ensures var x := xs[|xs| - 1];
            Total(xs, keep).amount == if keep(x) then Plus(Total(xs[..|xs| - 1], keep).amount, AmountOf(x))
                else Total(xs[..|xs| - 1], keep).amount
  {
  }

  lemma {:induction false} AccountsForSnoc(t: Table, xs: seq<Sighting>, key: Sighting -> string, k: string)
    requires xs != [] && AccountsFor(t, xs[..|xs| - 1], key, k)
    ensures AccountsFor(Bump(t, key(xs[|xs| - 1]), AmountOf(xs[|xs| - 1])), xs, key, k)
  {
    var init, x, keep := xs[..|xs| - 1], xs[|xs| - 1], Under(key, k);
    var u := Bump(t, key(x), AmountOf(x));
    BumpAt(t, key(x), AmountOf(x), k);
    assert keep(x) <==> key(x) == k;
    assert k in u <==> Some1(xs, keep) by { Some1Snoc(xs, keep); }
    assert At(u, k) == Total(xs, keep).amount by { TotalSnoc(xs, keep); }
  }

  lemma {:induction false} AccountsSnoc(t: Table, xs: seq<Sighting>, key: Sighting -> string)
    requires xs != [] && Accounts(t, xs[..|xs| - 1], key)
    ensures Accounts(Bump(t, key(xs[|xs| - 1]), AmountOf(xs[|xs| - 1])), xs, key)
  {
    var u := Bump(t, key(xs[|xs| - 1]), AmountOf(xs[|xs| - 1]));
    forall k ensures AccountsFor(u, xs, key, k) {
      AccountsForSnoc(t, xs, key, k);
    }
  }

  const CATEGORY: Sighting -> string := (x: Sighting) => x.p.category
  const ACTIVITY: Sighting -> string := (x: Sighting) => Activity(x.p)
  const DORMANCY: Sighting -> string := (x: Sighting) => Dormancy(x.p)

  lemma {:induction false} TallyAccounts(xs: seq<Sighting>)
    ensures var t := CensusTally(xs);
            && t.sum == Total(xs, ALWAYS)
            && Accounts(t.byCategory, xs, CATEGORY) && Accounts(t.byActivity, xs, ACTIVITY)
                && Accounts(t.byDormancy, xs, DORMANCY)
  {
    if xs != [] {
      var n := |xs| - 1;
      var t := CensusTally(xs[..n]);
      TallyAccounts(xs[..n]);
      AccountsSnoc(t.byCategory, xs, CATEGORY);
      AccountsSnoc(t.byActivity, xs, ACTIVITY);
      AccountsSnoc(t.byDormancy, xs, DORMANCY);
    }
  }

  // --- sums over maps -----------------------------------------------------------------------------

  type Shares = map<string, Share>

  function ShareAt(m: Shares, k: string): Share { if k in m then m[k] else NO_SHARE }

  ghost function SumShares(m: Shares): Share {
    if m == map[] then NO_SHARE else var k :| k in m; Add(m[k], SumShares(m - {k}))
  }

  lemma {:induction false} AddAssociates(a: Share, b: Share, c: Share)
    ensures Add(Add(a, b), c) == Add(a, Add(b, c)) && Add(a, b) == Add(b, a) && Add(a, NO_SHARE) == a
  {
  }

  lemma {:induction false} SumRemove(m: Shares, k: string)
    requires k in m
    ensures SumShares(m) == Add(m[k], SumShares(m - {k}))
    decreases |m|
  {
    var j :| j in m && SumShares(m) == Add(m[j], SumShares(m - {j}));
    if j != k {
      SumRemove(m - {j}, k);
      SumRemove(m - {k}, j);
      assert m - {j} - {k} == m - {k} - {j};
      var rest := SumShares(m - {j} - {k});
      AddAssociates(m[j], m[k], rest);
      AddAssociates(m[k], m[j], rest);
    }
  }

  /** Adding to one entry adds to the sum. */
  lemma {:induction false} SumAdded(m: Shares, k: string, x: Share)
    ensures SumShares(m[k := Add(ShareAt(m, k), x)]) == Add(SumShares(m), x)
  {
    var n := m[k := Add(ShareAt(m, k), x)];
    SumRemove(n, k);
    if k in m {
      SumRemove(m, k);
      assert n - {k} == m - {k};
      AddAssociates(m[k], x, SumShares(m - {k}));
      AddAssociates(m[k], SumShares(m - {k}), x);
      AddAssociates(x, SumShares(m - {k}), NO_SHARE);
    } else {
      assert n - {k} == m;
      AddAssociates(x, SumShares(m), NO_SHARE);
    }
  }

  /** The sum of a table's cells. */
  ghost function SumOf(t: Table): Amount { SumShares(Lifted(t)).amount }

  function Lift(c: Amount): Share { NO_SHARE.(amount := c) }

  function Lifted(t: Table): Shares { map k | k in t :: Lift(t[k]) }

  lemma {:induction false} SumBump(t: Table, k: string, c: Amount)
    ensures SumOf(Bump(t, k, c)) == Plus(SumOf(t), c)
  {
    SumAdded(Lifted(t), k, Lift(c));
    assert Lifted(Bump(t, k, c)) == Lifted(t)[k := Add(ShareAt(Lifted(t), k), Lift(c))];
  }

  // --- marginals ------------------------------------------------------------------------------------

  /** The cells of one dormancy, by category. */
  function Column(n: Nested, d: string): Table { map c | c in n && d in n[c] :: n[c][d] }

  /** by_category and by_dormancy are the marginals of by_category_dormancy. */
  ghost predicate Marginals(t: Tally) {
    && t.byBoth.Keys == t.byCategory.Keys
    && (forall c :: RowAdds(t, c)) && (forall d :: ColumnAdds(t, d))
  }

  ghost predicate RowAdds(t: Tally, c: string) { SumOf(Sub(t.byBoth, c)) == At(t.byCategory, c) }

  ghost predicate ColumnAdds(t: Tally, d: string) { SumOf(Column(t.byBoth, d)) == At(t.byDormancy, d) }

  lemma {:induction false} ColumnBump(n: Nested, c: string, d: string, x: Amount, e: string)
    ensures Column(BumpIn(n, c, d, x), e) == if e == d then Bump(Column(n, e), c, x) else Column(n, e)
  {
    var m := BumpIn(n, c, d, x);
    BumpInAt(n, c, d, x, c);
    if e == d {
      assert At(Column(n, e), c) == At(Sub(n, c), d);
    }
  }

  lemma {:induction false} MarginalsCounted(t: Tally, x: Sighting)
    requires Marginals(t)
    ensures Marginals(Counted(t, x))
  {
    var u, c, d, a := Counted(t, x), x.p.category, Dormancy(x.p), AmountOf(x);
    forall k ensures RowAdds(u, k) {
      assert RowAdds(t, k);
      BumpInAt(t.byBoth, c, d, a, k);
      BumpAt(t.byCategory, c, a, k);
      SumBump(Sub(t.byBoth, c), d, a);
    }
    forall k ensures ColumnAdds(u, k) {
      assert ColumnAdds(t, k);
      ColumnBump(t.byBoth, c, d, a, k);
      BumpAt(t.byDormancy, d, a, k);
      SumBump(Column(t.byBoth, k), c, a);
    }
  }

  lemma {:induction false} MarginalsHold(xs: seq<Sighting>)
    ensures Marginals(CensusTally(xs))
  {
    if xs == [] {
      assert forall k :: Column(map[], k) == map[] && Lifted(map[]) == map[];
      forall k ensures RowAdds(NO_TALLY, k) && ColumnAdds(NO_TALLY, k) {
        assert Lifted(Sub(NO_TALLY.byBoth, k)) == map[] && Lifted(Column(NO_TALLY.byBoth, k)) == map[];
      }
    } else {
      MarginalsHold(xs[..|xs| - 1]);
      MarginalsCounted(CensusTally(xs[..|xs| - 1]), xs[|xs| - 1]);
    }
  }

  /** In the row of a node, however its censuses were folded, by_category and by_dormancy are
      the exact marginals of by_category_dormancy. */
  lemma {:induction false} IntervalMarginals(censuses: seq<seq<Sighting>>)
    ensures Marginals(FoldAll(censuses))
  {
    IntervalIsTally(censuses);
    MarginalsHold(Flat(censuses));
    var f, t := FoldAll(censuses), CensusTally(Flat(censuses));
    forall k ensures RowAdds(f, k) && ColumnAdds(f, k) {
      assert RowAdds(t, k) && ColumnAdds(t, k);
    }
  }

  function Both(c: string, d: string): Sighting -> bool { (x: Sighting) => x.p.category == c && Dormancy(x.p) == d }

  lemma {:induction false} BothSnoc(n: Nested, xs: seq<Sighting>, x: Sighting, c: string, d: string, e: string)
    requires At(Sub(n, c), d) == Total(xs, Both(c, d)).amount && e == Dormancy(x.p)
    ensures At(Sub(BumpIn(n, x.p.category, e, AmountOf(x)), c), d) == Total(xs + [x], Both(c, d)).amount
  {
    var keep := Both(c, d);
    BumpInAt(n, x.p.category, e, AmountOf(x), c);
    BumpAt(Sub(n, x.p.category), e, AmountOf(x), d);
    var u := BumpIn(n, x.p.category, e, AmountOf(x));
    if x.p.category == c && e == d {
      assert keep(x) && At(Sub(u, c), d) == Plus(At(Sub(n, c), d), AmountOf(x));
      TotalOne(xs, x, keep);
    } else {
      assert !keep(x) && At(Sub(u, c), d) == At(Sub(n, c), d);
      TotalOne(xs, x, keep);
    }
  }

  lemma {:induction false} BothAccounts(xs: seq<Sighting>, c: string, d: string)
    ensures At(Sub(CensusTally(xs).byBoth, c), d) == Total(xs, Both(c, d)).amount
  {
    if xs != [] {
      var init, x := xs[..|xs| - 1], xs[|xs| - 1];
      assert xs == init + [x];
      BothAccounts(init, c, d);
      BothSnoc(CensusTally(init).byBoth, init, x, c, d, Dormancy(x.p));
    }
  }

  // --- users --------------------------------------------------------------------------------------

  function Of(xs: seq<Sighting>, user: string): seq<Sighting> {
    if xs == [] then []
    else Of(xs[..|xs| - 1], user) + if xs[|xs| - 1].p.username == user then [xs[|xs| - 1]] else []
  }

  function UsersOf(xs: seq<Sighting>): set<string> {
    if xs == [] then {} else UsersOf(xs[..|xs| - 1]) + {xs[|xs| - 1].p.username}
  }

  function OfEach(censuses: seq<seq<Sighting>>, user: string): seq<seq<Sighting>> {
    seq(|censuses|, i requires 0 <= i < |censuses| => Of(censuses[i], user))
  }

  lemma {:induction false} OfAppend(xs: seq<Sighting>, ys: seq<Sighting>, user: string)
    ensures Of(xs + ys, user) == Of(xs, user) + Of(ys, user)
  {
    if ys == [] {
      assert xs + ys == xs;
    } else {
      assert (xs + ys)[..|xs + ys| - 1] == xs + ys[..|ys| - 1];
      OfAppend(xs, ys[..|ys| - 1], user);
    }
  }

  lemma {:induction false} UsersAppend(xs: seq<Sighting>, ys: seq<Sighting>)
    ensures UsersOf(xs + ys) == UsersOf(xs) + UsersOf(ys)
  {
    if ys == [] {
      assert xs + ys == xs;
    } else {
      assert (xs + ys)[..|xs + ys| - 1] == xs + ys[..|ys| - 1];
      UsersAppend(xs, ys[..|ys| - 1]);
    }
  }

  lemma {:induction false} OfNone(xs: seq<Sighting>, user: string)
    ensures Of(xs, user) == [] <==> user !in UsersOf(xs)
  {
    if xs != [] {
      OfNone(xs[..|xs| - 1], user);
    }
  }

  lemma {:induction false} FlatOf(censuses: seq<seq<Sighting>>, user: string)
    ensures Flat(OfEach(censuses, user)) == Of(Flat(censuses), user)
  {
    if censuses != [] {
      var n := |censuses| - 1;
      FlatOf(censuses[..n], user);
      assert OfEach(censuses, user)[..n] == OfEach(censuses[..n], user);
      OfAppend(Flat(censuses[..n]), censuses[n], user);
    }
  }

  function UserShares(xs: seq<Sighting>, keep: Sighting -> bool): Shares {
    map u | u in UsersOf(xs) :: Total(Of(xs, u), keep)
  }

  lemma {:induction false} UserSharesAt(xs: seq<Sighting>, keep: Sighting -> bool, u: string)
    ensures ShareAt(UserShares(xs, keep), u) == Total(Of(xs, u), keep)
  {
    OfNone(xs, u);
  }

  lemma {:induction false} OfSnoc(xs: seq<Sighting>, x: Sighting, u: string)
    ensures Of(xs + [x], u) == if x.p.username == u then Of(xs, u) + [x] else Of(xs, u)
  {
    assert (xs + [x])[..|xs|] == xs;
  }

  lemma {:induction false} TotalOne(xs: seq<Sighting>, x: Sighting, keep: Sighting -> bool)
    ensures Total(xs + [x], keep) == Add(Total(xs, keep), Part(x, keep))
    ensures !keep(x) ==> Total(xs + [x], keep) == Total(xs, keep)
  {
    assert (xs + [x])[..|xs|] == xs;
  }

  function Part(x: Sighting, keep: Sighting -> bool): Share { if keep(x) then ShareOf(x) else NO_SHARE }

  lemma {:induction false} UserSharesSnoc(xs: seq<Sighting>, x: Sighting, keep: Sighting -> bool)
    ensures var m, v := UserShares(xs, keep), x.p.username;
            UserShares(xs + [x], keep) == m[v := Add(ShareAt(m, v), Part(x, keep))]
  {
    var m, v, more := UserShares(xs, keep), x.p.username, UserShares(xs + [x], keep);
    var n := m[v := Add(ShareAt(m, v), Part(x, keep))];
    assert more.Keys == n.Keys by { assert (xs + [x])[..|xs|] == xs; }
    forall u | u in more ensures more[u] == n[u] { UserShareOne(xs, x, keep, u); }
  }

  lemma {:induction false} UserShareOne(xs: seq<Sighting>, x: Sighting, keep: Sighting -> bool, u: string)
    ensures Total(Of(xs + [x], u), keep) ==
            if u == x.p.username then Add(ShareAt(UserShares(xs, keep), u), Part(x, keep))
                else ShareAt(UserShares(xs, keep), u)
  {
    var mine := Of(xs, u);
    assert ShareAt(UserShares(xs, keep), u) == Total(mine, keep) by { UserSharesAt(xs, keep, u); }
    if u == x.p.username {
      assert Of(xs + [x], u) == mine + [x] by { OfSnoc(xs, x, u); }
      TotalOne(mine, x, keep);
    } else {
      assert Of(xs + [x], u) == mine by { OfSnoc(xs, x, u); }
    }
  }

  /** Whatever is counted, the users' counts add up to the node's. */
  lemma {:induction false} UsersAddUp(xs: seq<Sighting>, keep: Sighting -> bool)
    ensures SumShares(UserShares(xs, keep)) == Total(xs, keep)
  {
    if xs == [] {
      assert UserShares(xs, keep) == map[];
    } else {
      var init, x := xs[..|xs| - 1], xs[|xs| - 1];
      assert xs == init + [x];
      UsersAddUp(init, keep);
      UserSharesSnoc(init, x, keep);
      SumAdded(UserShares(init, keep), x.p.username, Part(x, keep));
      TotalOne(init, x, keep);
    }
  }

  /** The tallies of an interval's users. */
  function UserTallies(censuses: seq<seq<Sighting>>): map<string, Tally> {
    map u | u in UsersOf(Flat(censuses)) :: FoldAll(OfEach(censuses, u))
  }

  lemma {:induction false} AmountsOf(m: Shares)
    ensures SumOf(map u | u in m :: m[u].amount) == SumShares(m).amount
    decreases |m|
  {
    var t: Table := map u | u in m :: m[u].amount;
    if m == map[] {
      assert Lifted(t) == map[];
    } else {
      var k :| k in m;
      var rest: Table := map u | u in m - {k} :: m[u].amount;
      assert rest == map u | u in m - {k} :: (m - {k})[u].amount;
      AmountsOf(m - {k});
      SumRemove(m, k);
      SumRemove(Lifted(t), k);
      assert Lifted(t) - {k} == Lifted(rest);
    }
  }

  /** The sums of some users. */
  function SumsOf(users: map<string, Tally>, some: set<string>): Shares {
    map u | u in users && u in some :: users[u].sum
  }

  /** The users' rows of an interval add up to the node's: totals, by_activity cells and
      by_category_dormancy cells. */
  lemma {:induction false} UserRowsAddUp(censuses: seq<seq<Sighting>>)
    ensures var users, node := UserTallies(censuses), FoldAll(censuses);
            && SumShares(SumsOf(users, users.Keys)) == node.sum
            && (forall k :: SumOf(map u | u in users :: At(users[u].byActivity, k)) == At(node.byActivity, k))
            && (forall c, d ::
                  SumOf(map u | u in users :: At(Sub(users[u].byBoth, c), d)) == At(Sub(node.byBoth, c), d))
  {
    var users, node, xs := UserTallies(censuses), FoldAll(censuses), Flat(censuses);
    IntervalIsTally(censuses);
    TotalsAdd(censuses);
    forall k ensures SumOf(map u | u in users :: At(users[u].byActivity, k)) == At(node.byActivity, k) {
      ActivityAdds(censuses, k);
    }
    forall c, d ensures SumOf(map u | u in users :: At(Sub(users[u].byBoth, c), d)) == At(Sub(node.byBoth, c), d) {
      BothAdds(censuses, c, d);
    }
  }

  const ALWAYS: Sighting -> bool := (x: Sighting) => true

  lemma {:induction false} SumAt(censuses: seq<seq<Sighting>>)
    ensures FoldAll(censuses).sum == Total(Flat(censuses), ALWAYS)
  {
    IntervalIsTally(censuses);
    TallyAccounts(Flat(censuses));
  }

  lemma {:induction false} SharesAdd(xs: seq<Sighting>, keep: Sighting -> bool, m: Shares)
    requires m.Keys == UsersOf(xs) && forall u :: u in m ==> m[u] == Total(Of(xs, u), keep)
    ensures SumShares(m) == Total(xs, keep)
  {
    UsersAddUp(xs, keep);
    assert m == UserShares(xs, keep);
  }

  lemma {:induction false} TotalsAdd(censuses: seq<seq<Sighting>>)
    ensures var users := UserTallies(censuses);
            SumShares(SumsOf(users, users.Keys)) == FoldAll(censuses).sum
  {
    var users, xs := UserTallies(censuses), Flat(censuses);
    var sums := SumsOf(users, users.Keys);
    assert sums.Keys == UsersOf(xs);
    SumAt(censuses);
    forall u | u in sums ensures sums[u] == Total(Of(xs, u), ALWAYS) {
      SumAt(OfEach(censuses, u));
      FlatOf(censuses, u);
    }
    SharesAdd(xs, ALWAYS, sums);
  }

  /** A table with one cell for each user adds up to the node's cell. */
  lemma {:induction false} CellsAdd(xs: seq<Sighting>, keep: Sighting -> bool, t: Table)
    requires t.Keys == UsersOf(xs) && forall u :: u in t ==> t[u] == Total(Of(xs, u), keep).amount
    ensures SumOf(t) == Total(xs, keep).amount
  {
    var m := UserShares(xs, keep);
    UsersAddUp(xs, keep);
    AmountsOf(m);
    assert t == map u | u in m :: m[u].amount;
  }

  lemma {:induction false} ActivityAt(censuses: seq<seq<Sighting>>, k: string)
    ensures At(FoldAll(censuses).byActivity, k) == Total(Flat(censuses), Under(ACTIVITY, k)).amount
  {
    IntervalIsTally(censuses);
    TallyAccounts(Flat(censuses));
    assert AccountsFor(CensusTally(Flat(censuses)).byActivity, Flat(censuses), ACTIVITY, k);
  }

  lemma {:induction false} BothAt(censuses: seq<seq<Sighting>>, c: string, d: string)
    ensures At(Sub(FoldAll(censuses).byBoth, c), d) == Total(Flat(censuses), Both(c, d)).amount
  {
    IntervalIsTally(censuses);
    BothAccounts(Flat(censuses), c, d);
  }

  lemma {:induction false} ActivityAdds(censuses: seq<seq<Sighting>>, k: string)
    ensures var users := UserTallies(censuses);
            SumOf(map u | u in users :: At(users[u].byActivity, k)) == At(FoldAll(censuses).byActivity, k)
  {
    var users, xs := UserTallies(censuses), Flat(censuses);
    var t: Table := map u | u in users :: At(users[u].byActivity, k);
    ActivityAt(censuses, k);
    forall u | u in t ensures t[u] == Total(Of(xs, u), Under(ACTIVITY, k)).amount {
      ActivityAt(OfEach(censuses, u), k);
      FlatOf(censuses, u);
    }
    CellsAdd(xs, Under(ACTIVITY, k), t);
  }

  lemma {:induction false} BothAdds(censuses: seq<seq<Sighting>>, c: string, d: string)
    ensures var users := UserTallies(censuses);
            SumOf(map u | u in users :: At(Sub(users[u].byBoth, c), d)) == At(Sub(FoldAll(censuses).byBoth, c), d)
  {
    var users, xs := UserTallies(censuses), Flat(censuses);
    var t: Table := map u | u in users :: At(Sub(users[u].byBoth, c), d);
    BothAt(censuses, c, d);
    forall u | u in t ensures t[u] == Total(Of(xs, u), Both(c, d)).amount {
      BothAt(OfEach(censuses, u), c, d);
      FlatOf(censuses, u);
    }
    CellsAdd(xs, Both(c, d), t);
  }

  // --- averages and maxima ----------------------------------------------------------------------------

  lemma {:induction false} MaximaNotNegative(censuses: seq<seq<Sighting>>)
    ensures var t := FoldAll(censuses); t.nMax >= 0 && t.rssMax >= 0 && t.gpuMax >= 0
  {
    if censuses != [] {
      MaximaNotNegative(censuses[..|censuses| - 1]);
    }
  }

  /** Sums are at most the number of censuses times the largest. */
  lemma {:induction false} SumsWithinMaxima(censuses: seq<seq<Sighting>>)
    ensures var t := FoldAll(censuses);
            t.sum.amount.count <= |censuses| * t.nMax && t.sum.amount.rss <= |censuses| * t.rssMax
  {
    if censuses != [] {
      var n := |censuses| - 1;
      SumsWithinMaxima(censuses[..n]);
      var t, u, c := FoldAll(censuses[..n]), FoldAll(censuses), CensusTally(censuses[n]);
      MaxGrows(n, t.nMax, c.sum.amount.count);
      MaxGrows(n, t.rssMax, c.sum.amount.rss);
    }
  }

  lemma {:induction false} MaxGrows(n: nat, m: int, x: int)
    ensures n * m + x <= (n + 1) * Max(m, x)
  {
    assert n * m <= n * Max(m, x);
    assert (n + 1) * Max(m, x) == n * Max(m, x) + Max(m, x);
  }

  function CountTrue(flags: seq<bool>): nat {
    if flags == [] then 0 else CountTrue(flags[..|flags| - 1]) + if flags[|flags| - 1] then 1 else 0
  }

  /** Each census's sightings carry its flag. */
  ghost predicate Flagged(censuses: seq<seq<Sighting>>, flags: seq<bool>) {
    |censuses| == |flags| && forall i, j :: 0 <= i < |flags| && 0 <= j < |censuses[i]| ==>
        censuses[i][j].gpuMeasured == flags[i]
  }

  /** GPU memory of sightings, measured or not. */
  function GpuOf(xs: seq<Sighting>): int {
    if xs == [] then 0
    else
      var g := xs[|xs| - 1].p.gpu;
      GpuOf(xs[..|xs| - 1]) + if g.Some? then g.value else 0
  }

  /** GPU memory of the censuses that measured it. */
  function MeasuredGpu(censuses: seq<seq<Sighting>>, flags: seq<bool>): int
    requires |censuses| == |flags|
  {
    if censuses == [] then 0
    else
      var n := |censuses| - 1;
      MeasuredGpu(censuses[..n], flags[..n]) + if flags[n] then GpuOf(censuses[n]) else 0
  }

  lemma {:induction false} CensusGpu(xs: seq<Sighting>, flag: bool)
    requires forall j :: 0 <= j < |xs| ==> xs[j].gpuMeasured == flag
    ensures CensusTally(xs).sum.gpu == if flag then GpuOf(xs) else 0
  {
    if xs != [] {
      CensusGpu(xs[..|xs| - 1], flag);
    }
  }

  /** GPU memory is summed over exactly the censuses that measured it. */
  lemma {:induction false} GpuIsMeasured(censuses: seq<seq<Sighting>>, flags: seq<bool>)
    requires Flagged(censuses, flags)
    ensures FoldAll(censuses).sum.gpu == MeasuredGpu(censuses, flags)
  {
    if censuses != [] {
      var n := |censuses| - 1;
      GpuIsMeasured(censuses[..n], flags[..n]);
      CensusGpu(censuses[n], flags[n]);
      GpuAdds(FoldAll(censuses[..n]), CensusTally(censuses[n]));
    }
  }

  lemma {:induction false} GpuAdds(t: Tally, c: Tally)
    ensures Folded(t, c).sum.gpu == t.sum.gpu + c.sum.gpu
  {
  }

  /** A sum over `n` censuses of which none exceeds `max`. */
  ghost predicate Within(sum: int, n: nat, max: int) { sum <= n * max && (n == 0 ==> sum == 0) }

  lemma {:induction false} GpuStep(n: nat, t: Tally, c: Tally, measured: bool)
    requires Within(t.sum.gpu, n, t.gpuMax) && t.gpuMax >= 0 && (!measured ==> c.sum.gpu == 0)
    ensures Within(Folded(t, c).sum.gpu, if measured then n + 1 else n, Folded(t, c).gpuMax)
  {
    if measured {
      MaxGrows(n, t.gpuMax, c.sum.gpu);
    }
  }

  /** And at most their number times the largest. */
  lemma {:induction false} GpuWithinMaximum(censuses: seq<seq<Sighting>>, flags: seq<bool>)
    requires Flagged(censuses, flags)
    ensures Within(FoldAll(censuses).sum.gpu, CountTrue(flags), FoldAll(censuses).gpuMax)
  {
    if censuses != [] {
      var n := |censuses| - 1;
      var init, xs, before, measured := censuses[..n], censuses[n], flags[..n], flags[n];
      assert Flagged(init, before);
      GpuWithinMaximum(init, before);
      MaximaNotNegative(init);
      if !measured {
        CensusGpu(xs, false);
      }
      GpuSnoc(FoldAll(init), CensusTally(xs), CountTrue(before), measured, FoldAll(censuses), CountTrue(flags));
    }
  }

  lemma {:induction false} GpuSnoc(t: Tally, c: Tally, n: nat, measured: bool, u: Tally, m: nat)
    requires Within(t.sum.gpu, n, t.gpuMax) && t.gpuMax >= 0 && (!measured ==> c.sum.gpu == 0)
    requires u == Folded(t, c) && m == n + if measured then 1 else 0
    ensures Within(u.sum.gpu, m, u.gpuMax)
  {
    GpuStep(n, t, c, measured);
  }
}
