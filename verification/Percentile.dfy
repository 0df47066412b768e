/** The percentile of the monitoring summary, over exact reals: linear interpolation between order
    statistics. */
module Percentile {
  import opened Reals
  import opened Samples

  // ------------------------------------------------------------------ order statistics

  predicate IsSorted(s: seq<real>) {
    forall i, j :: 0 <= i <= j < |s| ==> s[i] <= s[j]
  }

  function Insert(x: real, s: seq<real>): (r: seq<real>)
    ensures |r| == |s| + 1
  {
    if s == [] || x <= s[0] then [x] + s else [s[0]] + Insert(x, s[1..])
  }

  /** `sorted(values)` */
  function Sorted(s: seq<real>): (r: seq<real>)
    ensures |r| == |s|
  {
    if s == [] then [] else Insert(s[0], Sorted(s[1..]))
  }

  function UpTo(t: real): real -> bool {
    (x: real) => x <= t
  }

  lemma {:induction false} InsertCounts(x: real, s: seq<real>, p: real -> bool)
    ensures Count(Insert(x, s), p) == One(p(x)) + Count(s, p)
  {
    if s == [] || x <= s[0] {
      assert ([x] + s)[1..] == s;
    } else {
      InsertCounts(x, s[1..], p);
      assert ([s[0]] + Insert(x, s[1..]))[1..] == Insert(x, s[1..]);
    }
  }

  lemma {:induction false} SortedCounts(s: seq<real>, p: real -> bool)
    ensures Count(Sorted(s), p) == Count(s, p)
  {
    if s != [] {
      SortedCounts(s[1..], p);
      InsertCounts(s[0], Sorted(s[1..]), p);
    }
  }

  lemma {:induction false} InsertHas(x: real, s: seq<real>, y: real)
    requires y in Insert(x, s)
    ensures y == x || y in s
  {
    if s != [] && x > s[0] && y != s[0] {
      assert y in Insert(x, s[1..]);
      InsertHas(x, s[1..], y);
    }
  }

  lemma {:induction false} InsertSorts(x: real, s: seq<real>)
    requires IsSorted(s)
    ensures IsSorted(Insert(x, s))
  {
    if s != [] && x > s[0] {
      InsertSorts(x, s[1..]);
      var r := Insert(x, s[1..]);
      forall i | 0 <= i < |r| ensures s[0] <= r[i] { InsertHas(x, s[1..], r[i]); }
    }
  }

  lemma {:induction false} SortedSorts(s: seq<real>)
    ensures IsSorted(Sorted(s))
  {
    if s != [] {
      SortedSorts(s[1..]);
      InsertSorts(s[0], Sorted(s[1..]));
    }
  }

  lemma {:induction false} NoneUpTo(s: seq<real>, t: real)
    requires forall i :: 0 <= i < |s| ==> s[i] > t
    ensures Count(s, UpTo(t)) == 0
  {
    if s != [] { NoneUpTo(s[1..], t); }
  }

  lemma {:induction false} RankInSorted(s: seq<real>, k: nat, t: real)
    requires IsSorted(s) && k < |s|
    ensures s[k] <= t <==> Count(s, UpTo(t)) > k
  {
    if s[0] > t {
      NoneUpTo(s, t);
    } else if k > 0 {
      RankInSorted(s[1..], k - 1, t);
    }
  }

  /** What the order statistics mean: the `k`-th one is at most `t` exactly when more than `k` samples are. */
  lemma Rank(s: seq<real>, k: nat, t: real)
    requires k < |s|
    ensures Sorted(s)[k] <= t <==> Count(s, UpTo(t)) > k
  {
    SortedSorts(s);
    SortedCounts(s, UpTo(t));
    RankInSorted(Sorted(s), k, t);
  }

  predicate Below(a: seq<real>, b: seq<real>) {
    |a| == |b| && forall i :: 0 <= i < |a| ==> a[i] <= b[i]
  }

  lemma SortedIsMonotone(a: seq<real>, b: seq<real>)
    requires Below(a, b)
    ensures Below(Sorted(a), Sorted(b))
  {
    forall k | 0 <= k < |a| ensures Sorted(a)[k] <= Sorted(b)[k] {
      var t := Sorted(b)[k];
      Rank(b, k, t);
      Rank(a, k, t);
      CountsInclude(b, UpTo(t), a, UpTo(t));
    }
  }

  lemma SortedOfPermutation(a: seq<real>, b: seq<real>)
    requires multiset(a) == multiset(b)
    ensures Sorted(a) == Sorted(b)
  {
    assert |multiset(a)| == |a| && |multiset(b)| == |b|;
    forall k | 0 <= k < |a| ensures Sorted(a)[k] == Sorted(b)[k] {
      PermutationCounts(a, b, UpTo(Sorted(a)[k]));
      PermutationCounts(a, b, UpTo(Sorted(b)[k]));
      Rank(a, k, Sorted(a)[k]);
      Rank(b, k, Sorted(a)[k]);
      Rank(a, k, Sorted(b)[k]);
      Rank(b, k, Sorted(b)[k]);
    }
  }

  // ------------------------------------------------------------------ interpolation

  /** How values are mixed by a weight, and the fractional rank of fraction `q` among `n + 1` samples. */
  datatype Scheme = Scheme(mix: (real, real, real) -> real, rank: (nat, real) -> real)

  /** All that the order properties need of the arithmetic. */
  ghost predicate Good(c: Scheme) {
    MixesBetween(c.mix) && MixesUp(c.mix) && MixesBelow(c.mix) && RanksInside(c.rank) && RanksUp(c.rank)
  }

  ghost predicate MixesBetween(mix: (real, real, real) -> real) {
    forall a, b, w :: a <= b && 0.0 <= w <= 1.0 ==> a <= mix(a, b, w) <= b
  }

  ghost predicate MixesUp(mix: (real, real, real) -> real) {
    forall a, b, w, v :: a <= b && 0.0 <= w <= v <= 1.0 ==> mix(a, b, w) <= mix(a, b, v)
  }

  ghost predicate MixesBelow(mix: (real, real, real) -> real) {
    forall a, b, x, y, w :: a <= x && b <= y && 0.0 <= w <= 1.0 ==> mix(a, b, w) <= mix(x, y, w)
  }

  ghost predicate RanksInside(rank: (nat, real) -> real) {
    forall n, q :: 0.0 <= q <= 1.0 ==> 0.0 <= rank(n, q) <= n as real
  }

  ghost predicate RanksUp(rank: (nat, real) -> real) {
    forall n, p, q :: 0.0 <= p <= q <= 1.0 ==> rank(n, p) <= rank(n, q)
  }

  function Mix(a: real, b: real, w: real): real {
    a * (1.0 - w) + b * w
  }

  function LinearRank(n: nat, q: real): real {
    n as real * q
  }

  /** `ordered[lower] * (1 - weight) + ordered[upper] * weight` at `(len(ordered) - 1) * q` */
  const LINEAR: Scheme := Scheme(Mix, LinearRank)

  lemma MixIsShift(a: real, b: real, w: real)
    ensures Mix(a, b, w) == a + w * (b - a)
  {
  }

  lemma MixBetween(a: real, b: real, w: real, v: real)
    requires a <= b && 0.0 <= w <= v <= 1.0
    ensures a <= Mix(a, b, w) <= Mix(a, b, v) <= b
  {
    MixIsShift(a, b, w);
    MixIsShift(a, b, v);
    Product(w, b - a);
    Scaled(w, v, b - a);
    Scaled(v, 1.0, b - a);
  }

  lemma BlendBelow(a: real, b: real, x: real, y: real, v: real, w: real)
    requires a <= x && b <= y && 0.0 <= v && 0.0 <= w
    ensures a * v + b * w <= x * v + y * w
  {
    Scaled(a, x, v);
    Scaled(b, y, w);
  }

  lemma MixBelow(a: real, b: real, x: real, y: real, w: real)
    requires a <= x && b <= y && 0.0 <= w <= 1.0
    ensures Mix(a, b, w) <= Mix(x, y, w)
  {
    BlendBelow(a, b, x, y, 1.0 - w, w);
  }

  lemma MixIsGood()
    ensures MixesBetween(Mix) && MixesUp(Mix)
  {
    forall a: real, b: real, w: real | a <= b && 0.0 <= w <= 1.0 ensures a <= Mix(a, b, w) <= b { MixBetween(a, b, w, w); }
    forall a: real, b: real, w: real, v: real | a <= b && 0.0 <= w <= v <= 1.0 ensures Mix(a, b, w) <= Mix(a, b, v) { MixBetween(a, b, w, v); }
  }

  lemma MixIsMonotone()
    ensures MixesBelow(Mix)
  {
    forall a: real, b: real, x: real, y: real, w: real | a <= x && b <= y && 0.0 <= w <= 1.0 ensures Mix(a, b, w) <= Mix(x, y, w) {
      MixBelow(a, b, x, y, w);
    }
  }

  lemma RankUp(n: nat, p: real, q: real)
    requires 0.0 <= p <= q <= 1.0
    ensures 0.0 <= LinearRank(n, p) <= LinearRank(n, q) <= n as real
  {
    Product(n as real, p);
    ScaledLeft(n as real, p, q);
    ScaledLeft(n as real, q, 1.0);
  }

  lemma RankIsGood()
    ensures RanksInside(LinearRank) && RanksUp(LinearRank)
  {
    forall n: nat, q: real | 0.0 <= q <= 1.0 ensures 0.0 <= LinearRank(n, q) <= n as real { RankUp(n, q, q); }
    forall n: nat, p: real, q: real | 0.0 <= p <= q <= 1.0 ensures LinearRank(n, p) <= LinearRank(n, q) { RankUp(n, p, q); }
  }

  lemma LinearIsGood()
    ensures Good(LINEAR)
  {
    MixIsGood();
    MixIsMonotone();
    RankIsGood();
  }

  function Min(a: int, b: int): int {
    if a <= b then a else b
  }

  /** The value at a fractional rank. */
  function At(c: Scheme, s: seq<real>, position: real): real
    requires |s| >= 1 && 0.0 <= position <= (|s| - 1) as real
  {
    var lower := position.Floor;
    c.mix(s[lower], s[Min(lower + 1, |s| - 1)], position - lower as real)
  }

  /** Nondecreasing within a segment and across segment boundaries. */
  lemma AtIsMonotone(c: Scheme, s: seq<real>, p: real, q: real)
    requires Good(c) && |s| >= 1 && IsSorted(s) && 0.0 <= p <= q <= (|s| - 1) as real
    ensures s[0] <= At(c, s, p) <= At(c, s, q) <= s[|s| - 1]
  {
    var l, m := p.Floor, q.Floor;
    var u, v := Min(l + 1, |s| - 1), Min(m + 1, |s| - 1);
    assert s[0] <= s[l] <= s[u] && s[m] <= s[v] <= s[|s| - 1];
    if l != m { assert s[u] <= s[m]; }
  }

  function PercentileBy(c: Scheme, values: seq<real>, q: real): real
    requires Good(c) && 0.0 <= q <= 1.0
  {
    if values == [] then 0.0
    else
      var ordered := Sorted(values);
      if |ordered| == 1 then ordered[0] else At(c, ordered, c.rank(|ordered| - 1, q))
  }

  /** `percentile`, for fractions from 0 to 1. */
  function Percentile(values: seq<real>, q: real): real
    requires 0.0 <= q <= 1.0
  {
    LinearIsGood();
    PercentileBy(LINEAR, values, q)
  }

  lemma SamplesBy(c: Scheme, a: seq<real>, b: seq<real>, q: real)
    requires Good(c) && Below(a, b) && 0.0 <= q <= 1.0
    ensures PercentileBy(c, a, q) <= PercentileBy(c, b, q)
  {
    SortedIsMonotone(a, b);
  }

  lemma FractionBy(c: Scheme, values: seq<real>, p: real, q: real)
    requires Good(c) && 0.0 <= p <= q <= 1.0
    ensures PercentileBy(c, values, p) <= PercentileBy(c, values, q)
    ensures values != [] ==> Sorted(values)[0] <= PercentileBy(c, values, p) && PercentileBy(c, values, q) <= Sorted(values)[|values| - 1]
  {
    SortedSorts(values);
    if |values| > 1 { AtIsMonotone(c, Sorted(values), c.rank(|values| - 1, p), c.rank(|values| - 1, q)); }
  }

  /** Raising samples pointwise never lowers any percentile. */
  lemma MonotoneInSamples(a: seq<real>, b: seq<real>, q: real)
    requires Below(a, b) && 0.0 <= q <= 1.0
    ensures Percentile(a, q) <= Percentile(b, q)
  {
    LinearIsGood();
    SamplesBy(LINEAR, a, b, q);
  }

  /** Percentiles are nondecreasing in `q`, and lie between any lower and any upper bound of the samples. */
  lemma MonotoneInFraction(values: seq<real>, p: real, q: real, low: real, high: real)
    requires 0.0 <= p <= q <= 1.0
    requires forall x :: x in values ==> low <= x <= high
    ensures Percentile(values, p) <= Percentile(values, q)
    ensures values != [] ==> low <= Percentile(values, p) && Percentile(values, q) <= high
  {
    LinearIsGood();
    FractionBy(LINEAR, values, p, q);
    if values != [] {
      CountAll(values, high);
      Rank(values, |values| - 1, high);
      SmallestIsSample(values);
    }
  }

  lemma {:induction false} SortedHas(s: seq<real>, y: real)
    requires y in Sorted(s)
    ensures y in s
  {
    if s != [] {
      InsertHas(s[0], Sorted(s[1..]), y);
      if y != s[0] { SortedHas(s[1..], y); }
    }
  }

  lemma SmallestIsSample(values: seq<real>)
    requires values != []
    ensures Sorted(values)[0] in values
  {
    SortedHas(values, Sorted(values)[0]);
  }

  lemma {:induction false} CountAll(s: seq<real>, t: real)
    requires forall x :: x in s ==> x <= t
    ensures Count(s, UpTo(t)) == |s|
  {
    if s != [] {
      assert s[0] in s;
      forall x | x in s[1..] ensures x <= t { assert x in s; }
      CountAll(s[1..], t);
    }
  }

  /** The order in which the rows come back does not matter. */
  lemma PermutationInvariant(a: seq<real>, b: seq<real>, q: real)
    requires multiset(a) == multiset(b) && 0.0 <= q <= 1.0
    ensures Percentile(a, q) == Percentile(b, q)
  {
    SortedOfPermutation(a, b);
    assert |a| == |Sorted(a)| == |Sorted(b)| == |b|;
  }

  lemma WholeRank(s: seq<real>, k: nat)
    requires k < |s|
    ensures At(LINEAR, s, k as real) == s[k]
  {
    assert (k as real).Floor == k;
  }

  lemma AtWholeRank(values: seq<real>, k: nat, q: real)
    requires k < |values| && 0.0 <= q <= 1.0 && LinearRank(|values| - 1, q) == k as real
    ensures Percentile(values, q) == Sorted(values)[k]
  {
    if |values| > 1 { WholeRank(Sorted(values), k); }
  }

  /** At a whole rank the percentile is the order statistic itself: it is at most `t` exactly when
      more than `k` of the samples are. */
  lemma PercentileAtRank(values: seq<real>, k: nat, q: real, t: real)
    requires k < |values| && 0.0 <= q <= 1.0 && LinearRank(|values| - 1, q) == k as real
    ensures Percentile(values, q) <= t <==> Count(values, UpTo(t)) > k
  {
    AtWholeRank(values, k, q);
    Rank(values, k, t);
  }

  /** `x` is the `k`-th order statistic, by counting. */
  ghost predicate IsStatistic(values: seq<real>, k: nat, x: real) {
    forall t: real :: x <= t <==> Count(values, UpTo(t)) > k
  }

  lemma StatisticIsSorted(values: seq<real>, k: nat, x: real)
    requires k < |values| && IsStatistic(values, k, x)
    ensures x == Sorted(values)[k]
  {
    Rank(values, k, x);
    Rank(values, k, Sorted(values)[k]);
  }

  /** `a + w * (b - a)` */
  function OnLine(a: real, b: real, w: real): real {
    a + w * (b - a)
  }

  lemma BetweenRanks(s: seq<real>, k: nat, w: real, position: real)
    requires k + 1 < |s| && 0.0 <= w <= 1.0 && position == k as real + w
    ensures At(LINEAR, s, position) == OnLine(s[k], s[k + 1], w)
  {
    MixIsShift(s[k], s[k + 1], w);
    if w < 1.0 { assert position.Floor == k; } else { WholeRank(s, k + 1); }
  }

  lemma PercentileIsAt(c: Scheme, values: seq<real>, q: real, position: real)
    requires Good(c) && |values| > 1 && 0.0 <= q <= 1.0 && position == c.rank(|values| - 1, q)
    ensures 0.0 <= position <= (|values| - 1) as real && PercentileBy(c, values, q) == At(c, Sorted(values), position)
  {
  }

  /** Between two neighbouring ranks the percentile runs linearly from one order statistic to the next. */
  lemma PercentileIsLinear(values: seq<real>, q: real, k: nat, w: real, a: real, b: real)
    requires k + 1 < |values| && 0.0 <= q <= 1.0 && 0.0 <= w <= 1.0
    requires (|values| - 1) as real * q == k as real + w
    requires IsStatistic(values, k, a) && IsStatistic(values, k + 1, b)
    ensures Percentile(values, q) == OnLine(a, b, w)
  {
    StatisticIsSorted(values, k, a);
    StatisticIsSorted(values, k + 1, b);
    LinearIsGood();
    PercentileIsAt(LINEAR, values, q, LinearRank(|values| - 1, q));
    BetweenRanks(Sorted(values), k, w, LinearRank(|values| - 1, q));
  }

  function Under(t: real): real -> bool {
    (x: real) => x < t
  }

  lemma {:induction false} NoneUnder(s: seq<real>, t: real)
    requires forall i :: 0 <= i < |s| ==> s[i] >= t
    ensures Count(s, Under(t)) == 0
  {
    if s != [] { NoneUnder(s[1..], t); }
  }

  lemma {:induction false} UnderInSorted(s: seq<real>, k: nat, t: real)
    requires IsSorted(s) && k < |s| && t <= s[k]
    ensures Count(s, Under(t)) <= k
  {
    if s[0] >= t {
      NoneUnder(s, t);
    } else {
      UnderInSorted(s[1..], k - 1, t);
    }
  }

  /** With `n + 1` samples, more than `q * n` of them are at most `x`, and at most `q * n + 1` are less. */
  predicate CutsOff(values: seq<real>, x: real, q: real)
    requires values != []
  {
    && Count(values, UpTo(x)) as real > LinearRank(|values| - 1, q)
    && Count(values, Under(x)) as real <= LinearRank(|values| - 1, q) + 1.0
  }

  lemma CutOffAt(values: seq<real>, position: real, x: real)
    requires values != [] && 0.0 <= position <= (|values| - 1) as real
    requires var k := position.Floor; Sorted(values)[k] <= x <= Sorted(values)[Min(k + 1, |values| - 1)]
    ensures Count(values, UpTo(x)) as real > position
    ensures Count(values, Under(x)) as real <= position + 1.0
  {
    var k := position.Floor;
    var above := Min(k + 1, |values| - 1);
    Rank(values, k, x);
    SortedSorts(values);
    SortedCounts(values, Under(x));
    UnderInSorted(Sorted(values), above, x);
  }

  lemma AtIsBetween(c: Scheme, s: seq<real>, position: real)
    requires Good(c) && |s| >= 1 && IsSorted(s) && 0.0 <= position <= (|s| - 1) as real
    ensures var k := position.Floor; s[k] <= At(c, s, position) <= s[Min(k + 1, |s| - 1)]
  {
  }

  /** A percentile lies where its fraction says it does, among samples in any order. */
  lemma PercentileCutsOff(values: seq<real>, q: real)
    requires values != [] && 0.0 <= q <= 1.0
    ensures CutsOff(values, Percentile(values, q), q)
  {
    LinearIsGood();
    RankUp(|values| - 1, q, q);
    var position := LinearRank(|values| - 1, q);
    if |values| > 1 {
      SortedSorts(values);
      PercentileIsAt(LINEAR, values, q, position);
      AtIsBetween(LINEAR, Sorted(values), position);
    }
    CutOffAt(values, position, Percentile(values, q));
  }

  datatype LatencySummary = LatencySummary(p50: real, p95: real, p99: real)

  function Summarise(latencies: seq<real>): LatencySummary {
    LatencySummary(Percentile(latencies, 0.50), Percentile(latencies, 0.95), Percentile(latencies, 0.99))
  }

  /** The summary's latencies are ordered, and cut off half, 95 and 99 percent of the samples. */
  lemma SummaryIsOrdered(latencies: seq<real>)
    ensures var r := Summarise(latencies);
      && r.p50 <= r.p95 <= r.p99
      && (latencies != [] ==> CutsOff(latencies, r.p50, 0.50) && CutsOff(latencies, r.p95, 0.95) && CutsOff(latencies, r.p99, 0.99))
  {
    LinearIsGood();
    FractionBy(LINEAR, latencies, 0.50, 0.95);
    FractionBy(LINEAR, latencies, 0.95, 0.99);
    if latencies != [] {
      PercentileCutsOff(latencies, 0.50);
      PercentileCutsOff(latencies, 0.95);
      PercentileCutsOff(latencies, 0.99);
    }
  }
}
