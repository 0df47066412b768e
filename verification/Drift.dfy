/** Drift scores over exact reals: the population stability index and the Jensen-Shannon divergence
    of a baseline and a current sample. The logarithm is a parameter. */
module Drift {
  import opened Reals
  import opened Samples

  /** All that the results below use of the natural logarithm, on positive arguments: it is
      nondecreasing, turns reciprocals into negatives, and lies above its tangent bound. */
  ghost predicate LogLike(ln: real -> real) {
    && (forall x: real, y: real :: Ordered(ln, x, y))
    && (forall x: real :: Reciprocal(ln, x))
    && (forall x: real :: Tangent(ln, x))
  }

  predicate Ordered(ln: real -> real, x: real, y: real) {
    0.0 < x <= y ==> ln(x) <= ln(y)
  }

  predicate Reciprocal(ln: real -> real, x: real) {
    0.0 < x ==> ln(1.0 / x) == -ln(x)
  }

  predicate Tangent(ln: real -> real, x: real) {
    0.0 < x ==> 1.0 - 1.0 / x <= ln(x)
  }

  function Max(a: real, b: real): real {
    if a >= b then a else b
  }

  function Min(a: real, b: real): real {
    if a <= b then a else b
  }

  function Least(s: seq<real>): real
    requires s != []
  {
    if |s| == 1 then s[0] else Min(s[0], Least(s[1..]))
  }

  function Greatest(s: seq<real>): real
    requires s != []
  {
    if |s| == 1 then s[0] else Max(s[0], Greatest(s[1..]))
  }

  lemma {:induction false} LeastIs(s: seq<real>)
    requires s != []
    ensures Least(s) in s && forall x :: x in s ==> Least(s) <= x
  {
    assert s == [s[0]] + s[1..];
    if |s| > 1 { LeastIs(s[1..]); }
  }

  lemma {:induction false} GreatestIs(s: seq<real>)
    requires s != []
    ensures Greatest(s) in s && forall x :: x in s ==> x <= Greatest(s)
  {
    assert s == [s[0]] + s[1..];
    if |s| > 1 { GreatestIs(s[1..]); }
  }

  // ------------------------------------------------------------------ population stability index

  datatype Bin = Bin(lower: real, upper: real)

  function BinAt(low: real, high: real, bins: nat, index: nat): Bin
    requires index < bins
  {
    var step := (high - low) / bins as real;
    var lower := low + step * index as real;
    Bin(lower, if index == bins - 1 then high else lower + step)
  }

  function Bins(low: real, high: real, bins: nat): (bs: seq<Bin>)
    ensures |bs| == bins
  {
    seq(bins, i requires 0 <= i < bins => BinAt(low, high, bins, i))
  }

  function Within(b: Bin): real -> bool {
    (x: real) => b.lower <= x <= b.upper
  }

  function Share(s: seq<real>, b: Bin): real
    requires s != []
  {
    Max(Count(s, Within(b)) as real / |s| as real, 0.000001)
  }

  function Term(ln: real -> real, b: real, c: real): real
    requires 0.0 < b
  {
    (c - b) * ln(c / b)
  }

  function PsiOver(ln: real -> real, baseline: seq<real>, current: seq<real>, bins: seq<Bin>): real
    requires baseline != [] && current != []
  {
    if bins == [] then 0.0
    else
      var last := bins[|bins| - 1];
      PsiOver(ln, baseline, current, bins[..|bins| - 1]) + Term(ln, Share(baseline, last), Share(current, last))
  }

  function Low(baseline: seq<real>, current: seq<real>): real
    requires baseline != [] && current != []
  {
    Min(Least(baseline), Least(current))
  }

  function High(baseline: seq<real>, current: seq<real>): real
    requires baseline != [] && current != []
  {
    Max(Greatest(baseline), Greatest(current))
  }

  function Psi(ln: real -> real, baseline: seq<real>, current: seq<real>, bins: nat): real
    requires 1 <= bins
  {
    if baseline == [] || current == [] then 0.0
    else
      var low, high := Low(baseline, current), High(baseline, current);
      if low == high then 0.0 else PsiOver(ln, baseline, current, Bins(low, high, bins))
  }

  method PopulationStabilityIndex(ln: real -> real, baseline: seq<real>, current: seq<real>, bins: nat) returns (psi: real)
    requires 1 <= bins
    ensures psi == Psi(ln, baseline, current, bins)
  {
    if baseline == [] || current == [] { return 0.0; }
    var low, high := Low(baseline, current), High(baseline, current);
    if low == high { return 0.0; }
    psi := 0.0;
    ghost var all := Bins(low, high, bins);
    for index := 0 to bins
      invariant psi == PsiOver(ln, baseline, current, all[..index])
    {
      var bin := BinAt(low, high, bins, index);
      psi := psi + Term(ln, Share(baseline, bin), Share(current, bin));
      assert all[..index + 1][..index] == all[..index] && all[..index + 1][index] == bin;
    }
    assert all[..bins] == all;
  }

  lemma LogOfOne(ln: real -> real)
    requires LogLike(ln)
    ensures ln(1.0) == 0.0
  {
    assert Reciprocal(ln, 1.0);
  }

  lemma Quotient(a: real, b: real)
    requires 0.0 < b <= a
    ensures 1.0 <= a / b
  {
  }

  lemma QuotientFlips(a: real, b: real)
    requires 0.0 < a && 0.0 < b
    ensures 0.0 < a / b && b / a == 1.0 / (a / b)
  {
  }

  lemma LogFlips(ln: real -> real, a: real, b: real)
    requires LogLike(ln) && 0.0 < a && 0.0 < b
    ensures ln(b / a) == -ln(a / b)
  {
    QuotientFlips(a, b);
    assert Reciprocal(ln, a / b);
  }

  lemma LogAboveOne(ln: real -> real, a: real, b: real)
    requires LogLike(ln) && 0.0 < b <= a
    ensures 0.0 <= ln(a / b)
  {
    LogOfOne(ln);
    Quotient(a, b);
    assert Ordered(ln, 1.0, a / b);
  }

  lemma Negated(a: real, b: real, x: real)
    ensures (a - b) * x == (b - a) * -x
  {
  }

  lemma TermSymmetric(ln: real -> real, b: real, c: real)
    requires LogLike(ln) && 0.0 < b && 0.0 < c
    ensures Term(ln, b, c) == Term(ln, c, b)
  {
    LogFlips(ln, c, b);
    Negated(c, b, ln(c / b));
  }

  lemma TermNonnegative(ln: real -> real, b: real, c: real)
    requires LogLike(ln) && 0.0 < b && 0.0 < c
    ensures 0.0 <= Term(ln, b, c)
  {
    if b <= c {
      LogAboveOne(ln, c, b);
      Product(c - b, ln(c / b));
    } else {
      LogAboveOne(ln, b, c);
      Product(b - c, ln(b / c));
      TermSymmetric(ln, b, c);
    }
  }

  lemma {:induction false} PsiOverNonnegative(ln: real -> real, b: seq<real>, c: seq<real>, bins: seq<Bin>)
    requires LogLike(ln) && b != [] && c != []
    ensures 0.0 <= PsiOver(ln, b, c, bins)
  {
    if bins != [] {
      PsiOverNonnegative(ln, b, c, bins[..|bins| - 1]);
      TermNonnegative(ln, Share(b, bins[|bins| - 1]), Share(c, bins[|bins| - 1]));
    }
  }

  lemma {:induction false} PsiOverSymmetric(ln: real -> real, b: seq<real>, c: seq<real>, bins: seq<Bin>)
    requires LogLike(ln) && b != [] && c != []
    ensures PsiOver(ln, b, c, bins) == PsiOver(ln, c, b, bins)
  {
    if bins != [] {
      PsiOverSymmetric(ln, b, c, bins[..|bins| - 1]);
      TermSymmetric(ln, Share(b, bins[|bins| - 1]), Share(c, bins[|bins| - 1]));
    }
  }

  /** The two samples' bins may differ as long as the shares do not. */
  lemma {:induction false} PsiOverShares(ln: real -> real, b: seq<real>, c: seq<real>, bins: seq<Bin>, d: seq<real>, e: seq<real>, others: seq<Bin>)
    requires b != [] && c != [] && d != [] && e != [] && |bins| == |others|
    requires forall i :: 0 <= i < |bins| ==> Share(b, bins[i]) == Share(d, others[i]) && Share(c, bins[i]) == Share(e, others[i])
    ensures PsiOver(ln, b, c, bins) == PsiOver(ln, d, e, others)
  {
    if bins != [] { PsiOverShares(ln, b, c, bins[..|bins| - 1], d, e, others[..|others| - 1]); }
  }

  lemma PsiNonnegative(ln: real -> real, b: seq<real>, c: seq<real>, bins: nat)
    requires LogLike(ln) && 1 <= bins
    ensures 0.0 <= Psi(ln, b, c, bins)
  {
    if b != [] && c != [] { PsiOverNonnegative(ln, b, c, Bins(Low(b, c), High(b, c), bins)); }
  }

  lemma PsiSymmetric(ln: real -> real, b: seq<real>, c: seq<real>, bins: nat)
    requires LogLike(ln) && 1 <= bins
    ensures Psi(ln, b, c, bins) == Psi(ln, c, b, bins)
  {
    if b != [] && c != [] {
      assert Low(b, c) == Low(c, b) && High(b, c) == High(c, b);
      PsiOverSymmetric(ln, b, c, Bins(Low(b, c), High(b, c), bins));
    }
  }

  /** The bins run from the least to the greatest sample of both lists, side by side and equally wide. */
  lemma BinsSplitRange(b: seq<real>, c: seq<real>, bins: nat)
    requires 1 <= bins && b != [] && c != [] && Low(b, c) < High(b, c)
    ensures forall x :: x in b + c ==> Low(b, c) <= x <= High(b, c)
    ensures Low(b, c) in b + c && High(b, c) in b + c
    ensures SplitsRange(Low(b, c), High(b, c), Bins(Low(b, c), High(b, c), bins))
  {
    RangeCovers(b, c);
    BinsSplit(Low(b, c), High(b, c), bins);
  }

  lemma RangeCovers(b: seq<real>, c: seq<real>)
    requires b != [] && c != []
    ensures forall x :: x in b + c ==> Low(b, c) <= x <= High(b, c)
    ensures Low(b, c) in b + c && High(b, c) in b + c
  {
    LeastIs(b);
    LeastIs(c);
    GreatestIs(b);
    GreatestIs(c);
  }

  ghost predicate SplitsRange(low: real, high: real, all: seq<Bin>) {
    && all != [] && all[0].lower == low && all[|all| - 1].upper == high
    && (forall i :: 0 <= i < |all| - 1 ==> all[i].upper == all[i + 1].lower)
    && (forall i :: 0 <= i < |all| ==> Wide(all[i], |all|, high - low))
  }

  lemma BinsMeet(low: real, high: real, bins: nat, i: nat)
    requires i + 1 < bins && low < high
    ensures BinAt(low, high, bins, i).upper == BinAt(low, high, bins, i + 1).lower
  {
    BinIsBetweenEdges(low, high, bins, i);
    BinIsBetweenEdges(low, high, bins, i + 1);
  }

  lemma OuterBins(low: real, high: real, bins: nat)
    requires 1 <= bins && low < high
    ensures BinAt(low, high, bins, 0).lower == low && BinAt(low, high, bins, bins - 1).upper == high
  {
  }

  lemma BinsSplit(low: real, high: real, bins: nat)
    requires 1 <= bins && low < high
    ensures SplitsRange(low, high, Bins(low, high, bins))
  {
    var all := Bins(low, high, bins);
    forall i | 0 <= i < bins ensures Wide(all[i], bins, high - low) { WideBin(low, high, bins, i); }
    forall i | 0 <= i < bins - 1 ensures all[i].upper == all[i + 1].lower { BinsMeet(low, high, bins, i); }
    OuterBins(low, high, bins);
  }

  lemma WideBin(low: real, high: real, bins: nat, i: nat)
    requires i < bins && low < high
    ensures Wide(BinAt(low, high, bins, i), bins, high - low)
  {
    BinIsBetweenEdges(low, high, bins, i);
    EdgeStep(low, high, bins, i);
  }

  /** One `bins`-th of the range. */
  predicate Wide(b: Bin, bins: nat, range: real) {
    (b.upper - b.lower) * bins as real == range
  }

  lemma EdgeStep(low: real, high: real, bins: nat, i: nat)
    requires 1 <= bins
    ensures (Edge(low, high, bins, i + 1) - Edge(low, high, bins, i)) * bins as real == high - low
  {
    var step := (high - low) / bins as real;
    assert step * (i + 1) as real == step * i as real + step;
    assert step * bins as real == high - low;
  }

  /** `share` is `count` parts in `size`, or one in a million when that is less. */
  predicate IsShare(share: real, count: real, size: real) {
    && (1000000.0 * count >= size ==> share * size == count)
    && (1000000.0 * count <= size ==> share == 0.000001)
  }

  lemma ShareIs(s: seq<real>, b: Bin)
    requires s != []
    ensures IsShare(Share(s, b), Count(s, Within(b)) as real, |s| as real)
  {
    ClampIs(Count(s, Within(b)) as real, |s| as real);
  }

  lemma ClampIs(k: real, n: real)
    requires 0.0 < n
    ensures IsShare(Max(k / n, 0.000001), k, n)
  {
    if 1000000.0 * k >= n { QuotientAtLeast(k, n); }
    if 1000000.0 * k <= n { QuotientAtMost(k, n); }
  }

  lemma QuotientAtLeast(k: real, n: real)
    requires 0.0 < n && n <= 1000000.0 * k
    ensures k / n >= 0.000001
  {
  }

  lemma QuotientAtMost(k: real, n: real)
    requires 0.0 < n && 1000000.0 * k <= n
    ensures k / n <= 0.000001
  {
  }

  // ------------------------------------------------------------------ how far apart the shares are

  /** The squared gap of two shares, relative to the larger or to the smaller of them. */
  function GapToLarger(b: real, c: real): real
    requires 0.0 < b && 0.0 < c
  {
    (c - b) * (c - b) / Max(b, c)
  }

  function GapToSmaller(b: real, c: real): real
    requires 0.0 < b && 0.0 < c
  {
    (c - b) * (c - b) / Min(b, c)
  }

  /** A gap summed over all bins. */
  function Gaps(gap: (real, real) --> real, baseline: seq<real>, current: seq<real>, bins: seq<Bin>): real
    requires baseline != [] && current != []
    requires forall b, c :: 0.0 < b && 0.0 < c ==> gap.requires(b, c)
  {
    if bins == [] then 0.0
    else
      var last := bins[|bins| - 1];
      Gaps(gap, baseline, current, bins[..|bins| - 1]) + gap(Share(baseline, last), Share(current, last))
  }

  lemma GapAsProduct(b: real, c: real, d: real)
    requires 0.0 < d
    ensures (c - b) * ((c - b) / d) == (c - b) * (c - b) / d
  {
  }

  lemma QuotientOfGap(x: real, y: real, d: real)
    requires 0.0 < d
    ensures x / d - y / d == (x - y) / d
  {
    var u, v := x / d, y / d;
    assert (u - v) * d == u * d - v * d;
  }

  /** `(c - b) / c <= ln(c / b) <= (c - b) / b` */
  lemma LogBounds(ln: real -> real, b: real, c: real)
    requires LogLike(ln) && 0.0 < b && 0.0 < c
    ensures (c - b) / c <= ln(c / b) <= (c - b) / b
  {
    QuotientFlips(c, b);
    QuotientFlips(b, c);
    LogFlips(ln, b, c);
    assert Tangent(ln, c / b) && Tangent(ln, b / c);
    QuotientOfGap(c, b, c);
    QuotientOfGap(c, b, b);
    assert c / c == 1.0 && b / b == 1.0;
  }

  lemma UpwardBounds(ln: real -> real, b: real, c: real)
    requires LogLike(ln) && 0.0 < b <= c
    ensures GapToLarger(b, c) <= Term(ln, b, c) <= GapToSmaller(b, c)
  {
    LogBounds(ln, b, c);
    ScaledLeft(c - b, (c - b) / c, ln(c / b));
    ScaledLeft(c - b, ln(c / b), (c - b) / b);
    GapAsProduct(b, c, c);
    GapAsProduct(b, c, b);
  }

  lemma GapsSymmetric(b: real, c: real)
    requires 0.0 < b && 0.0 < c
    ensures GapToLarger(b, c) == GapToLarger(c, b) && GapToSmaller(b, c) == GapToSmaller(c, b)
  {
    assert (c - b) * (c - b) == (b - c) * (b - c);
  }

  lemma TermBounds(ln: real -> real, b: real, c: real)
    requires LogLike(ln) && 0.0 < b && 0.0 < c
    ensures GapToLarger(b, c) <= Term(ln, b, c) <= GapToSmaller(b, c)
  {
    if b <= c {
      UpwardBounds(ln, b, c);
    } else {
      UpwardBounds(ln, c, b);
      TermSymmetric(ln, b, c);
      GapsSymmetric(b, c);
    }
  }

  lemma PositiveGap(b: real, c: real)
    requires 0.0 < b && 0.0 < c && b != c
    ensures 0.0 < GapToLarger(b, c)
    decreases b > c
  {
    if b < c {
      PositiveQuotient(c - b, c);
      PositiveProduct(c - b, (c - b) / c);
      GapAsProduct(b, c, c);
    } else {
      PositiveGap(c, b);
      GapsSymmetric(b, c);
    }
  }

  lemma PositiveQuotient(x: real, y: real)
    requires 0.0 < x && 0.0 < y
    ensures 0.0 < x / y
  {
  }

  lemma {:induction false} PsiOverBounds(ln: real -> real, b: seq<real>, c: seq<real>, bins: seq<Bin>)
    requires LogLike(ln) && b != [] && c != []
    ensures Gaps(GapToLarger, b, c, bins) <= PsiOver(ln, b, c, bins) <= Gaps(GapToSmaller, b, c, bins)
  {
    if bins != [] {
      var last := bins[|bins| - 1];
      PsiOverBounds(ln, b, c, bins[..|bins| - 1]);
      TermBounds(ln, Share(b, last), Share(c, last));
    }
  }

  /** The score is at least the bins' squared gaps relative to the larger share, and at most those
      relative to the smaller one. */
  lemma PsiBounds(ln: real -> real, b: seq<real>, c: seq<real>, bins: nat)
    requires LogLike(ln) && 1 <= bins && b != [] && c != [] && Low(b, c) < High(b, c)
    ensures var all := Bins(Low(b, c), High(b, c), bins);
      Gaps(GapToLarger, b, c, all) <= Psi(ln, b, c, bins) <= Gaps(GapToSmaller, b, c, all)
  {
    PsiOverBounds(ln, b, c, Bins(Low(b, c), High(b, c), bins));
  }

  ghost predicate Agree(b: seq<real>, c: seq<real>, bins: seq<Bin>)
    requires b != [] && c != []
  {
    forall i :: 0 <= i < |bins| ==> Share(b, bins[i]) == Share(c, bins[i])
  }

  lemma {:induction false} PsiOverZeroIff(ln: real -> real, b: seq<real>, c: seq<real>, bins: seq<Bin>)
    requires LogLike(ln) && b != [] && c != []
    ensures PsiOver(ln, b, c, bins) == 0.0 <==> Agree(b, c, bins)
  {
    if bins != [] {
      var init, last := bins[..|bins| - 1], bins[|bins| - 1];
      PsiOverZeroIff(ln, b, c, init);
      PsiOverNonnegative(ln, b, c, init);
      TermZeroIff(ln, Share(b, last), Share(c, last));
      assert Agree(b, c, bins) <==> Agree(b, c, init) && Share(b, last) == Share(c, last);
    }
  }

  lemma TermZeroIff(ln: real -> real, b: real, c: real)
    requires LogLike(ln) && 0.0 < b && 0.0 < c
    ensures 0.0 <= Term(ln, b, c) && (Term(ln, b, c) == 0.0 <==> b == c)
  {
    TermNonnegative(ln, b, c);
    TermBounds(ln, b, c);
    if b != c { PositiveGap(b, c); }
  }

  /** The score is zero exactly when a sample is empty, all samples are one value, or every bin has the
      same share of both samples. */
  lemma PsiZeroIff(ln: real -> real, b: seq<real>, c: seq<real>, bins: nat)
    requires LogLike(ln) && 1 <= bins
    ensures Psi(ln, b, c, bins) == 0.0 <==>
      b == [] || c == [] || Low(b, c) == High(b, c) || Agree(b, c, Bins(Low(b, c), High(b, c), bins))
  {
    if b != [] && c != [] { PsiOverZeroIff(ln, b, c, Bins(Low(b, c), High(b, c), bins)); }
  }

  lemma PermutationRange(a: seq<real>, b: seq<real>)
    requires a != [] && multiset(a) == multiset(b)
    ensures b != [] && Least(a) == Least(b) && Greatest(a) == Greatest(b)
  {
    PermutationCounts(a, b, x => true);
    assert forall x :: x in a <==> x in multiset(a);
    assert forall x :: x in b <==> x in multiset(b);
    LeastIs(a);
    LeastIs(b);
    GreatestIs(a);
    GreatestIs(b);
  }

  lemma PermutationShare(a: seq<real>, b: seq<real>, bin: Bin)
    requires a != [] && b != [] && multiset(a) == multiset(b)
    ensures Share(a, bin) == Share(b, bin)
  {
    PermutationCounts(a, b, Within(bin));
  }

  /** The order of the samples does not matter, in either sample. */
  lemma PsiPermutation(ln: real -> real, b: seq<real>, c: seq<real>, b': seq<real>, c': seq<real>, bins: nat)
    requires 1 <= bins && multiset(b) == multiset(b') && multiset(c) == multiset(c')
    ensures Psi(ln, b, c, bins) == Psi(ln, b', c', bins)
  {
    PermutationCounts(b, b', x => true);
    PermutationCounts(c, c', x => true);
    if b != [] && c != [] {
      PermutationRange(b, b');
      PermutationRange(c, c');
      var all := Bins(Low(b, c), High(b, c), bins);
      forall i | 0 <= i < |all| ensures Share(b, all[i]) == Share(b', all[i]) && Share(c, all[i]) == Share(c', all[i]) {
        PermutationShare(b, b', all[i]);
        PermutationShare(c, c', all[i]);
      }
      PsiOverShares(ln, b, c, all, b', c', all);
    }
  }

  // ------------------------------------------------------------------ affine invariance

  function Rescale(a: real, k: real, x: real): real {
    a * x + k
  }

  function Affine(a: real, k: real): real -> real {
    (x: real) => Rescale(a, k, x)
  }

  function Map(f: real -> real, s: seq<real>): (r: seq<real>)
    ensures |r| == |s| && forall i :: 0 <= i < |s| ==> r[i] == f(s[i])
  {
    seq(|s|, i requires 0 <= i < |s| => f(s[i]))
  }

  ghost predicate StrictlyIncreasing(f: real -> real) {
    forall x: real, y: real :: x < y ==> f(x) < f(y)
  }

  lemma AffineUp(a: real, k: real, x: real, y: real)
    requires 0.0 < a && x < y
    ensures Rescale(a, k, x) < Rescale(a, k, y)
  {
    PositiveProduct(a, y - x);
    assert a * (y - x) == a * y - a * x;
  }

  lemma AffineIncreases(a: real, k: real)
    requires 0.0 < a
    ensures StrictlyIncreasing(Affine(a, k))
  {
    forall x: real, y: real | x < y ensures Affine(a, k)(x) < Affine(a, k)(y) { AffineUp(a, k, x, y); }
  }

  lemma MapLeast(f: real -> real, s: seq<real>)
    requires StrictlyIncreasing(f) && s != []
    ensures Least(Map(f, s)) == f(Least(s))
  {
    var t := Map(f, s);
    LeastIs(s);
    LeastIs(t);
    var i :| 0 <= i < |s| && s[i] == Least(s);
    var j :| 0 <= j < |t| && t[j] == Least(t);
    assert t[i] in t && s[j] in s;
    assert Least(s) <= s[j] && Least(t) <= t[i];
  }

  lemma MapGreatest(f: real -> real, s: seq<real>)
    requires StrictlyIncreasing(f) && s != []
    ensures Greatest(Map(f, s)) == f(Greatest(s))
  {
    var t := Map(f, s);
    GreatestIs(s);
    GreatestIs(t);
    var i :| 0 <= i < |s| && s[i] == Greatest(s);
    var j :| 0 <= j < |t| && t[j] == Greatest(t);
    assert t[i] in t && s[j] in s;
    assert s[j] <= Greatest(s) && t[i] <= Greatest(t);
  }

  lemma MapShare(f: real -> real, s: seq<real>, bin: Bin)
    requires StrictlyIncreasing(f) && s != []
    ensures Share(Map(f, s), Bin(f(bin.lower), f(bin.upper))) == Share(s, bin)
  {
    CountsCorrespond(s, Within(bin), Map(f, s), Within(Bin(f(bin.lower), f(bin.upper))));
  }

  lemma AffineStep(a: real, k: real, low: real, high: real, n: real)
    requires 0.0 < n
    ensures (Rescale(a, k, high) - Rescale(a, k, low)) / n == a * ((high - low) / n)
  {
    assert Rescale(a, k, high) - Rescale(a, k, low) == a * (high - low);
  }

  lemma AffineLower(a: real, k: real, low: real, step: real, i: real)
    ensures Rescale(a, k, low) + (a * step) * i == Rescale(a, k, low + step * i)
  {
  }

  lemma AffineUpper(a: real, k: real, lower: real, step: real)
    ensures Rescale(a, k, lower) + a * step == Rescale(a, k, lower + step)
  {
  }

  lemma AffineBin(a: real, k: real, low: real, high: real, bins: nat, index: nat)
    requires index < bins
    ensures var b := BinAt(low, high, bins, index);
      BinAt(Rescale(a, k, low), Rescale(a, k, high), bins, index) == Bin(Rescale(a, k, b.lower), Rescale(a, k, b.upper))
  {
    var step, i := (high - low) / bins as real, index as real;
    AffineStep(a, k, low, high, bins as real);
    AffineLower(a, k, low, step, i);
    AffineUpper(a, k, low + step * i, step);
  }

  lemma RangeOfMaps(f: real -> real, b: seq<real>, c: seq<real>)
    requires StrictlyIncreasing(f) && b != [] && c != []
    ensures Low(Map(f, b), Map(f, c)) == f(Low(b, c)) && High(Map(f, b), Map(f, c)) == f(High(b, c))
  {
    MapLeast(f, b);
    MapLeast(f, c);
    MapGreatest(f, b);
    MapGreatest(f, c);
    var l, m, g, h := Least(b), Least(c), Greatest(b), Greatest(c);
    assert l < m ==> f(l) < f(m);
    assert m < l ==> f(m) < f(l);
    assert g < h ==> f(g) < f(h);
    assert h < g ==> f(h) < f(g);
  }

  /** Changing the unit and the origin of both samples leaves the score unchanged. */
  lemma PsiAffine(ln: real -> real, b: seq<real>, c: seq<real>, bins: nat, a: real, k: real)
    requires 1 <= bins && 0.0 < a
    ensures Psi(ln, Map(Affine(a, k), b), Map(Affine(a, k), c), bins) == Psi(ln, b, c, bins)
  {
    if b != [] && c != [] {
      var f := Affine(a, k);
      AffineIncreases(a, k);
      RangeOfMaps(f, b, c);
      var low, high := Low(b, c), High(b, c);
      var all, mapped := Bins(low, high, bins), Bins(f(low), f(high), bins);
      forall i | 0 <= i < bins
        ensures Share(b, all[i]) == Share(Map(f, b), mapped[i]) && Share(c, all[i]) == Share(Map(f, c), mapped[i])
      {
        AffineBin(a, k, low, high, bins, i);
        MapShare(f, b, all[i]);
        MapShare(f, c, all[i]);
      }
      PsiOverShares(ln, b, c, all, Map(f, b), Map(f, c), mapped);
    }
  }

  // ------------------------------------------------------------------ the bins tile the range

  function Edge(low: real, high: real, bins: nat, i: nat): real
    requires 1 <= bins
  {
    low + (high - low) / bins as real * i as real
  }

  function OnEdge(low: real, high: real, bins: nat, i: nat): real -> bool
    requires 1 <= bins
  {
    (x: real) => x == Edge(low, high, bins, i)
  }

  /** All bin counts together. */
  function Tally(s: seq<real>, bins: seq<Bin>): nat {
    if bins == [] then 0 else Tally(s, bins[..|bins| - 1]) + Count(s, Within(bins[|bins| - 1]))
  }

  /** Samples on the interior edges `1`, ..., `n - 1`. */
  function EdgeHits(s: seq<real>, low: real, high: real, bins: nat, n: nat): nat
    requires 1 <= bins
  {
    if n <= 1 then 0 else EdgeHits(s, low, high, bins, n - 1) + Count(s, OnEdge(low, high, bins, n - 1))
  }

  function AtMost(x: real): real -> bool {
    (y: real) => y <= x
  }

  lemma EdgesIncrease(low: real, high: real, bins: nat, i: nat)
    requires 1 <= bins && low < high
    ensures Edge(low, high, bins, i) < Edge(low, high, bins, i + 1)
    ensures Edge(low, high, bins, 0) == low && Edge(low, high, bins, bins) == high
  {
    var step := (high - low) / bins as real;
    assert step > 0.0;
    assert step * (i + 1) as real == step * i as real + step;
    assert step * bins as real == high - low;
  }

  lemma BinIsBetweenEdges(low: real, high: real, bins: nat, i: nat)
    requires i < bins && low < high
    ensures BinAt(low, high, bins, i) == Bin(Edge(low, high, bins, i), Edge(low, high, bins, i + 1))
  {
    var step := (high - low) / bins as real;
    assert step * (i + 1) as real == step * i as real + step;
    EdgesIncrease(low, high, bins, i);
  }

  /** Samples up to the upper edge are those up to the lower one, plus those in the bin, minus those
      on the lower edge, counted twice. */
  lemma {:induction false} OneMoreBin(s: seq<real>, e: real, f: real)
    requires e < f
    ensures Count(s, AtMost(f)) + Count(s, x => x == e) == Count(s, AtMost(e)) + Count(s, Within(Bin(e, f)))
  {
    if s != [] { OneMoreBin(s[1..], e, f); }
  }

  lemma {:induction false} TallyUpTo(s: seq<real>, low: real, high: real, bins: nat, n: nat)
    requires 1 <= n <= bins && low < high && forall x :: x in s ==> low <= x <= high
    ensures Tally(s, Bins(low, high, bins)[..n]) == Count(s, AtMost(Edge(low, high, bins, n))) + EdgeHits(s, low, high, bins, n)
  {
    var all, i := Bins(low, high, bins), n - 1;
    var e, f := Edge(low, high, bins, i), Edge(low, high, bins, n);
    assert all[..n][..i] == all[..i] && all[..n][i] == all[i];
    EdgesIncrease(low, high, bins, i);
    BinIsBetweenEdges(low, high, bins, i);
    OneMoreBin(s, e, f);
    CountsCorrespond(s, x => x == e, s, OnEdge(low, high, bins, i));
    if n == 1 {
      assert all[..0] == [];
      assert forall j :: 0 <= j < |s| ==> s[j] in s;
      CountsCorrespond(s, x => x == e, s, AtMost(e));
    } else {
      TallyUpTo(s, low, high, bins, i);
    }
  }

  /** Bin tiling: the bin counts add up to the sample size plus the samples on interior edges, each
      of which falls into two bins. */
  lemma BinsTile(s: seq<real>, low: real, high: real, bins: nat)
    requires 1 <= bins && low < high && forall x :: x in s ==> low <= x <= high
    ensures Tally(s, Bins(low, high, bins)) == |s| + EdgeHits(s, low, high, bins, bins)
  {
    var all := Bins(low, high, bins);
    assert all[..bins] == all;
    TallyUpTo(s, low, high, bins, bins);
    EdgesIncrease(low, high, bins, bins);
    assert forall j :: 0 <= j < |s| ==> s[j] in s;
    AllCounted(s, AtMost(high));
  }

  lemma {:induction false} AllCounted(s: seq<real>, p: real -> bool)
    requires forall j :: 0 <= j < |s| ==> p(s[j])
    ensures Count(s, p) == |s|
  {
    if s != [] { AllCounted(s[1..], p); }
  }

  lemma {:induction false} EdgesAscend(low: real, high: real, bins: nat, i: nat, j: nat)
    requires 1 <= bins && low < high && i < j
    ensures Edge(low, high, bins, i) < Edge(low, high, bins, j)
  {
    EdgesIncrease(low, high, bins, j - 1);
    if i < j - 1 { EdgesAscend(low, high, bins, i, j - 1); }
  }

  /** `x` lies on one of the interior edges `1`, ..., `n - 1`. */
  predicate OnInterior(x: real, low: real, high: real, bins: nat, n: nat)
    requires 1 <= bins
  {
    exists i :: 1 <= i < n && x == Edge(low, high, bins, i)
  }

  /** A sample lies on at most one interior edge. */
  lemma {:induction false} EdgeHitsOne(x: real, low: real, high: real, bins: nat, n: nat)
    requires 1 <= bins && low < high
    ensures EdgeHits([x], low, high, bins, n) == One(OnInterior(x, low, high, bins, n))
  {
    if n > 1 {
      EdgeHitsOne(x, low, high, bins, n - 1);
      assert [x][1..] == [];
      if x == Edge(low, high, bins, n - 1) {
        forall i | 1 <= i < n - 1 ensures x != Edge(low, high, bins, i) { EdgesAscend(low, high, bins, i, n - 1); }
      }
    }
  }

  /** In how many bins `x` is counted. */
  function BinsOf(x: real, bins: seq<Bin>): nat {
    if bins == [] then 0 else BinsOf(x, bins[..|bins| - 1]) + One(Within(bins[|bins| - 1])(x))
  }

  lemma {:induction false} TallyOne(x: real, bins: seq<Bin>)
    ensures Tally([x], bins) == BinsOf(x, bins)
  {
    if bins != [] {
      TallyOne(x, bins[..|bins| - 1]);
      assert [x][1..] == [];
    }
  }

  /** Each sample falls into exactly one bin, or into exactly two when it lies on an interior edge. */
  lemma SampleInBins(x: real, low: real, high: real, bins: nat)
    requires 1 <= bins && low < high && low <= x <= high
    ensures BinsOf(x, Bins(low, high, bins)) == if OnInterior(x, low, high, bins, bins) then 2 else 1
  {
    BinsTile([x], low, high, bins);
    TallyOne(x, Bins(low, high, bins));
    EdgeHitsOne(x, low, high, bins, bins);
  }
}
