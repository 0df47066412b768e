/** The Jensen-Shannon divergence with its clamps, over exact reals. */
module Divergence {
  import opened Reals
  import opened Drift

  const EPSILON: real := 0.000000001

  /** `max(value, 1e-9)` */
  function Clamp(x: real): real {
    Max(x, EPSILON)
  }

  /** One summand of `kl_divergence`. */
  function KlTerm(ln: real -> real, p: real, q: real): real {
    Clamp(p) * ln(Clamp(p) / Clamp(q))
  }

  /** The summands of two lists of one length. */
  function Kl(ln: real -> real, p: seq<real>, q: seq<real>): real
    requires |p| == |q|
  {
    if p == [] then 0.0 else Kl(ln, p[..|p| - 1], q[..|q| - 1]) + KlTerm(ln, p[|p| - 1], q[|q| - 1])
  }

  function Shorter(a: nat, b: nat): nat {
    if a <= b then a else b
  }

  /** `kl_divergence`; the longer list is cut. */
  method KlDivergence(ln: real -> real, p: seq<real>, q: seq<real>) returns (total: real)
    ensures total == Kl(ln, p[..Shorter(|p|, |q|)], q[..Shorter(|p|, |q|)])
  {
    total := 0.0;
    var size := Shorter(|p|, |q|);
    for i := 0 to size
      invariant total == Kl(ln, p[..i], q[..i])
    {
      var pSafe := Clamp(p[i]);
      var qSafe := Clamp(q[i]);
      assert KlTerm(ln, p[i], q[i]) == pSafe * ln(pSafe / qSafe);
      total := total + pSafe * ln(pSafe / qSafe);
      assert p[..i + 1][..i] == p[..i] && q[..i + 1][..i] == q[..i];
    }
  }

  function Sum(s: seq<real>): real {
    if s == [] then 0.0 else Sum(s[..|s| - 1]) + s[|s| - 1]
  }

  /** `sum(values) or 1.0` */
  function Divisor(s: seq<real>): (d: real)
    ensures d != 0.0
  {
    if Sum(s) == 0.0 then 1.0 else Sum(s)
  }

  function Normalise(s: seq<real>): seq<real> {
    Map(x => x / Divisor(s), s)
  }

  function Midpoint(p: seq<real>, q: seq<real>): (m: seq<real>)
    requires |p| == |q|
    ensures |m| == |p|
  {
    seq(|p|, i requires 0 <= i < |p| => (p[i] + q[i]) / 2.0)
  }

  /** The divergence of two normalised lists of one length. */
  function Js(ln: real -> real, p: seq<real>, q: seq<real>): real
    requires |p| == |q|
  {
    0.5 * Kl(ln, p, Midpoint(p, q)) + 0.5 * Kl(ln, q, Midpoint(p, q))
  }

  function JensenShannon(ln: real -> real, baseline: seq<real>, current: seq<real>): real {
    if baseline == [] || current == [] then 0.0
    else
      var size := Shorter(|baseline|, |current|);
      Js(ln, Normalise(baseline[..size]), Normalise(current[..size]))
  }

  // ------------------------------------------------------------------ one summand

  /** What one position contributes. */
  function JsTerm(ln: real -> real, p: real, q: real): real {
    0.5 * KlTerm(ln, p, (p + q) / 2.0) + 0.5 * KlTerm(ln, q, (p + q) / 2.0)
  }

  function SumOver(f: (real, real) -> real, p: seq<real>, q: seq<real>): real
    requires |p| == |q|
  {
    if p == [] then 0.0 else SumOver(f, p[..|p| - 1], q[..|q| - 1]) + f(p[|p| - 1], q[|q| - 1])
  }

  function JsTerms(ln: real -> real): (real, real) -> real {
    (p: real, q: real) => JsTerm(ln, p, q)
  }

  function JsSum(ln: real -> real, p: seq<real>, q: seq<real>): real
    requires |p| == |q|
  {
    SumOver(JsTerms(ln), p, q)
  }

  lemma {:induction false} JsIsSum(ln: real -> real, p: seq<real>, q: seq<real>)
    requires |p| == |q|
    ensures Js(ln, p, q) == JsSum(ln, p, q)
  {
    if p != [] {
      var n := |p| - 1;
      JsIsSum(ln, p[..n], q[..n]);
      assert Midpoint(p, q)[..n] == Midpoint(p[..n], q[..n]);
    }
  }

  /** `x ln(x / y) >= x - y` */
  lemma LogGap(ln: real -> real, x: real, y: real)
    requires LogLike(ln) && 0.0 < x && 0.0 < y
    ensures x - y <= x * ln(x / y)
  {
    QuotientFlips(x, y);
    assert Tangent(ln, x / y);
    ScaledLeft(x, 1.0 - y / x, ln(x / y));
    Cancel(x, y);
  }

  lemma Cancel(x: real, y: real)
    requires 0.0 < x
    ensures x * (1.0 - y / x) == x - y
  {
    assert x * (y / x) == y;
  }

  /** Clamping the midpoint never exceeds the midpoint of the clamped values. */
  lemma ClampedMidpoint(p: real, q: real)
    ensures 2.0 * Clamp((p + q) / 2.0) <= Clamp(p) + Clamp(q)
  {
  }

  lemma JsTermNonnegative(ln: real -> real, p: real, q: real)
    requires LogLike(ln)
    ensures 0.0 <= JsTerm(ln, p, q)
  {
    var m := (p + q) / 2.0;
    LogGap(ln, Clamp(p), Clamp(m));
    LogGap(ln, Clamp(q), Clamp(m));
    ClampedMidpoint(p, q);
  }

  lemma JsTermSymmetric(ln: real -> real, p: real, q: real)
    ensures JsTerm(ln, p, q) == JsTerm(ln, q, p)
  {
    assert (p + q) / 2.0 == (q + p) / 2.0;
  }

  lemma JsTermSame(ln: real -> real, p: real)
    requires LogLike(ln)
    ensures JsTerm(ln, p, p) == 0.0
  {
    LogOfOne(ln);
    assert (p + p) / 2.0 == p;
    assert Clamp(p) / Clamp(p) == 1.0;
  }

  lemma LogOfTwo(ln: real -> real)
    requires LogLike(ln)
    ensures 0.0 <= ln(2.0)
  {
    LogOfOne(ln);
    assert Ordered(ln, 1.0, 2.0);
  }

  lemma AtMostTwice(x: real, y: real)
    requires 0.0 < y && x <= 2.0 * y
    ensures x / y <= 2.0
  {
    Scaled(x, 2.0 * y, 1.0 / y);
    assert x * (1.0 / y) == x / y;
    assert (2.0 * y) * (1.0 / y) == 2.0;
  }

  /** Against a midpoint, a nonnegative value is at most twice as large. */
  lemma KlTermBounded(ln: real -> real, p: real, q: real)
    requires LogLike(ln) && 0.0 <= p && 0.0 <= q
    ensures KlTerm(ln, p, (p + q) / 2.0) <= (p + EPSILON) * ln(2.0)
  {
    var x, y := Clamp(p), Clamp((p + q) / 2.0);
    QuotientFlips(x, y);
    AtMostTwice(x, y);
    LogOfTwo(ln);
    assert Ordered(ln, x / y, 2.0);
    ScaledLeft(x, ln(x / y), ln(2.0));
    Scaled(x, p + EPSILON, ln(2.0));
  }

  lemma JsTermBounded(ln: real -> real, p: real, q: real)
    requires LogLike(ln) && 0.0 <= p && 0.0 <= q
    ensures JsTerm(ln, p, q) <= Times(ln(2.0))(0.5 * p + 0.5 * q + EPSILON)
  {
    KlTermBounded(ln, p, q);
    KlTermBounded(ln, q, p);
    assert (p + q) / 2.0 == (q + p) / 2.0;
    ChargedTwice(p, q, ln(2.0));
  }

  function Times(c: real): real -> real {
    (x: real) => x * c
  }

  lemma ChargedTwice(p: real, q: real, c: real)
    ensures 0.5 * ((p + EPSILON) * c) + 0.5 * ((q + EPSILON) * c) == Times(c)(0.5 * p + 0.5 * q + EPSILON)
  {
  }

  // ------------------------------------------------------------------ the score

  lemma {:induction false} JsSumNonnegative(ln: real -> real, p: seq<real>, q: seq<real>)
    requires LogLike(ln) && |p| == |q|
    ensures 0.0 <= JsSum(ln, p, q)
  {
    if p != [] {
      JsSumNonnegative(ln, p[..|p| - 1], q[..|q| - 1]);
      JsTermNonnegative(ln, p[|p| - 1], q[|q| - 1]);
    }
  }

  lemma {:induction false} JsSumSymmetric(ln: real -> real, p: seq<real>, q: seq<real>)
    requires |p| == |q|
    ensures JsSum(ln, p, q) == JsSum(ln, q, p)
  {
    if p != [] {
      JsSumSymmetric(ln, p[..|p| - 1], q[..|q| - 1]);
      JsTermSymmetric(ln, p[|p| - 1], q[|q| - 1]);
    }
  }

  lemma {:induction false} JsSumSame(ln: real -> real, p: seq<real>)
    requires LogLike(ln)
    ensures JsSum(ln, p, p) == 0.0
  {
    if p != [] {
      JsSumSame(ln, p[..|p| - 1]);
      JsTermSame(ln, p[|p| - 1]);
    }
  }

  /** The weights of all positions: half of each list, and one clamp a position. */
  function Weight(p: seq<real>, q: seq<real>): real
    requires |p| == |q|
  {
    if p == [] then 0.0 else Weight(p[..|p| - 1], q[..|q| - 1]) + (0.5 * p[|p| - 1] + 0.5 * q[|q| - 1] + EPSILON)
  }

  lemma {:induction false} WeightIs(p: seq<real>, q: seq<real>)
    requires |p| == |q|
    ensures Weight(p, q) == 0.5 * Sum(p) + 0.5 * Sum(q) + |p| as real * EPSILON
  {
    if p != [] { WeightIs(p[..|p| - 1], q[..|q| - 1]); }
  }

  ghost predicate Additive(h: real -> real) {
    forall x: real, y: real :: Adds(h, x, y)
  }

  predicate Adds(h: real -> real, x: real, y: real) {
    h(x + y) == h(x) + h(y)
  }

  ghost predicate Bounds(f: (real, real) -> real, h: real -> real) {
    forall x: real, y: real :: 0.0 <= x && 0.0 <= y ==> f(x, y) <= h(0.5 * x + 0.5 * y + EPSILON)
  }

  ghost predicate AllNonnegative(s: seq<real>) {
    forall i :: 0 <= i < |s| ==> 0.0 <= s[i]
  }

  lemma {:induction false} SumBounded(f: (real, real) -> real, h: real -> real, p: seq<real>, q: seq<real>)
    requires Additive(h) && Bounds(f, h) && |p| == |q| && AllNonnegative(p) && AllNonnegative(q)
    ensures SumOver(f, p, q) <= h(Weight(p, q))
  {
    if p == [] {
      assert Adds(h, 0.0, 0.0);
    } else {
      var n := |p| - 1;
      SumBounded(f, h, p[..n], q[..n]);
      assert Adds(h, Weight(p[..n], q[..n]), 0.5 * p[n] + 0.5 * q[n] + EPSILON);
    }
  }

  lemma TimesIsAdditive(c: real)
    ensures Additive(Times(c))
  {
    forall x: real, y: real ensures Adds(Times(c), x, y) { Distribute(x, y, c); }
  }

  lemma Distribute(x: real, y: real, c: real)
    ensures (x + y) * c == x * c + y * c
  {
  }

  lemma JsTermsBounded(ln: real -> real)
    requires LogLike(ln)
    ensures Bounds(JsTerms(ln), Times(ln(2.0)))
  {
    forall p: real, q: real | 0.0 <= p && 0.0 <= q ensures JsTerms(ln)(p, q) <= Times(ln(2.0))(0.5 * p + 0.5 * q + EPSILON) {
      JsTermBounded(ln, p, q);
    }
  }

  lemma BoundOfWeight(w: real, n: nat, c: real)
    requires w <= 1.0 + n as real * EPSILON && 0.0 <= c
    ensures Times(c)(w) <= c * (1.0 + n as real * EPSILON)
  {
    var bound := 1.0 + n as real * EPSILON;
    Scaled(w, bound, c);
    assert bound * c == c * bound;
  }

  lemma WeightBounded(p: seq<real>, q: seq<real>)
    requires |p| == |q| && Sum(p) <= 1.0 && Sum(q) <= 1.0
    ensures Weight(p, q) <= 1.0 + |p| as real * EPSILON
  {
    WeightIs(p, q);
  }

  /** `h` of anything up to a full list's weight stays within `limit`. */
  ghost predicate Within(h: real -> real, n: nat, limit: real) {
    forall w: real :: w <= 1.0 + n as real * EPSILON ==> h(w) <= limit
  }

  lemma SumWithin(f: (real, real) -> real, h: real -> real, limit: real, p: seq<real>, q: seq<real>)
    requires Additive(h) && Bounds(f, h) && |p| == |q| && Within(h, |p|, limit)
    requires AllNonnegative(p) && AllNonnegative(q) && Sum(p) <= 1.0 && Sum(q) <= 1.0
    ensures SumOver(f, p, q) <= limit
  {
    SumBounded(f, h, p, q);
    WeightBounded(p, q);
  }

  lemma TimesWithin(c: real, n: nat)
    requires 0.0 <= c
    ensures Within(Times(c), n, c * (1.0 + n as real * EPSILON))
  {
    forall w: real | w <= 1.0 + n as real * EPSILON ensures Times(c)(w) <= c * (1.0 + n as real * EPSILON) { BoundOfWeight(w, n, c); }
  }

  lemma JsTermsAdd(ln: real -> real, n: nat)
    requires LogLike(ln)
    ensures Additive(Times(ln(2.0))) && Bounds(JsTerms(ln), Times(ln(2.0)))
    ensures Within(Times(ln(2.0)), n, ln(2.0) * (1.0 + n as real * EPSILON)) && 0.0 <= ln(2.0) * (1.0 + n as real * EPSILON)
  {
    LogOfTwo(ln);
    Product(ln(2.0), 1.0 + n as real * EPSILON);
    TimesIsAdditive(ln(2.0));
    JsTermsBounded(ln);
    TimesWithin(ln(2.0), n);
  }

  lemma {:induction false} SumOfQuotients(s: seq<real>, d: real)
    requires d != 0.0
    ensures Sum(Map(x => x / d, s)) == Sum(s) / d
  {
    if s != [] {
      var n := |s| - 1;
      SumOfQuotients(s[..n], d);
      assert Map(x => x / d, s)[..n] == Map(x => x / d, s[..n]);
      assert Sum(s[..n]) / d + s[n] / d == (Sum(s[..n]) + s[n]) / d;
    }
  }

  lemma {:induction false} SumNonnegative(s: seq<real>)
    requires AllNonnegative(s)
    ensures 0.0 <= Sum(s)
  {
    if s != [] { SumNonnegative(s[..|s| - 1]); }
  }

  lemma NormalisedSum(s: seq<real>)
    requires AllNonnegative(s)
    ensures Sum(Normalise(s)) <= 1.0 && AllNonnegative(Normalise(s))
  {
    SumNonnegative(s);
    SumOfQuotients(s, Divisor(s));
    assert Sum(s) / Divisor(s) <= 1.0;
  }

  lemma JsNonnegative(ln: real -> real, b: seq<real>, c: seq<real>)
    requires LogLike(ln)
    ensures 0.0 <= JensenShannon(ln, b, c)
  {
    if b != [] && c != [] {
      var n := Shorter(|b|, |c|);
      JsIsSum(ln, Normalise(b[..n]), Normalise(c[..n]));
      JsSumNonnegative(ln, Normalise(b[..n]), Normalise(c[..n]));
    }
  }

  lemma JsSymmetric(ln: real -> real, b: seq<real>, c: seq<real>)
    ensures JensenShannon(ln, b, c) == JensenShannon(ln, c, b)
  {
    if b != [] && c != [] {
      var n := Shorter(|b|, |c|);
      JsIsSum(ln, Normalise(b[..n]), Normalise(c[..n]));
      JsIsSum(ln, Normalise(c[..n]), Normalise(b[..n]));
      JsSumSymmetric(ln, Normalise(b[..n]), Normalise(c[..n]));
    }
  }

  lemma JsOfEqual(ln: real -> real, b: seq<real>)
    requires LogLike(ln)
    ensures JensenShannon(ln, b, b) == 0.0
  {
    JsIsSum(ln, Normalise(b[..|b|]), Normalise(b[..|b|]));
    JsSumSame(ln, Normalise(b[..|b|]));
  }

  lemma NormalisedInputs(b: seq<real>, n: nat)
    requires AllNonnegative(b) && n <= |b|
    ensures Sum(Normalise(b[..n])) <= 1.0 && AllNonnegative(Normalise(b[..n]))
  {
    NormalisedSum(b[..n]);
  }

  lemma JsWithin(ln: real -> real, h: real -> real, limit: real, b: seq<real>, c: seq<real>)
    requires Additive(h) && Bounds(JsTerms(ln), h) && Within(h, Shorter(|b|, |c|), limit) && 0.0 <= limit
    requires AllNonnegative(b) && AllNonnegative(c)
    ensures JensenShannon(ln, b, c) <= limit
  {
    if b != [] && c != [] {
      var n := Shorter(|b|, |c|);
      var p, q := Normalise(b[..n]), Normalise(c[..n]);
      NormalisedInputs(b, n);
      NormalisedInputs(c, n);
      SumWithin(JsTerms(ln), h, limit, p, q);
      JsIsSum(ln, p, q);
    }
  }

  /** For nonnegative inputs the clamps raise the classical bound by at most one part in 1e9 a position. */
  lemma JsBounded(ln: real -> real, b: seq<real>, c: seq<real>)
    requires LogLike(ln) && AllNonnegative(b) && AllNonnegative(c)
    ensures JensenShannon(ln, b, c) <= ln(2.0) * (1.0 + Shorter(|b|, |c|) as real * EPSILON)
  {
    var n := Shorter(|b|, |c|);
    JsTermsAdd(ln, n);
    JsWithin(ln, Times(ln(2.0)), ln(2.0) * (1.0 + n as real * EPSILON), b, c);
  }

  lemma SignedTerm(ln: real -> real)
    requires LogLike(ln)
    ensures 0.5 <= ln(2.0) && 2.0 * ln(2.0) - 0.25 <= JsTerm(ln, 4.0, -3.0)
  {
    assert Tangent(ln, 2.0) && Ordered(ln, 2.0, 8.0);
    assert KlTerm(ln, 4.0, 0.5) == 4.0 * ln(8.0);
    LogGap(ln, EPSILON, 0.5);
    assert KlTerm(ln, -3.0, 0.5) == EPSILON * ln(EPSILON / 0.5);
  }

  /** The sign condition matters: entries that cancel in the sum make a normalised list large, and the
      score of these two lists exceeds the bound. */
  lemma SignsMatter(ln: real -> real)
    requires LogLike(ln)
    ensures JensenShannon(ln, [4.0, -3.0], [-3.0, 4.0]) > ln(2.0) * (1.0 + 2.0 * EPSILON)
  {
    var p, q := [4.0, -3.0], [-3.0, 4.0];
    assert p[..2] == p && q[..2] == q && p[..1] == [4.0] && q[..1] == [-3.0];
    assert Sum([4.0]) == 4.0 && Sum([-3.0]) == -3.0;
    assert Sum(p) == 1.0 && Sum(q) == 1.0;
    assert Normalise(p) == p && Normalise(q) == q;
    JsIsSum(ln, p, q);
    SignedTerm(ln);
    JsTermSymmetric(ln, 4.0, -3.0);
    assert JsSum(ln, [4.0], [-3.0]) == JsTerm(ln, 4.0, -3.0);
  }
}
