/** How large the Jensen-Shannon score is: between two multiples of the triangular discrimination of the
    clamped distributions, and so zero exactly when they agree. */
module Discrimination {
  import opened Reals
  import opened Drift
  import opened Divergence

  /** Two more properties of the natural logarithm: it turns products into sums, and the logarithmic mean
      of two positive numbers lies between their harmonic and their arithmetic mean. */
  ghost predicate LogSharp(ln: real -> real) {
    && LogLike(ln)
    && (forall x: real, y: real :: Multiplies(ln, x, y))
    && (forall a: real, b: real :: LogMean(ln, a, b))
  }

  predicate Multiplies(ln: real -> real, x: real, y: real) {
    0.0 < x && 0.0 < y ==> ln(x * y) == ln(x) + ln(y)
  }

  /** `2ab / (a + b) <= (a - b) / ln(a / b) <= (a + b) / 2`, multiplied out. */
  predicate LogMean(ln: real -> real, a: real, b: real) {
    0.0 < b <= a ==> 2.0 * (a - b) <= (a + b) * ln(a / b) && 2.0 * (a * b) * ln(a / b) <= (a + b) * (a - b)
  }

  // ------------------------------------------------------------------ two numbers and their mean

  lemma DivideOut(c: real, p: real, q: real)
    requires 0.0 < c && c * p <= c * q
    ensures p <= q
  {
    if q < p { PositiveProduct(c, p - q); }
  }

  /** `d * d / m` */
  function Relative(d: real, m: real): real
    requires m != 0.0
  {
    d * d / m
  }

  lemma RelativeIs(d: real, m: real)
    requires 0.0 < m
    ensures Relative(d, m) * m == d * d && 0.0 <= Relative(d, m)
  {
    var t := d * d / m;
    assert t * m == d * d;
    if d < 0.0 { Product(-d, -d); } else { Product(d, d); }
    assert 0.0 <= d * d;
    DivideOut(m, 0.0, t);
  }

  /** `(m + d) * l` from below and from above, for `l` within the bounds of `ln((m + d) / m)`. */
  lemma LargerPart(m: real, d: real, l: real, t: real)
    requires 0.0 <= d < m && t * m == d * d && 0.0 <= t
    requires 2.0 * d <= (m + d + m) * l && 2.0 * ((m + d) * m) * l <= (m + d + m) * d
    ensures d + t / 3.0 <= (m + d) * l <= d + t / 2.0
  {
    LargerBelow(m, d, l, t);
    LargerAbove(m, d, l, t);
  }

  lemma LargerBelow(m: real, d: real, l: real, t: real)
    requires 0.0 <= d < m && t * m == d * d && 0.0 <= t && 2.0 * d <= (m + d + m) * l
    ensures d + t / 3.0 <= (m + d) * l
  {
    var w, x := m + d + m, m + d;
    ScaledLeft(x, 2.0 * d, w * l);
    assert x * (w * l) == w * (x * l);
    assert x * (2.0 * d) == 2.0 * (m * d) + 2.0 * (d * d);
    assert w * d == 2.0 * (m * d) + d * d;
    Scaled(w, 3.0 * m, t / 3.0);
    assert (3.0 * m) * (t / 3.0) == t * m;
    assert w * (d + t / 3.0) == w * d + w * (t / 3.0);
    DivideOut(w, d + t / 3.0, x * l);
  }

  lemma LargerAbove(m: real, d: real, l: real, t: real)
    requires 0.0 <= d < m && t * m == d * d && 2.0 * ((m + d) * m) * l <= (m + d + m) * d
    ensures (m + d) * l <= d + t / 2.0
  {
    var x := m + d;
    assert 2.0 * (x * m) * l == (2.0 * m) * (x * l);
    assert (m + d + m) * d == (2.0 * m) * d + d * d;
    assert (2.0 * m) * (d + t / 2.0) == (2.0 * m) * d + t * m;
    DivideOut(2.0 * m, x * l, d + t / 2.0);
  }

  /** The same for `(m - d) * l`, with `l` within the bounds of `ln(m / (m - d))`. */
  lemma SmallerPart(m: real, d: real, l: real, t: real)
    requires 0.0 <= d < m && t * m == d * d && 0.0 <= t
    requires 2.0 * d <= (m + (m - d)) * l && 2.0 * (m * (m - d)) * l <= (m + (m - d)) * d
    ensures d - t <= (m - d) * l <= d - t / 2.0
  {
    SmallerBelow(m, d, l, t);
    SmallerAbove(m, d, l, t);
  }

  lemma SmallerBelow(m: real, d: real, l: real, t: real)
    requires 0.0 <= d < m && t * m == d * d && 0.0 <= t && 2.0 * d <= (m + (m - d)) * l
    ensures d - t <= (m - d) * l
  {
    var w, y := m + (m - d), m - d;
    ScaledLeft(y, 2.0 * d, w * l);
    assert y * (w * l) == w * (y * l);
    assert y * (2.0 * d) == 2.0 * (m * d) - 2.0 * (d * d);
    assert w * d == 2.0 * (m * d) - d * d;
    Scaled(m, w, t);
    assert m * t == t * m;
    assert w * (d - t) == w * d - w * t;
    DivideOut(w, d - t, y * l);
  }

  lemma SmallerAbove(m: real, d: real, l: real, t: real)
    requires 0.0 <= d < m && t * m == d * d && 2.0 * (m * (m - d)) * l <= (m + (m - d)) * d
    ensures (m - d) * l <= d - t / 2.0
  {
    var y := m - d;
    assert 2.0 * (m * y) * l == (2.0 * m) * (y * l);
    assert (m + (m - d)) * d == (2.0 * m) * d - d * d;
    assert (2.0 * m) * (d - t / 2.0) == (2.0 * m) * d - t * m;
    DivideOut(2.0 * m, y * l, d - t / 2.0);
  }

  /** The divergence of two numbers from `n`. */
  function From(ln: real -> real, x: real, y: real, n: real): real
    requires 0.0 < n
  {
    x * ln(x / n) + y * ln(y / n)
  }

  /** Half the squared difference over the sum. */
  function Apart(x: real, y: real): real
    requires 0.0 < x && 0.0 < y
  {
    Relative((x - y) / 2.0, (x + y) / 2.0)
  }

  lemma BothParts(m: real, d: real, l: real, k: real, t: real)
    requires 0.0 <= d < m && t * m == d * d && 0.0 <= t
    requires 2.0 * d <= (m + d + m) * l && 2.0 * ((m + d) * m) * l <= (m + d + m) * d
    requires 2.0 * d <= (m + (m - d)) * k && 2.0 * (m * (m - d)) * k <= (m + (m - d)) * d
    ensures 5.0 / 6.0 * t <= (m + d) * l + (m - d) * -k <= 1.5 * t
  {
    LargerPart(m, d, l, t);
    SmallerPart(m, d, k, t);
    assert (m - d) * -k == -((m - d) * k);
  }

  lemma FromMeanAround(ln: real -> real, m: real, d: real)
    requires LogSharp(ln) && 0.0 <= d < m
    ensures 5.0 / 6.0 * Relative(d, m) <= (m + d) * ln((m + d) / m) + (m - d) * ln((m - d) / m) <= 1.5 * Relative(d, m)
  {
    RelativeIs(d, m);
    assert LogMean(ln, m + d, m) && LogMean(ln, m, m - d);
    LogFlips(ln, m, m - d);
    BothParts(m, d, ln((m + d) / m), ln(m / (m - d)), Relative(d, m));
  }

  lemma FromMeanOrdered(ln: real -> real, x: real, y: real)
    requires LogSharp(ln) && 0.0 < y <= x
    ensures 5.0 / 6.0 * Apart(x, y) <= From(ln, x, y, (x + y) / 2.0) <= 1.5 * Apart(x, y)
  {
    var m, d := (x + y) / 2.0, (x - y) / 2.0;
    assert x == m + d && y == m - d;
    FromMeanAround(ln, m, d);
  }

  lemma ApartSymmetric(x: real, y: real)
    requires 0.0 < x && 0.0 < y
    ensures Apart(x, y) == Apart(y, x)
  {
    var d, e := (x - y) / 2.0, (y - x) / 2.0;
    assert d * d == e * e;
  }

  lemma FromMeanBounds(ln: real -> real, x: real, y: real)
    requires LogSharp(ln) && 0.0 < x && 0.0 < y
    ensures 5.0 / 6.0 * Apart(x, y) <= From(ln, x, y, (x + y) / 2.0) <= 1.5 * Apart(x, y)
  {
    if y <= x {
      FromMeanOrdered(ln, x, y);
    } else {
      FromMeanOrdered(ln, y, x);
      ApartSymmetric(x, y);
      assert (x + y) / 2.0 == (y + x) / 2.0;
    }
  }

  // ------------------------------------------------------------------ clamping the mean

  lemma LogOfChain(ln: real -> real, x: real, m: real, n: real)
    requires LogSharp(ln) && 0.0 < x && 0.0 < m && 0.0 < n
    ensures ln(x / n) == ln(x / m) + ln(m / n)
  {
    QuotientChain(x, m, n);
    LogOfProduct(ln, x / m, m / n, x / n);
  }

  lemma LogOfProduct(ln: real -> real, u: real, v: real, w: real)
    requires LogSharp(ln) && 0.0 < u && 0.0 < v && w == u * v
    ensures ln(w) == ln(u) + ln(v)
  {
    assert Multiplies(ln, u, v);
  }

  lemma LogOfRatio(ln: real -> real, m: real, n: real)
    requires LogSharp(ln) && 0.0 < n <= m
    ensures 0.0 <= ln(m / n) <= m / n - 1.0
  {
    LogAboveOne(ln, m, n);
    LogBounds(ln, n, m);
    QuotientOfGap(m, n, n);
    assert n / n == 1.0;
  }

  lemma QuotientChain(x: real, m: real, n: real)
    requires 0.0 < x && 0.0 < m && 0.0 < n
    ensures 0.0 < x / m && 0.0 < m / n && x / n == (x / m) * (m / n)
  {
    var u, v := x / m, m / n;
    assert u * m == x && v * n == m;
    assert (u * v) * n == u * (v * n);
    QuotientFlips(x, m);
    QuotientFlips(m, n);
  }

  lemma Shifted(x: real, y: real, l: real, h: real, k: real, e: real)
    requires 0.0 < x && 0.0 < y && 0.0 <= k <= e
    ensures x * l + y * h <= x * (l + k) + y * (h + k) <= x * l + y * h + (x + y) * e
  {
    Product(x + y, k);
    ScaledLeft(x + y, k, e);
    assert x * (l + k) + y * (h + k) == x * l + y * h + (x + y) * k;
  }

  /** What it costs to replace `m` by a smaller `n`. */
  lemma NearbyBounds(ln: real -> real, x: real, y: real, m: real, n: real, e: real)
    requires LogSharp(ln) && 0.0 < x && 0.0 < y && 0.0 < n <= m && e == m / n - 1.0
    ensures From(ln, x, y, m) <= From(ln, x, y, n) <= From(ln, x, y, m) + (x + y) * e
  {
    LogOfChain(ln, x, m, n);
    LogOfChain(ln, y, m, n);
    LogOfRatio(ln, m, n);
    Shifted(x, y, ln(x / m), ln(y / m), ln(m / n), e);
  }

  lemma NearbyWithin(ln: real -> real, x: real, y: real, m: real, n: real, e: real, k: real)
    requires LogSharp(ln) && 0.0 < x && 0.0 < y && 0.0 < n <= m && e == m / n - 1.0
    requires x + y == 2.0 * m && m - n <= EPSILON / 2.0 && EPSILON <= n && From(ln, x, y, m) <= k
    ensures From(ln, x, y, n) <= k + 1.5 * EPSILON
  {
    NearbyBounds(ln, x, y, m, n, e);
    ClampExcess(x + y, m, n, e);
  }

  lemma AgainstSmallerMean(ln: real -> real, x: real, y: real, n: real)
    requires LogSharp(ln) && 0.0 < x && 0.0 < y && 0.0 < n <= (x + y) / 2.0
    ensures 5.0 / 6.0 * Apart(x, y) <= From(ln, x, y, n)
    ensures (x + y) / 2.0 - n <= EPSILON / 2.0 && EPSILON <= n ==> From(ln, x, y, n) <= 1.5 * Apart(x, y) + 1.5 * EPSILON
  {
    var m := (x + y) / 2.0;
    FromMeanBounds(ln, x, y);
    NearbyBounds(ln, x, y, m, n, m / n - 1.0);
    if m - n <= EPSILON / 2.0 && EPSILON <= n { NearbyWithin(ln, x, y, m, n, m / n - 1.0, 1.5 * Apart(x, y)); }
  }

  lemma ClampsNearby(p: real, q: real)
    requires 0.0 <= p && 0.0 <= q
    ensures (Clamp(p) + Clamp(q)) / 2.0 - Clamp((p + q) / 2.0) <= EPSILON / 2.0
  {
  }

  lemma JsTermIs(ln: real -> real, p: real, q: real)
    ensures var x, y, n := Clamp(p), Clamp(q), Clamp((p + q) / 2.0);
      JsTerm(ln, p, q) == 0.5 * From(ln, x, y, n)
  {
  }

  /** What one position contributes, up to what its clamps add. */
  lemma JsTermBounds(ln: real -> real, p: real, q: real)
    requires LogSharp(ln)
    ensures 5.0 / 12.0 * Apart(Clamp(p), Clamp(q)) <= JsTerm(ln, p, q)
    ensures 0.0 <= p && 0.0 <= q ==> JsTerm(ln, p, q) <= 0.75 * Apart(Clamp(p), Clamp(q)) + 0.75 * EPSILON
  {
    ClampedMidpoint(p, q);
    JsTermIs(ln, p, q);
    AgainstSmallerMean(ln, Clamp(p), Clamp(q), Clamp((p + q) / 2.0));
    if 0.0 <= p && 0.0 <= q { ClampsNearby(p, q); }
  }

  lemma ClampExcess(w: real, m: real, n: real, e: real)
    requires 0.0 < n <= m && w == 2.0 * m && m - n <= EPSILON / 2.0 && EPSILON <= n && e == m / n - 1.0
    ensures w * e <= 1.5 * EPSILON
  {
    var u := m / n;
    assert u * n == m;
    QuotientBelow(m, n, 1.5);
    QuotientFlips(m, n);
    ExcessAt(w, u, n);
  }

  lemma ExcessAt(w: real, u: real, n: real)
    requires w == 2.0 * (u * n) && 2.0 * (u * n - n) <= EPSILON && 0.0 <= u <= 1.5
    ensures w * (u - 1.0) <= 1.5 * EPSILON
  {
    assert w * (u - 1.0) == (2.0 * (u * n - n)) * u;
    Scaled(2.0 * (u * n - n), EPSILON, u);
    ScaledLeft(EPSILON, u, 1.5);
  }

  lemma QuotientBelow(m: real, n: real, k: real)
    requires 0.0 < n && m <= k * n
    ensures m / n <= k
  {
    var u := m / n;
    assert n * u == m;
    DivideOut(n, u, k);
  }

  // ------------------------------------------------------------------ the score

  function ClampedApart(p: real, q: real): real {
    Apart(Clamp(p), Clamp(q))
  }

  /** The triangular discrimination of two lists, clamped. */
  function Triangle(p: seq<real>, q: seq<real>): real
    requires |p| == |q|
  {
    SumOver(ClampedApart, p, q)
  }

  lemma {:induction false} JsSumAbove(ln: real -> real, p: seq<real>, q: seq<real>)
    requires LogSharp(ln) && |p| == |q|
    ensures 5.0 / 12.0 * Triangle(p, q) <= JsSum(ln, p, q)
  {
    if p != [] {
      var n := |p| - 1;
      JsSumAbove(ln, p[..n], q[..n]);
      JsTermBounds(ln, p[n], q[n]);
    }
  }

  lemma {:induction false} JsSumBelow(ln: real -> real, p: seq<real>, q: seq<real>)
    requires LogSharp(ln) && |p| == |q| && AllNonnegative(p) && AllNonnegative(q)
    ensures JsSum(ln, p, q) <= 0.75 * (Triangle(p, q) + |p| as real * EPSILON)
  {
    if p != [] {
      var n := |p| - 1;
      JsSumBelow(ln, p[..n], q[..n]);
      JsTermBounds(ln, p[n], q[n]);
      assert |p| as real * EPSILON == n as real * EPSILON + EPSILON;
    }
  }

  /** The score of two lists, cut to one length and normalised, lies within fixed multiples of their
      triangular discrimination; for nonnegative entries the clamps add less than one part in 1e9 a
      position. */
  lemma JsBounds(ln: real -> real, b: seq<real>, c: seq<real>)
    requires LogSharp(ln) && b != [] && c != []
    ensures var n := Shorter(|b|, |c|);
      var t := Triangle(Normalise(b[..n]), Normalise(c[..n]));
      && 5.0 / 12.0 * t <= JensenShannon(ln, b, c)
      && (AllNonnegative(b) && AllNonnegative(c) ==> JensenShannon(ln, b, c) <= 0.75 * (t + n as real * EPSILON))
  {
    var n := Shorter(|b|, |c|);
    var p, q := Normalise(b[..n]), Normalise(c[..n]);
    JsIsSum(ln, p, q);
    JsSumAbove(ln, p, q);
    if AllNonnegative(b) && AllNonnegative(c) {
      NormalisedInputs(b, n);
      NormalisedInputs(c, n);
      JsSumBelow(ln, p, q);
    }
  }

  lemma RelativePositive(d: real, m: real)
    requires 0.0 < m && 0.0 < d
    ensures 0.0 < Relative(d, m)
  {
    PositiveQuotient(d, m);
    PositiveProduct(d, d / m);
    GapAsProduct(0.0, d, m);
  }

  lemma ApartPositive(x: real, y: real)
    requires 0.0 < x && 0.0 < y && x != y
    ensures 0.0 < Apart(x, y)
  {
    if y < x {
      RelativePositive((x - y) / 2.0, (x + y) / 2.0);
    } else {
      RelativePositive((y - x) / 2.0, (y + x) / 2.0);
      ApartSymmetric(x, y);
    }
  }

  lemma JsTermOfEqual(ln: real -> real, p: real, q: real)
    requires LogLike(ln) && Clamp(p) == Clamp(q)
    ensures JsTerm(ln, p, q) == 0.0
  {
    LogOfOne(ln);
    JsTermIs(ln, p, q);
    assert Clamp((p + q) / 2.0) == Clamp(p);
    assert Clamp(p) / Clamp(p) == 1.0;
  }

  lemma JsTermZeroIff(ln: real -> real, p: real, q: real)
    requires LogSharp(ln)
    ensures JsTerm(ln, p, q) == 0.0 <==> Clamp(p) == Clamp(q)
  {
    JsTermBounds(ln, p, q);
    if Clamp(p) == Clamp(q) { JsTermOfEqual(ln, p, q); } else { ApartPositive(Clamp(p), Clamp(q)); }
  }

  ghost predicate ClampedAlike(p: seq<real>, q: seq<real>)
    requires |p| == |q|
  {
    forall i :: 0 <= i < |p| ==> Clamp(p[i]) == Clamp(q[i])
  }

  lemma {:induction false} JsSumZeroIff(ln: real -> real, p: seq<real>, q: seq<real>)
    requires LogSharp(ln) && |p| == |q|
    ensures JsSum(ln, p, q) == 0.0 <==> ClampedAlike(p, q)
  {
    if p != [] {
      var n := |p| - 1;
      JsSumZeroIff(ln, p[..n], q[..n]);
      JsSumNonnegative(ln, p[..n], q[..n]);
      JsTermNonnegative(ln, p[n], q[n]);
      JsTermZeroIff(ln, p[n], q[n]);
      assert ClampedAlike(p, q) <==> ClampedAlike(p[..n], q[..n]) && Clamp(p[n]) == Clamp(q[n]);
    }
  }

  /** The score is zero exactly when a list is empty or the normalised lists agree up to the clamp, at
      every common position; whatever the signs. */
  lemma JsZeroIff(ln: real -> real, b: seq<real>, c: seq<real>)
    requires LogSharp(ln)
    ensures var n := Shorter(|b|, |c|);
      JensenShannon(ln, b, c) == 0.0 <==> b == [] || c == [] || ClampedAlike(Normalise(b[..n]), Normalise(c[..n]))
  {
    if b != [] && c != [] {
      var n := Shorter(|b|, |c|);
      JsIsSum(ln, Normalise(b[..n]), Normalise(c[..n]));
      JsSumZeroIff(ln, Normalise(b[..n]), Normalise(c[..n]));
    }
  }
}
