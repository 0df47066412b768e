/** Anomaly detection over exact reals: z-scores, rolling deviations and thresholds on the latest
    sample. The square root is a parameter. */
module Anomaly {
  import opened Events
  import opened Reals
  import opened Detection
  import opened Drift

  ghost predicate RootLike(root: real -> real) {
    forall x: real :: IsRoot(root, x)
  }

  predicate IsRoot(root: real -> real, x: real) {
    0.0 <= x ==> 0.0 <= root(x) && root(x) * root(x) == x
  }

  // ------------------------------------------------------------------ mean and deviation

  function Total(s: seq<real>): real {
    if s == [] then 0.0 else Total(s[..|s| - 1]) + s[|s| - 1]
  }

  function Mean(s: seq<real>): real
    requires s != []
  {
    Total(s) / |s| as real
  }

  function Square(x: real): real {
    x * x
  }

  function Deviation(m: real): real -> real {
    (x: real) => Square(x - m)
  }

  /** The population variance. */
  function Variance(s: seq<real>): real
    requires s != []
  {
    Mean(Map(Deviation(Mean(s)), s))
  }

  /** `pstdev(baseline) or 1e-6` */
  function Scale(std: real): real {
    if std == 0.0 then 0.000001 else std
  }

  /** Where the latest sample lies among those before it: mean and deviation of the baseline, and the
      latest sample. */
  datatype Standing = Standing(mean: real, std: real, observed: real)

  function Stand(root: real -> real, values: seq<real>): Standing
    requires |values| >= 2
  {
    var baseline := values[..|values| - 1];
    Standing(Mean(baseline), root(Variance(baseline)), values[|values| - 1])
  }

  function Distance(s: Standing): real {
    (s.observed - s.mean) / Scale(s.std)
  }

  function Abs(x: real): real {
    if x < 0.0 then -x else x
  }

  // ------------------------------------------------------------------ detectors

  datatype AnomalyType = LatencySpike | CostSpike | ErrorSpike

  datatype Finding = Finding(anomalyType: AnomalyType, severity: Severity, score: real, baselineValue: real, observedValue: real, reason: string)

  datatype Detector =
    | ThresholdRule(threshold: real, ruleType: AnomalyType)
    | RollingStd(windowSize: nat, multiplier: real)
    | ZScore(zThreshold: real, zType: AnomalyType)

  /** Configurations under which no detector divides by zero or looks into an empty window. */
  predicate Usable(d: Detector) {
    match d
    case ThresholdRule(t, _) => t != 0.0
    case RollingStd(w, _) => w >= 2
    case ZScore(_, _) => true
  }

  function DetectThreshold(d: Detector, values: seq<real>): Option<Finding>
    requires d.ThresholdRule? && Usable(d)
  {
    if values == [] then None
    else
      var observed := values[|values| - 1];
      if observed > d.threshold then
        Some(Finding(d.ruleType, Critical, observed / d.threshold, d.threshold, observed, "threshold_exceeded"))
      else None
  }

  /** `score` and whether the latest sample exceeds the rolling limit, with the values to report. */
  function RollingFinding(exceeds: bool, score: real, mean: real, observed: real): Option<Finding> {
    if exceeds then Some(Finding(ErrorSpike, Warning, score, mean, observed, "rolling_std_exceeded")) else None
  }

  predicate Exceeds(s: Standing, multiplier: real) {
    s.observed > s.mean + Scale(s.std) * multiplier
  }

  /** What a rolling detector says of one full window. */
  function WindowFinding(root: real -> real, multiplier: real): seq<real> -> Option<Finding> {
    (window: seq<real>) =>
      if |window| < 2 then None
      else
        var s := Stand(root, window);
        RollingFinding(Exceeds(s, multiplier), Distance(s), s.mean, s.observed)
  }

  function OnLastWindow(size: nat, values: seq<real>, say: seq<real> -> Option<Finding>): Option<Finding> {
    if |values| < 3 || |values| < size then None else say(values[|values| - size..])
  }

  function DetectRolling(root: real -> real, d: Detector, values: seq<real>): Option<Finding>
    requires d.RollingStd? && Usable(d)
  {
    OnLastWindow(d.windowSize, values, WindowFinding(root, d.multiplier))
  }

  function ZScoreFinding(d: Detector, z: real, mean: real, observed: real): Option<Finding>
    requires d.ZScore?
  {
    if z >= d.zThreshold then
      Some(Finding(d.zType, if z >= d.zThreshold * 1.5 then Critical else Warning, z, mean, observed, "zscore_exceeded"))
    else None
  }

  function DetectZScore(root: real -> real, d: Detector, values: seq<real>): Option<Finding>
    requires d.ZScore?
  {
    if |values| < 5 then None
    else
      var s := Stand(root, values);
      ZScoreFinding(d, Abs(Distance(s)), s.mean, s.observed)
  }

  function Detect(root: real -> real, d: Detector, values: seq<real>): Option<Finding>
    requires Usable(d)
  {
    match d
    case ThresholdRule(_, _) => DetectThreshold(d, values)
    case RollingStd(_, _) => DetectRolling(root, d, values)
    case ZScore(_, _) => DetectZScore(root, d, values)
  }

  predicate AllUsable(ds: seq<Detector>) {
    forall i :: 0 <= i < |ds| ==> Usable(ds[i])
  }

  function Reports(root: real -> real, values: seq<real>): Detector -> Option<Finding> {
    (d: Detector) => if Usable(d) then Detect(root, d, values) else None
  }

  /** The findings of all detectors, in detector order. */
  function Findings(root: real -> real, ds: seq<Detector>, values: seq<real>): seq<Finding>
    requires AllUsable(ds)
  {
    Collect(ds, Reports(root, values))
  }

  method Evaluate(root: real -> real, detectors: seq<Detector>, values: seq<real>) returns (findings: seq<Finding>)
    requires AllUsable(detectors)
    ensures findings == Findings(root, detectors, values)
  {
    findings := [];
    for i := 0 to |detectors|
      invariant findings == Collect(detectors[..i], Reports(root, values))
    {
      var finding := Detect(root, detectors[i], values);
      if finding.Some? { findings := findings + [finding.value]; }
      assert detectors[..i + 1][..i] == detectors[..i];
    }
    assert detectors[..|detectors|] == detectors;
  }

  function DefaultDetectors(latencyZScore: real, costZScore: real): (ds: seq<Detector>)
    ensures AllUsable(ds)
  {
    [ThresholdRule(5000.0, LatencySpike), RollingStd(10, 2.0), ZScore(latencyZScore, LatencySpike), ZScore(costZScore, CostSpike)]
  }

  // ------------------------------------------------------------------ nesting

  lemma StricterImpliesLaxer(root: real -> real, strict: Detector, lax: Detector, values: seq<real>)
    requires strict.ZScore? && lax.ZScore? && lax.zThreshold <= strict.zThreshold
    requires DetectZScore(root, strict, values).Some?
    ensures DetectZScore(root, lax, values).Some?
    ensures DetectZScore(root, lax, values).value.score == DetectZScore(root, strict, values).value.score
    ensures Rank(DetectZScore(root, strict, values).value.severity) <= Rank(DetectZScore(root, lax, values).value.severity)
  {
  }

  function DeclaredType(d: Detector): AnomalyType {
    match d
    case ThresholdRule(_, t) => t
    case RollingStd(_, _) => ErrorSpike
    case ZScore(_, t) => t
  }

  lemma FindingHasDeclaredType(root: real -> real, d: Detector, values: seq<real>)
    requires Usable(d)
    ensures Detect(root, d, values).Some? ==> Detect(root, d, values).value.anomalyType == DeclaredType(d)
  {
  }

  lemma Shadowed(root: real -> real, ds: seq<Detector>, values: seq<real>, f: Finding, strict: nat, lax: nat)
    requires AllUsable(ds) && strict < |ds| && lax < |ds| && ds[strict].ZScore? && ds[lax].ZScore?
    requires ds[lax].zThreshold <= ds[strict].zThreshold && ds[lax].zType.LatencySpike? && Detect(root, ds[strict], values) == Some(f)
    ensures exists g :: g in Findings(root, ds, values) && Shadows(f, g)
  {
    StricterImpliesLaxer(root, ds[strict], ds[lax], values);
    FindingHasDeclaredType(root, ds[lax], values);
    var g := Detect(root, ds[lax], values).value;
    CollectHas(ds, Reports(root, values), lax, g);
    assert Shadows(f, g);
  }

  lemma OnlyCostDetector(latency: real, cost: real, i: nat)
    requires i < 4 && DeclaredType(DefaultDetectors(latency, cost)[i]).CostSpike?
    ensures i == 3
  {
  }

  /** Detector nesting: with the cost threshold at or above the latency threshold, a cost finding
      always comes with a latency finding of the same score and at least the same severity. */
  lemma CostImpliesLatency(root: real -> real, latency: real, cost: real, values: seq<real>, f: Finding)
    requires latency <= cost
    requires f in Findings(root, DefaultDetectors(latency, cost), values) && f.anomalyType.CostSpike?
    ensures exists g :: g in Findings(root, DefaultDetectors(latency, cost), values) && Shadows(f, g)
  {
    var ds := DefaultDetectors(latency, cost);
    var i := CollectFrom(ds, Reports(root, values), f);
    FindingHasDeclaredType(root, ds[i], values);
    OnlyCostDetector(latency, cost, i);
    Shadowed(root, ds, values, f, 3, 2);
  }

  predicate Shadows(f: Finding, g: Finding) {
    g.anomalyType.LatencySpike? && g.score == f.score && Rank(f.severity) <= Rank(g.severity)
  }

  // ------------------------------------------------------------------ what the deviation measures

  /** The squares around `m` of `n` samples with total `t` and total of squares `q`. */
  function Around(q: real, t: real, m: real, n: real): real {
    q - 2.0 * m * t + Square(m) * n
  }

  lemma OneMoreSquare(q: real, t: real, x: real, m: real, n: real)
    ensures Around(q, t, m, n) + Deviation(m)(x) == Around(q + Square(x), t + x, m, n + 1.0)
  {
    SquareOfDifference(x, m);
    Distributed(2.0 * m, t, x);
    Distributed(Square(m), n, 1.0);
  }

  lemma SquareOfDifference(x: real, m: real)
    ensures Square(x - m) == Square(x) - 2.0 * m * x + Square(m)
  {
  }

  lemma Distributed(a: real, b: real, c: real)
    ensures a * (b + c) == a * b + a * c
  {
  }

  ghost predicate Grows(g: (real, real, real) -> real, f: real -> real) {
    forall q: real, t: real, n: real, x: real :: GrowsBy(g, f, q, t, n, x)
  }

  predicate GrowsBy(g: (real, real, real) -> real, f: real -> real, q: real, t: real, n: real, x: real) {
    g(q, t, n) + f(x) == g(q + Square(x), t + x, n + 1.0)
  }

  /** A sum that grows sample by sample as `g` does, is `g` of the totals. */
  lemma {:induction false} TotalGrows(s: seq<real>, g: (real, real, real) -> real, f: real -> real)
    requires Grows(g, f) && g(0.0, 0.0, 0.0) == 0.0
    ensures Total(Map(f, s)) == g(Total(Map(Square, s)), Total(s), |s| as real)
  {
    if s != [] {
      var n := |s| - 1;
      TotalGrows(s[..n], g, f);
      assert Map(f, s)[..n] == Map(f, s[..n]) && Map(Square, s)[..n] == Map(Square, s[..n]);
      assert GrowsBy(g, f, Total(Map(Square, s[..n])), Total(s[..n]), n as real, s[n]);
    }
  }

  function AroundMean(m: real): (real, real, real) -> real {
    (q: real, t: real, n: real) => Around(q, t, m, n)
  }

  lemma AroundGrows(m: real)
    ensures Grows(AroundMean(m), Deviation(m)) && AroundMean(m)(0.0, 0.0, 0.0) == 0.0
  {
    forall q: real, t: real, n: real, x: real ensures GrowsBy(AroundMean(m), Deviation(m), q, t, n, x) { OneMoreSquare(q, t, x, m, n); }
  }

  lemma AroundOwnMean(q: real, t: real, n: real)
    requires 0.0 < n
    ensures AroundMean(t / n)(q, t, n) / n == q / n - Square(t / n)
  {
    var m := t / n;
    assert m * n == t;
    assert Around(q, t, m, n) == q - Square(m) * n;
  }

  /** The population variance is the mean of the squares less the square of the mean. */
  lemma VarianceIs(s: seq<real>)
    requires s != []
    ensures Variance(s) == Mean(Map(Square, s)) - Square(Mean(s))
  {
    AroundGrows(Mean(s));
    TotalGrows(s, AroundMean(Mean(s)), Deviation(Mean(s)));
    AroundOwnMean(Total(Map(Square, s)), Total(s), |s| as real);
  }

  // ------------------------------------------------------------------ change of unit

  lemma {:induction false} TotalRescaled(a: real, k: real, s: seq<real>)
    ensures Total(Map(Affine(a, k), s)) == a * Total(s) + k * |s| as real
  {
    if s != [] {
      var n := |s| - 1;
      TotalRescaled(a, k, s[..n]);
      assert Map(Affine(a, k), s)[..n] == Map(Affine(a, k), s[..n]);
      CollectTerms(a, k, Total(s[..n]), s[n], n as real);
    }
  }

  lemma CollectTerms(a: real, k: real, t: real, x: real, n: real)
    ensures (a * t + k * n) + Rescale(a, k, x) == a * (t + x) + k * (n + 1.0)
  {
  }

  lemma DivideRescaled(a: real, k: real, t: real, n: real)
    requires 0.0 < n
    ensures (a * t + k * n) / n == Rescale(a, k, t / n)
  {
    assert (a * t + k * n) / n == a * t / n + k * n / n;
    assert a * t / n == a * (t / n);
  }

  lemma MeanRescaled(a: real, k: real, s: seq<real>)
    requires s != []
    ensures Mean(Map(Affine(a, k), s)) == Rescale(a, k, Mean(s))
  {
    TotalRescaled(a, k, s);
    DivideRescaled(a, k, Total(s), |s| as real);
  }

  lemma SquareRescaled(a: real, k: real, x: real, m: real)
    ensures Square(Rescale(a, k, x) - Rescale(a, k, m)) == Rescale(a * a, 0.0, Square(x - m))
  {
    assert Rescale(a, k, x) - Rescale(a, k, m) == a * (x - m);
    SquareOfProduct(a, x - m);
  }

  lemma SquareOfProduct(a: real, d: real)
    ensures (a * d) * (a * d) == (a * a) * (d * d)
  {
  }

  lemma VarianceRescaled(a: real, k: real, s: seq<real>)
    requires s != []
    ensures Variance(Map(Affine(a, k), s)) == Rescale(a * a, 0.0, Variance(s))
  {
    var t, m := Map(Affine(a, k), s), Mean(s);
    MeanRescaled(a, k, s);
    var squares := Map(Deviation(m), s);
    forall i | 0 <= i < |s| ensures Map(Deviation(Mean(t)), t)[i] == Map(Affine(a * a, 0.0), squares)[i] {
      SquareRescaled(a, k, s[i], m);
    }
    assert Map(Deviation(Mean(t)), t) == Map(Affine(a * a, 0.0), squares);
    MeanRescaled(a * a, 0.0, squares);
  }

  lemma {:induction false} TotalNonnegative(s: seq<real>)
    requires forall i :: 0 <= i < |s| ==> 0.0 <= s[i]
    ensures 0.0 <= Total(s)
  {
    if s != [] { TotalNonnegative(s[..|s| - 1]); }
  }

  lemma VarianceNonnegative(s: seq<real>)
    requires s != []
    ensures 0.0 <= Variance(s)
  {
    var squares := Map(Deviation(Mean(s)), s);
    forall i | 0 <= i < |squares| ensures 0.0 <= squares[i] { SquareNonnegative(s[i] - Mean(s)); }
    TotalNonnegative(squares);
    QuotientNonnegative(Total(squares), |squares| as real);
  }

  lemma SquareNonnegative(x: real)
    ensures 0.0 <= Square(x)
  {
    if 0.0 <= x { Product(x, x); } else { Product(-x, -x); }
  }

  lemma QuotientNonnegative(x: real, n: real)
    requires 0.0 <= x && 0.0 < n
    ensures 0.0 <= x / n
  {
  }

  /** Two of the samples differ. */
  predicate Varies(s: seq<real>) {
    exists i, j :: 0 <= i < |s| && 0 <= j < |s| && s[i] != s[j]
  }

  lemma {:induction false} TotalOfConstant(s: seq<real>, x: real)
    requires forall i :: 0 <= i < |s| ==> s[i] == x
    ensures Total(s) == x * |s| as real
  {
    if s != [] { TotalOfConstant(s[..|s| - 1], x); }
  }

  lemma MeanOfConstant(s: seq<real>)
    requires s != [] && !Varies(s)
    ensures Mean(s) == s[0]
  {
    forall i | 0 <= i < |s| ensures s[i] == s[0] {}
    TotalOfConstant(s, s[0]);
  }

  /** Nonnegative numbers with a zero total are all zero. */
  lemma {:induction false} ZeroTotal(s: seq<real>)
    requires (forall i :: 0 <= i < |s| ==> 0.0 <= s[i]) && Total(s) == 0.0
    ensures forall i :: 0 <= i < |s| ==> s[i] == 0.0
  {
    if s != [] {
      TotalNonnegative(s[..|s| - 1]);
      ZeroTotal(s[..|s| - 1]);
    }
  }

  lemma SquareOfNegative(x: real)
    ensures Square(-x) == Square(x)
  {
  }

  lemma PositiveSquare(x: real)
    requires 0.0 < x
    ensures 0.0 < Square(x)
  {
    SquareNonnegative(x);
    SquareGap(x, 0.0);
  }

  lemma SquareIsZero(x: real)
    ensures Square(x) == 0.0 <==> x == 0.0
  {
    if x > 0.0 {
      PositiveSquare(x);
    } else if x < 0.0 {
      PositiveSquare(-x);
      SquareOfNegative(x);
    }
  }

  lemma QuotientIsZero(x: real, n: real)
    requires 0.0 < n
    ensures x / n == 0.0 <==> x == 0.0
  {
  }

  /** The variance is zero exactly when all samples are equal. */
  lemma VarianceZeroIff(s: seq<real>)
    requires s != []
    ensures Variance(s) == 0.0 <==> forall i, j :: 0 <= i < |s| && 0 <= j < |s| ==> s[i] == s[j]
  {
    var m, n := Mean(s), |s| as real;
    var squares := Map(Deviation(m), s);
    QuotientIsZero(Total(squares), n);
    if Variance(s) == 0.0 {
      forall i | 0 <= i < |s| ensures 0.0 <= squares[i] { SquareNonnegative(s[i] - m); }
      ZeroTotal(squares);
      forall i | 0 <= i < |s| ensures s[i] == m {
        assert squares[i] == Square(s[i] - m);
        SquareIsZero(s[i] - m);
      }
    } else if !Varies(s) {
      MeanOfConstant(s);
      forall i | 0 <= i < |s| ensures squares[i] == 0.0 { SquareIsZero(s[i] - m); }
      TotalOfConstant(squares, 0.0);
    }
  }

  /** The deviation the detectors compute is zero exactly when the samples before the latest are equal. */
  lemma StdZeroIff(root: real -> real, values: seq<real>)
    requires RootLike(root) && |values| >= 2
    ensures Stand(root, values).std != 0.0 <==> Varies(values[..|values| - 1])
  {
    var baseline := values[..|values| - 1];
    VarianceZeroIff(baseline);
    VarianceNonnegative(baseline);
    assert IsRoot(root, Variance(baseline));
    SquareIsZero(root(Variance(baseline)));
  }

  /** There is only one nonnegative square root. */
  lemma RootIsUnique(x: real, y: real)
    requires 0.0 <= x && 0.0 <= y && x * x == y * y
    ensures x == y
  {
    assert (x - y) * (x + y) == 0.0;
    if x != y {
      SquareGap(x, y);
      assert false;
    }
  }

  lemma SquareGap(x: real, y: real)
    requires 0.0 <= x && 0.0 <= y && x != y
    ensures x * x != y * y
  {
    if x < y { PositiveProduct(y - x, x + y); } else { PositiveProduct(x - y, x + y); }
    assert (x - y) * (x + y) == x * x - y * y;
    assert (y - x) * (x + y) == y * y - x * x;
  }

  lemma StdRescaled(root: real -> real, a: real, v: real)
    requires RootLike(root) && 0.0 < a && 0.0 <= v
    ensures root(Rescale(a * a, 0.0, v)) == a * root(v)
  {
    var w, r := Rescale(a * a, 0.0, v), root(v);
    Product(a, a);
    Product(a * a, v);
    assert IsRoot(root, w) && IsRoot(root, v);
    Product(a, r);
    SquareOfProduct(a, r);
    RootIsUnique(root(w), a * r);
  }

  lemma StandRescaled(root: real -> real, a: real, k: real, values: seq<real>)
    requires RootLike(root) && 0.0 < a && |values| >= 2
    ensures var s := Stand(root, values);
      Stand(root, Map(Affine(a, k), values)) == Standing(Rescale(a, k, s.mean), a * s.std, Rescale(a, k, s.observed))
  {
    var n, f := |values| - 1, Affine(a, k);
    assert Map(f, values)[..n] == Map(f, values[..n]);
    MeanRescaled(a, k, values[..n]);
    VarianceRescaled(a, k, values[..n]);
    VarianceNonnegative(values[..n]);
    StdRescaled(root, a, Variance(values[..n]));
  }

  lemma CancelFactor(a: real, x: real, y: real)
    requires a != 0.0 && y != 0.0
    ensures a * y != 0.0 && (a * x) / (a * y) == x / y
  {
  }

  /** The distance of a rescaled standing: unchanged when the baseline varies; multiplied by the factor
      when it is constant, because the substitute deviation 1e-6 does not rescale. */
  lemma DistanceRescaled(s: Standing, a: real, k: real)
    requires 0.0 < a
    ensures var t := Standing(Rescale(a, k, s.mean), a * s.std, Rescale(a, k, s.observed));
      Distance(t) == if s.std != 0.0 then Distance(s) else a * Distance(s)
  {
    assert Rescale(a, k, s.observed) - Rescale(a, k, s.mean) == a * (s.observed - s.mean);
    if s.std != 0.0 { CancelFactor(a, s.observed - s.mean, s.std); } else { ConstantDistance(a, s.observed - s.mean); }
  }

  lemma ConstantDistance(a: real, d: real)
    ensures (a * d) / 0.000001 == a * (d / 0.000001)
  {
  }

  /** Scores survive a change of unit and origin exactly when two samples before the latest differ, or
      the unit stays, or all samples including the latest are equal. */
  lemma ScoreInvariantIff(root: real -> real, a: real, k: real, values: seq<real>)
    requires RootLike(root) && 0.0 < a && |values| >= 2
    ensures Distance(Stand(root, Map(Affine(a, k), values))) == Distance(Stand(root, values)) <==>
      Varies(values[..|values| - 1]) || a == 1.0 || values[|values| - 1] == values[0]
  {
    StandRescaled(root, a, k, values);
    var s := Stand(root, values);
    DistanceRescaled(s, a, k);
    StdZeroIff(root, values);
    if s.std == 0.0 {
      FixedBy(a, Distance(s), Distance(Stand(root, Map(Affine(a, k), values))));
      ZeroDistance(s);
      MeanOfConstant(values[..|values| - 1]);
    }
  }

  lemma ZeroDistance(s: Standing)
    requires s.std == 0.0
    ensures Distance(s) == 0.0 <==> s.observed == s.mean
  {
  }

  lemma FixedBy(a: real, d: real, e: real)
    requires e == a * d
    ensures e == d <==> a == 1.0 || d == 0.0
  {
    assert a * d - d == (a - 1.0) * d;
  }

  /** The finding with its values rescaled. */
  function RescaledFinding(a: real, k: real, f: Finding): Finding {
    f.(baselineValue := Rescale(a, k, f.baselineValue), observedValue := Rescale(a, k, f.observedValue))
  }

  function Rescaled(a: real, k: real, f: Option<Finding>): Option<Finding> {
    if f.Some? then Some(RescaledFinding(a, k, f.value)) else None
  }

  lemma ZScoreFindingRescaled(d: Detector, z: real, a: real, k: real, mean: real, observed: real)
    requires d.ZScore?
    ensures ZScoreFinding(d, z, Rescale(a, k, mean), Rescale(a, k, observed)) == Rescaled(a, k, ZScoreFinding(d, z, mean, observed))
  {
  }

  lemma DistanceInvariant(root: real -> real, a: real, k: real, values: seq<real>)
    requires RootLike(root) && 0.0 < a && |values| >= 2 && Stand(root, values).std != 0.0
    ensures Distance(Stand(root, Map(Affine(a, k), values))) == Distance(Stand(root, values))
  {
    StandRescaled(root, a, k, values);
    DistanceRescaled(Stand(root, values), a, k);
  }

  /** The detector reports the same finding, with rescaled values, of the rescaled series. */
  predicate SameInUnit(root: real -> real, d: Detector, a: real, k: real, values: seq<real>)
    requires d.ZScore?
  {
    DetectZScore(root, d, Map(Affine(a, k), values)) == Rescaled(a, k, DetectZScore(root, d, values))
  }

  lemma SameDistanceSameFinding(root: real -> real, d: Detector, a: real, k: real, values: seq<real>)
    requires RootLike(root) && 0.0 < a && d.ZScore?
    requires |values| >= 5 ==> Distance(Stand(root, Map(Affine(a, k), values))) == Distance(Stand(root, values))
    ensures SameInUnit(root, d, a, k, values)
  {
    if |values| >= 5 {
      var s := Stand(root, values);
      StandRescaled(root, a, k, values);
      ZScoreFindingRescaled(d, Abs(Distance(s)), a, k, s.mean, s.observed);
    }
  }

  /** A z-score finding of a series whose samples before the latest are not all equal is the same
      finding in any unit. */
  lemma ZScoreInvariant(root: real -> real, d: Detector, a: real, k: real, values: seq<real>)
    requires RootLike(root) && 0.0 < a && d.ZScore?
    requires |values| >= 5 ==> Varies(values[..|values| - 1])
    ensures DetectZScore(root, d, Map(Affine(a, k), values)) == Rescaled(a, k, DetectZScore(root, d, values))
  {
    if |values| >= 5 { ScoreInvariantIff(root, a, k, values); }
    SameDistanceSameFinding(root, d, a, k, values);
  }

  lemma DoubledFinding(root: real -> real, values: seq<real>)
    requires RootLike(root) && |values| >= 5 && !Varies(values[..|values| - 1]) && values[|values| - 1] != values[0]
    ensures !SameInUnit(root, ZScore(0.0, LatencySpike), 2.0, 0.0, values)
  {
    var s, t := Stand(root, values), Stand(root, Map(Affine(2.0, 0.0), values));
    StandRescaled(root, 2.0, 0.0, values);
    StdZeroIff(root, values);
    DistanceRescaled(s, 2.0, 0.0);
    ZeroDistance(s);
    MeanOfConstant(values[..|values| - 1]);
    assert Abs(Distance(t)) == 2.0 * Abs(Distance(s)) && Abs(Distance(s)) > 0.0;
  }

  /** Every z-score detector reports a series the same in every unit exactly when two samples before the
      latest differ or all samples are equal. */
  lemma ZScoreInvariantIff(root: real -> real, values: seq<real>)
    requires RootLike(root) && |values| >= 5
    ensures (forall d: Detector, a: real, k: real :: d.ZScore? && 0.0 < a ==> SameInUnit(root, d, a, k, values)) <==>
      Varies(values[..|values| - 1]) || values[|values| - 1] == values[0]
  {
    if Varies(values[..|values| - 1]) || values[|values| - 1] == values[0] {
      forall d: Detector, a: real, k: real | d.ZScore? && 0.0 < a ensures SameInUnit(root, d, a, k, values) {
        ScoreInvariantIff(root, a, k, values);
        SameDistanceSameFinding(root, d, a, k, values);
      }
    } else {
      DoubledFinding(root, values);
    }
  }

  lemma ExceedsInvariant(root: real -> real, a: real, k: real, values: seq<real>, multiplier: real)
    requires RootLike(root) && 0.0 < a && |values| >= 2 && Stand(root, values).std != 0.0
    ensures Exceeds(Stand(root, Map(Affine(a, k), values)), multiplier) <==> Exceeds(Stand(root, values), multiplier)
  {
    StandRescaled(root, a, k, values);
    LimitRescaled(a, k, Stand(root, values), multiplier);
  }

  predicate SaysRescaled(say: seq<real> -> Option<Finding>, a: real, k: real, window: seq<real>) {
    say(Map(Affine(a, k), window)) == Rescaled(a, k, say(window))
  }

  lemma WindowInvariant(root: real -> real, a: real, k: real, window: seq<real>, multiplier: real)
    requires RootLike(root) && 0.0 < a && |window| >= 2 && Varies(window[..|window| - 1])
    ensures SaysRescaled(WindowFinding(root, multiplier), a, k, window)
  {
    StdZeroIff(root, window);
    StandRescaled(root, a, k, window);
    DistanceInvariant(root, a, k, window);
    ExceedsInvariant(root, a, k, window, multiplier);
  }

  lemma FlatWindow(root: real -> real, a: real, k: real, window: seq<real>, multiplier: real)
    requires RootLike(root) && 0.0 < a && |window| >= 2 && !Varies(window[..|window| - 1]) && window[|window| - 1] == window[0]
    ensures SaysRescaled(WindowFinding(root, multiplier), a, k, window)
  {
    StandRescaled(root, a, k, window);
    StdZeroIff(root, window);
    MeanOfConstant(window[..|window| - 1]);
    FlatExceeds(Stand(root, window), Stand(root, Map(Affine(a, k), window)), multiplier);
  }

  lemma FlatExceeds(s: Standing, t: Standing, multiplier: real)
    requires s.std == 0.0 && t.std == 0.0 && s.observed == s.mean && t.observed == t.mean
    ensures (Exceeds(s, multiplier) <==> Exceeds(t, multiplier)) && Distance(s) == 0.0 && Distance(t) == 0.0
  {
  }

  lemma DoubledWindow(root: real -> real, window: seq<real>)
    requires RootLike(root) && |window| >= 2 && !Varies(window[..|window| - 1]) && window[|window| - 1] != window[0]
    ensures exists m: real :: !SaysRescaled(WindowFinding(root, m), 2.0, 0.0, window)
  {
    var s, t := Stand(root, window), Stand(root, Map(Affine(2.0, 0.0), window));
    StandRescaled(root, 2.0, 0.0, window);
    StdZeroIff(root, window);
    DistanceRescaled(s, 2.0, 0.0);
    ZeroDistance(s);
    MeanOfConstant(window[..|window| - 1]);
    var m := -1.0 - Abs(Distance(s)) - Abs(Distance(t));
    FarBelow(s, m);
    FarBelow(t, m);
    assert !SaysRescaled(WindowFinding(root, m), 2.0, 0.0, window);
  }

  lemma FarBelow(s: Standing, m: real)
    requires s.std == 0.0 && m < Distance(s)
    ensures Exceeds(s, m)
  {
    assert s.observed - s.mean == Distance(s) * 0.000001;
  }

  /** Every rolling detector reports a window the same in every unit exactly when two of its samples
      before the latest differ or all of them are equal. */
  lemma RollingInvariantIff(root: real -> real, window: seq<real>)
    requires RootLike(root) && |window| >= 2
    ensures (forall m: real, a: real, k: real :: 0.0 < a ==> SaysRescaled(WindowFinding(root, m), a, k, window)) <==>
      Varies(window[..|window| - 1]) || window[|window| - 1] == window[0]
  {
    if Varies(window[..|window| - 1]) {
      forall m: real, a: real, k: real | 0.0 < a ensures SaysRescaled(WindowFinding(root, m), a, k, window) {
        WindowInvariant(root, a, k, window, m);
      }
    } else if window[|window| - 1] == window[0] {
      forall m: real, a: real, k: real | 0.0 < a ensures SaysRescaled(WindowFinding(root, m), a, k, window) {
        FlatWindow(root, a, k, window, m);
      }
    } else {
      DoubledWindow(root, window);
    }
  }

  lemma WindowOf(f: real -> real, values: seq<real>, from: nat)
    requires from <= |values|
    ensures Map(f, values)[from..] == Map(f, values[from..])
    ensures from < |values| ==> values[from..][..|values| - from - 1] == values[from..|values| - 1]
  {
  }

  lemma LastWindowRescaled(size: nat, values: seq<real>, say: seq<real> -> Option<Finding>, a: real, k: real)
    requires |values| >= size ==> SaysRescaled(say, a, k, values[|values| - size..])
    ensures OnLastWindow(size, Map(Affine(a, k), values), say) == Rescaled(a, k, OnLastWindow(size, values, say))
  {
    if |values| >= size { WindowOf(Affine(a, k), values, |values| - size); }
  }

  lemma LastWindowSays(root: real -> real, a: real, k: real, values: seq<real>, size: nat, multiplier: real)
    requires RootLike(root) && 0.0 < a && 2 <= size <= |values| && Varies(values[|values| - size..|values| - 1])
    ensures SaysRescaled(WindowFinding(root, multiplier), a, k, values[|values| - size..])
  {
    WindowOf(Affine(a, k), values, |values| - size);
    WindowInvariant(root, a, k, values[|values| - size..], multiplier);
  }

  lemma LastWindowInvariant(root: real -> real, a: real, k: real, values: seq<real>, size: nat, multiplier: real)
    requires RootLike(root) && 0.0 < a && 2 <= size
    requires |values| >= size ==> Varies(values[|values| - size..|values| - 1])
    ensures var say := WindowFinding(root, multiplier);
      OnLastWindow(size, Map(Affine(a, k), values), say) == Rescaled(a, k, OnLastWindow(size, values, say))
  {
    if |values| >= size { LastWindowSays(root, a, k, values, size, multiplier); }
    LastWindowRescaled(size, values, WindowFinding(root, multiplier), a, k);
  }

  /** So is a rolling finding, when the window without its latest sample is not constant. */
  lemma RollingInvariant(root: real -> real, d: Detector, a: real, k: real, values: seq<real>)
    requires RootLike(root) && 0.0 < a && d.RollingStd? && Usable(d)
    requires |values| >= d.windowSize ==> Varies(values[|values| - d.windowSize..|values| - 1])
    ensures DetectRolling(root, d, Map(Affine(a, k), values)) == Rescaled(a, k, DetectRolling(root, d, values))
  {
    LastWindowInvariant(root, a, k, values, d.windowSize, d.multiplier);
  }

  lemma LimitRescaled(a: real, k: real, s: Standing, multiplier: real)
    requires 0.0 < a && s.std != 0.0
    ensures a * s.std != 0.0
    ensures Rescale(a, k, s.observed) > Rescale(a, k, s.mean) + a * s.std * multiplier <==> s.observed > s.mean + s.std * multiplier
  {
    assert Rescale(a, k, s.observed) - (Rescale(a, k, s.mean) + a * s.std * multiplier) == a * (s.observed - (s.mean + s.std * multiplier));
    SameSign(a, s.observed - (s.mean + s.std * multiplier));
  }

  lemma SameSign(a: real, x: real)
    requires 0.0 < a
    ensures a * x > 0.0 <==> x > 0.0
  {
    if x > 0.0 { PositiveProduct(a, x); } else { Product(a, -x); }
  }
}
