/** What the deviation detectors decide, in sums over the samples alone: no mean, no deviation, no
    square root. */
module Moments {
  import opened Events
  import opened Reals
  import opened Detection
  import opened Drift
  import opened Anomaly

  /** With `n` samples before the latest: `n` times its distance from their mean. */
  function Excess(values: seq<real>): real
    requires |values| >= 2
  {
    var n := |values| - 1;
    Away(n as real, values[n], Total(values[..n]))
  }

  function Away(n: real, x: real, total: real): real {
    n * x - total
  }

  function Scatter(n: real, squares: real, total: real): real {
    n * squares - Square(total)
  }

  /** `n` times the sum of their squares, less the square of their sum. */
  function Spread(values: seq<real>): real
    requires |values| >= 2
  {
    var n := |values| - 1;
    Scatter(n as real, Total(Map(Square, values[..n])), Total(values[..n]))
  }

  lemma SpreadOf(n: real, q: real, t: real)
    requires 0.0 < n
    ensures Square(n) * (q / n - Square(t / n)) == n * q - Square(t)
  {
    var u, m := q / n, t / n;
    assert u * n == q && m * n == t;
    SquareOfScaled(n, m);
    assert Square(n) * u == n * q;
  }

  lemma SquareOfScaled(n: real, x: real)
    ensures Square(n) * Square(x) == Square(n * x)
  {
    assert (n * n) * (x * x) == (n * x) * (n * x);
  }

  lemma Placed(n: real, x: real, t: real)
    requires 0.0 < n
    ensures n * (x - t / n) == n * x - t
  {
    assert n * (t / n) == t;
  }

  /** `s` has, scaled by `n`, the mean `total`, the distance `excess` and the variance `spread`. */
  ghost predicate Measures(s: Standing, n: real, total: real, excess: real, spread: real) {
    && n * s.mean == total
    && n * (s.observed - s.mean) == excess
    && Square(n) * Square(s.std) == spread
    && 0.0 <= s.std
  }

  lemma Measured(n: real, t: real, q: real, x: real, std: real)
    requires 0.0 < n && 0.0 <= std && std * std == q / n - Square(t / n)
    ensures Measures(Standing(t / n, std, x), n, t, Away(n, x, t), Scatter(n, q, t))
  {
    SpreadOf(n, q, t);
    Placed(n, x, t);
    assert n * (t / n) == t;
  }

  lemma DeviationIs(root: real -> real, s: seq<real>)
    requires RootLike(root) && s != []
    ensures var n, std := |s| as real, root(Variance(s));
      0.0 <= std && std * std == Total(Map(Square, s)) / n - Square(Total(s) / n)
  {
    VarianceIs(s);
    VarianceNonnegative(s);
    assert IsRoot(root, Variance(s));
  }

  /** Mean and deviation of the samples before the latest, without the root. */
  lemma StandingIs(root: real -> real, values: seq<real>)
    requires RootLike(root) && |values| >= 2
    ensures Measures(Stand(root, values), (|values| - 1) as real, Total(values[..|values| - 1]), Excess(values), Spread(values))
  {
    var baseline, n := values[..|values| - 1], (|values| - 1) as real;
    DeviationIs(root, baseline);
    assert Stand(root, values) == Standing(Total(baseline) / n, root(Variance(baseline)), values[|values| - 1]);
    Measured(n, Total(baseline), Total(Map(Square, baseline)), values[|values| - 1], root(Variance(baseline)));
  }

  lemma RatioSquared(n: real, d: real, std: real)
    requires 0.0 < n && 0.0 < std
    ensures Square(d / std) * (Square(n) * Square(std)) == Square(n * d)
    ensures 0.0 < Square(n) * Square(std)
    ensures 0.0 < d / std <==> 0.0 < n * d
  {
    var r := d / std;
    assert r * std == d;
    SquareOfScaled(r, std);
    SquareOfScaled(n, d);
    assert Square(r) * (Square(n) * Square(std)) == Square(n) * (Square(r) * Square(std));
    PositiveSquare(n);
    PositiveSquare(std);
    PositiveProduct(Square(n), Square(std));
    Signs(n, d);
    Signs(std, r);
  }

  lemma Signs(n: real, d: real)
    requires 0.0 < n
    ensures 0.0 < n * d <==> 0.0 < d
  {
    if 0.0 < d {
      PositiveProduct(n, d);
    } else {
      Product(n, -d);
      assert n * -d == -(n * d);
    }
  }

  /** `r` is `excess` over the root of `spread`. */
  ghost predicate IsScore(r: real, excess: real, spread: real) {
    Square(r) * spread == Square(excess) && 0.0 < spread && (0.0 < r <==> 0.0 < excess)
  }

  lemma ScoreOf(s: Standing, n: real, total: real, excess: real, spread: real)
    requires 0.0 < n && 0.0 < s.std && Measures(s, n, total, excess, spread)
    ensures IsScore(Distance(s), excess, spread)
  {
    RatioSquared(n, s.observed - s.mean, s.std);
  }

  lemma ScoreIs(root: real -> real, values: seq<real>)
    requires RootLike(root) && |values| >= 2 && Varies(values[..|values| - 1])
    ensures IsScore(Distance(Stand(root, values)), Excess(values), Spread(values)) && 0.0 < Stand(root, values).std
  {
    StandingIs(root, values);
    StdZeroIff(root, values);
    ScoreOf(Stand(root, values), (|values| - 1) as real, Total(values[..|values| - 1]), Excess(values), Spread(values));
  }

  lemma SquaresCompare(a: real, b: real)
    requires 0.0 <= a && 0.0 <= b
    ensures a >= b <==> Square(a) >= Square(b)
  {
    if a >= b {
      Scaled(b, a, b);
      ScaledLeft(a, b, a);
    } else {
      Scaled(a, b, a);
      ScaledLeft(b, a, b);
      SquareGap(a, b);
    }
  }

  lemma ProductsCompare(a: real, b: real, v: real)
    requires 0.0 < v
    ensures a >= b <==> a * v >= b * v
  {
    if a >= b {
      Scaled(b, a, v);
    } else {
      PositiveProduct(b - a, v);
      assert (b - a) * v == b * v - a * v;
    }
  }

  /** `r` reaches `z`, in terms of `square == r * r * v`. */
  lemma Reaches(r: real, z: real, v: real, square: real)
    requires 0.0 <= z && 0.0 < v && Square(r) * v == square
    ensures Abs(r) >= z <==> square >= Square(z) * v
    ensures Square(Abs(r)) == Square(r)
  {
    SquareOfNegative(r);
    SquaresCompare(Abs(r), z);
    ProductsCompare(Square(r), Square(z), v);
  }

  /** The score reaches `z` in either direction. */
  predicate Large(z: real, excess: real, spread: real) {
    Square(excess) >= Square(z) * spread
  }

  /** The score exceeds `m`. */
  predicate Above(m: real, excess: real, spread: real) {
    0.0 < excess && Square(excess) > Square(m) * spread
  }

  /** What a z-score detector makes of an excess and a spread: it reports exactly when the square of the
      excess is at least the threshold's square times the spread, and calls that critical exactly when
      this holds for one and a half times the threshold. */
  ghost predicate ZScoreSays(d: Detector, f: Option<Finding>, excess: real, spread: real)
    requires d.ZScore?
  {
    && (f.Some? <==> Large(d.zThreshold, excess, spread))
    && (f.Some? ==>
      && 0.0 <= f.value.score && Square(f.value.score) * spread == Square(excess)
      && (f.value.severity.Critical? <==> Large(d.zThreshold * 1.5, excess, spread))
      && (f.value.severity.Warning? <==> !f.value.severity.Critical?)
      && f.value.anomalyType == d.zType)
  }

  lemma ZScoreOf(d: Detector, r: real, mean: real, observed: real, excess: real, spread: real)
    requires d.ZScore? && 0.0 <= d.zThreshold && IsScore(r, excess, spread)
    ensures ZScoreSays(d, ZScoreFinding(d, Abs(r), mean, observed), excess, spread)
  {
    Reaches(r, d.zThreshold, spread, Square(excess));
    Reaches(r, d.zThreshold * 1.5, spread, Square(excess));
  }

  /** The finding reports the mean of the samples before the latest, and the latest. */
  ghost predicate ReportsMean(f: Finding, values: seq<real>)
    requires |values| >= 2
  {
    (|values| - 1) as real * f.baselineValue == Total(values[..|values| - 1]) && f.observedValue == values[|values| - 1]
  }

  /** A z-score detector, on five samples or more of which two before the latest differ. */
  lemma ZScoreIff(root: real -> real, d: Detector, values: seq<real>)
    requires RootLike(root) && d.ZScore? && 0.0 <= d.zThreshold && |values| >= 5 && Varies(values[..|values| - 1])
    ensures ZScoreSays(d, Detect(root, d, values), Excess(values), Spread(values))
    ensures Detect(root, d, values).Some? ==> ReportsMean(Detect(root, d, values).value, values)
  {
    var s := Stand(root, values);
    ScoreIs(root, values);
    ZScoreOf(d, Distance(s), s.mean, s.observed, Excess(values), Spread(values));
    StandingIs(root, values);
  }

  lemma Beyond(r: real, m: real, v: real, square: real)
    requires 0.0 <= m && 0.0 < v && Square(r) * v == square
    ensures r > m <==> 0.0 < r && square > Square(m) * v
  {
    if 0.0 < r {
      SquaresCompare(m, r);
      ProductsCompare(Square(m), Square(r), v);
    }
  }

  lemma LimitAsRatio(s: Standing, m: real)
    requires 0.0 < s.std
    ensures Exceeds(s, m) <==> Distance(s) > m
  {
    var r := (s.observed - s.mean) / s.std;
    assert r * s.std == s.observed - s.mean;
    ProductsCompare(m, r, s.std);
    assert s.std * m == m * s.std;
  }

  /** A rolling detector reports exactly when the excess is positive and its square is more than the
      multiplier's square times the spread. */
  ghost predicate RollingSays(multiplier: real, f: Option<Finding>, excess: real, spread: real) {
    && (f.Some? <==> Above(multiplier, excess, spread))
    && (f.Some? ==> 0.0 <= f.value.score && Square(f.value.score) * spread == Square(excess))
  }

  lemma RollingOf(s: Standing, multiplier: real, excess: real, spread: real)
    requires 0.0 <= multiplier && 0.0 < s.std && IsScore(Distance(s), excess, spread)
    ensures RollingSays(multiplier, RollingFinding(Exceeds(s, multiplier), Distance(s), s.mean, s.observed), excess, spread)
  {
    LimitAsRatio(s, multiplier);
    Beyond(Distance(s), multiplier, spread, Square(excess));
  }

  lemma WindowSays(root: real -> real, multiplier: real, window: seq<real>)
    requires RootLike(root) && 0.0 <= multiplier && |window| >= 2 && Varies(window[..|window| - 1])
    ensures RollingSays(multiplier, WindowFinding(root, multiplier)(window), Excess(window), Spread(window))
  {
    ScoreIs(root, window);
    RollingOf(Stand(root, window), multiplier, Excess(window), Spread(window));
  }

  predicate ReportsStanding(f: Option<Finding>, s: Standing) {
    f.Some? ==> f.value.baselineValue == s.mean && f.value.observedValue == s.observed
  }

  lemma RollingReports(exceeds: bool, score: real, s: Standing)
    ensures ReportsStanding(RollingFinding(exceeds, score, s.mean, s.observed), s)
  {
  }

  lemma WindowReports(root: real -> real, multiplier: real, window: seq<real>)
    requires |window| >= 2
    ensures ReportsStanding(WindowFinding(root, multiplier)(window), Stand(root, window))
  {
    var s := Stand(root, window);
    RollingReports(Exceeds(s, multiplier), Distance(s), s);
  }

  lemma StandingReported(f: Finding, s: Standing, values: seq<real>, excess: real, spread: real)
    requires |values| >= 2 && ReportsStanding(Some(f), s) && s.observed == values[|values| - 1]
    requires Measures(s, (|values| - 1) as real, Total(values[..|values| - 1]), excess, spread)
    ensures ReportsMean(f, values)
  {
  }

  lemma WindowMean(root: real -> real, window: seq<real>, f: Finding)
    requires RootLike(root) && |window| >= 2 && ReportsStanding(Some(f), Stand(root, window))
    ensures ReportsMean(f, window)
  {
    StandingIs(root, window);
    StandingReported(f, Stand(root, window), window, Excess(window), Spread(window));
  }

  lemma SaidOfWindow(size: nat, values: seq<real>, say: seq<real> -> Option<Finding>)
    requires |values| >= 3 && |values| >= size
    ensures OnLastWindow(size, values, say) == say(values[|values| - size..])
  {
  }

  lemma LastWindow(root: real -> real, d: Detector, values: seq<real>)
    requires d.RollingStd? && Usable(d) && |values| >= 3 && |values| >= d.windowSize
    ensures Detect(root, d, values) == WindowFinding(root, d.multiplier)(values[|values| - d.windowSize..])
  {
    SaidOfWindow(d.windowSize, values, WindowFinding(root, d.multiplier));
  }

  /** A rolling detector, on a full window in which two samples before the latest differ. */
  lemma RollingIff(root: real -> real, d: Detector, values: seq<real>)
    requires RootLike(root) && d.RollingStd? && Usable(d) && 0.0 <= d.multiplier && |values| >= 3 && |values| >= d.windowSize
    requires var window := values[|values| - d.windowSize..]; Varies(window[..|window| - 1])
    ensures var window := values[|values| - d.windowSize..];
      && RollingSays(d.multiplier, Detect(root, d, values), Excess(window), Spread(window))
      && (Detect(root, d, values).Some? ==> ReportsMean(Detect(root, d, values).value, window))
  {
    var window := values[|values| - d.windowSize..];
    LastWindow(root, d, values);
    WindowSays(root, d.multiplier, window);
    WindowReports(root, d.multiplier, window);
    if Detect(root, d, values).Some? { WindowMean(root, window, Detect(root, d, values).value); }
  }

  // ------------------------------------------------------------------ samples that do not vary

  lemma FlatStanding(root: real -> real, values: seq<real>)
    requires RootLike(root) && |values| >= 2 && !Varies(values[..|values| - 1])
    ensures Stand(root, values) == Standing(values[0], 0.0, values[|values| - 1])
  {
    StdZeroIff(root, values);
    MeanOfConstant(values[..|values| - 1]);
  }

  lemma PerMillion(x: real, z: real)
    ensures Abs(x / 0.000001) >= z <==> 1000000.0 * Abs(x) >= z
    ensures x > 0.000001 * z <==> 1000000.0 * x > z
  {
  }

  /** When the samples before the latest are equal, a z-score detector reports exactly when a million
      times the latest one's distance from them reaches the threshold. */
  lemma FlatZScoreIff(root: real -> real, d: Detector, values: seq<real>)
    requires RootLike(root) && d.ZScore? && |values| >= 5 && !Varies(values[..|values| - 1])
    ensures Detect(root, d, values).Some? <==> 1000000.0 * Abs(values[|values| - 1] - values[0]) >= d.zThreshold
  {
    FlatStanding(root, values);
    PerMillion(values[|values| - 1] - values[0], d.zThreshold);
  }

  lemma FlatWindow(root: real -> real, multiplier: real, window: seq<real>)
    requires RootLike(root) && |window| >= 2 && !Varies(window[..|window| - 1])
    ensures WindowFinding(root, multiplier)(window).Some? <==> 1000000.0 * (window[|window| - 1] - window[0]) > multiplier
  {
    FlatStanding(root, window);
    FlatExceeds(Stand(root, window), multiplier);
  }

  lemma FlatExceeds(s: Standing, multiplier: real)
    requires s.std == 0.0
    ensures Exceeds(s, multiplier) <==> 1000000.0 * (s.observed - s.mean) > multiplier
  {
    PerMillion(s.observed - s.mean, multiplier);
  }

  lemma FlatRollingIff(root: real -> real, d: Detector, values: seq<real>)
    requires RootLike(root) && d.RollingStd? && Usable(d) && |values| >= 3 && |values| >= d.windowSize
    requires var window := values[|values| - d.windowSize..]; !Varies(window[..|window| - 1])
    ensures Detect(root, d, values).Some? <==> 1000000.0 * (values[|values| - 1] - values[|values| - d.windowSize]) > d.multiplier
  {
    LastWindow(root, d, values);
    FlatWindow(root, d.multiplier, values[|values| - d.windowSize..]);
  }

  // ------------------------------------------------------------------ the detectors of the platform

  ghost predicate Reported(fs: seq<Finding>, kind: AnomalyType) {
    exists f :: f in fs && f.anomalyType == kind
  }

  ghost predicate Typed(ds: seq<Detector>, report: Detector -> Option<Finding>) {
    forall i :: 0 <= i < |ds| && report(ds[i]).Some? ==> report(ds[i]).value.anomalyType == DeclaredType(ds[i])
  }

  ghost predicate SomeReports(ds: seq<Detector>, report: Detector -> Option<Finding>, kind: AnomalyType) {
    exists i :: 0 <= i < |ds| && report(ds[i]).Some? && DeclaredType(ds[i]) == kind
  }

  lemma ReportedIff(ds: seq<Detector>, report: Detector -> Option<Finding>, kind: AnomalyType)
    requires Typed(ds, report)
    ensures Reported(Collect(ds, report), kind) <==> SomeReports(ds, report, kind)
  {
    var fs := Collect(ds, report);
    if SomeReports(ds, report, kind) {
      var i :| 0 <= i < |ds| && report(ds[i]).Some? && DeclaredType(ds[i]) == kind;
      CollectHas(ds, report, i, report(ds[i]).value);
    }
    if Reported(fs, kind) {
      var f :| f in fs && f.anomalyType == kind;
      var i := CollectFrom(ds, report, f);
      assert SomeReports(ds, report, kind);
    }
  }

  lemma FourDetectors(ds: seq<Detector>, report: Detector -> Option<Finding>)
    requires |ds| == 4 && DeclaredType(ds[0]).LatencySpike? && DeclaredType(ds[1]).ErrorSpike?
    requires DeclaredType(ds[2]).LatencySpike? && DeclaredType(ds[3]).CostSpike?
    ensures SomeReports(ds, report, LatencySpike) <==> report(ds[0]).Some? || report(ds[2]).Some?
    ensures SomeReports(ds, report, ErrorSpike) <==> report(ds[1]).Some?
    ensures SomeReports(ds, report, CostSpike) <==> report(ds[3]).Some?
  {
  }

  lemma ReportsAreTyped(root: real -> real, ds: seq<Detector>, values: seq<real>)
    requires AllUsable(ds)
    ensures Typed(ds, Reports(root, values))
  {
    forall i | 0 <= i < |ds| && Reports(root, values)(ds[i]).Some?
      ensures Reports(root, values)(ds[i]).value.anomalyType == DeclaredType(ds[i])
    {
      FindingHasDeclaredType(root, ds[i], values);
    }
  }

  lemma ThresholdIff(root: real -> real, d: Detector, values: seq<real>)
    requires d.ThresholdRule? && Usable(d)
    ensures Reports(root, values)(d).Some? <==> values != [] && values[|values| - 1] > d.threshold
  {
  }

  lemma DefaultsReported(root: real -> real, latency: real, cost: real, values: seq<real>)
    ensures var ds := DefaultDetectors(latency, cost);
      var fs, report := Findings(root, ds, values), Reports(root, values);
      && (Reported(fs, LatencySpike) <==> report(ds[0]).Some? || report(ds[2]).Some?)
      && (Reported(fs, ErrorSpike) <==> report(ds[1]).Some?)
      && (Reported(fs, CostSpike) <==> report(ds[3]).Some?)
  {
    var ds, report := DefaultDetectors(latency, cost), Reports(root, values);
    ReportsAreTyped(root, ds, values);
    ReportedIff(ds, report, LatencySpike);
    ReportedIff(ds, report, ErrorSpike);
    ReportedIff(ds, report, CostSpike);
    FourDetectors(ds, report);
  }

  lemma ReportsZScore(root: real -> real, d: Detector, values: seq<real>)
    requires RootLike(root) && d.ZScore? && 0.0 <= d.zThreshold && |values| >= 5 && Varies(values[..|values| - 1])
    ensures Reports(root, values)(d).Some? <==> Large(d.zThreshold, Excess(values), Spread(values))
  {
    ZScoreIff(root, d, values);
  }

  lemma ReportsRolling(root: real -> real, d: Detector, values: seq<real>)
    requires RootLike(root) && d.RollingStd? && Usable(d) && 0.0 <= d.multiplier && |values| >= 3 && |values| >= d.windowSize
    requires var window := values[|values| - d.windowSize..]; Varies(window[..|window| - 1])
    ensures var window := values[|values| - d.windowSize..];
      Reports(root, values)(d).Some? <==> Above(d.multiplier, Excess(window), Spread(window))
  {
    RollingIff(root, d, values);
  }

  /** What the platform's detectors report of a series of ten or more samples that varies, before the
      latest, within the last ten: a latency spike when the latest exceeds 5000 or its excess is as large
      as the latency score allows for, an error spike when it lies more than two deviations above the
      window, a cost spike when the excess is as large as the cost score allows for. */
  lemma {:induction false} DefaultFindings(root: real -> real, latency: real, cost: real, values: seq<real>)
    requires RootLike(root) && 0.0 <= latency && 0.0 <= cost && |values| >= 10
    requires Varies(values[|values| - 10..][..9]) && Varies(values[..|values| - 1])
    ensures var fs, window := Findings(root, DefaultDetectors(latency, cost), values), values[|values| - 10..];
      && (Reported(fs, LatencySpike) <==> values[|values| - 1] > 5000.0 || Large(latency, Excess(values), Spread(values)))
      && (Reported(fs, ErrorSpike) <==> Above(2.0, Excess(window), Spread(window)))
      && (Reported(fs, CostSpike) <==> Large(cost, Excess(values), Spread(values)))
  {
    var ds := DefaultDetectors(latency, cost);
    DefaultsReported(root, latency, cost, values);
    ThresholdIff(root, ds[0], values);
    ReportsZScore(root, ds[2], values);
    ReportsZScore(root, ds[3], values);
    ReportsRolling(root, ds[1], values);
  }
}
