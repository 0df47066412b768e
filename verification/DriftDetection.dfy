/** The drift detectors, the service that runs them, and the windows the drift worker compares. */
module DriftDetection {
  import opened Events
  import opened Drift
  import opened Divergence
  import opened Detection

  datatype DriftType = DataDrift | OutputDrift | EmbeddingDrift

  datatype Detector = PsiDetector(threshold: real, driftType: DriftType) | JensenShannonDetector(threshold: real, driftType: DriftType)

  datatype DriftFinding = DriftFinding(driftType: DriftType, severity: Severity, metricName: string, score: real, threshold: real)

  function Score(ln: real -> real, d: Detector, baseline: seq<real>, current: seq<real>): real {
    if d.PsiDetector? then Psi(ln, baseline, current, 10) else JensenShannon(ln, baseline, current)
  }

  function Detect(ln: real -> real, d: Detector, baseline: seq<real>, current: seq<real>): Option<DriftFinding> {
    var score := Score(ln, d, baseline, current);
    if score >= d.threshold then
      var limit := if d.PsiDetector? then d.threshold * 1.5 else d.threshold * 2.0;
      Some(DriftFinding(d.driftType, if score >= limit then Critical else Warning, if d.PsiDetector? then "psi" else "jensen_shannon", score, d.threshold))
    else None
  }

  function Reports(ln: real -> real, baseline: seq<real>, current: seq<real>): Detector -> Option<DriftFinding> {
    (d: Detector) => Detect(ln, d, baseline, current)
  }

  /** The findings of all detectors, in detector order. */
  function Findings(ln: real -> real, ds: seq<Detector>, baseline: seq<real>, current: seq<real>): seq<DriftFinding> {
    Collect(ds, Reports(ln, baseline, current))
  }

  method Evaluate(ln: real -> real, detectors: seq<Detector>, baseline: seq<real>, current: seq<real>) returns (findings: seq<DriftFinding>)
    ensures findings == Findings(ln, detectors, baseline, current)
  {
    findings := [];
    for i := 0 to |detectors|
      invariant findings == Collect(detectors[..i], Reports(ln, baseline, current))
    {
      var finding := Detect(ln, detectors[i], baseline, current);
      if finding.Some? { findings := findings + [finding.value]; }
      assert detectors[..i + 1][..i] == detectors[..i];
    }
    assert detectors[..|detectors|] == detectors;
  }

  const DEFAULT_DETECTORS: seq<Detector> := [
    PsiDetector(0.2, DataDrift), JensenShannonDetector(0.1, OutputDrift), JensenShannonDetector(0.15, EmbeddingDrift)]

  /** Two Jensen-Shannon detectors: what the stricter one reports, the laxer one reports too, with the
      same score and at least the severity. */
  lemma StricterImpliesLaxer(ln: real -> real, strict: Detector, lax: Detector, b: seq<real>, c: seq<real>)
    requires strict.JensenShannonDetector? && lax.JensenShannonDetector? && lax.threshold <= strict.threshold
    requires Detect(ln, strict, b, c).Some?
    ensures Detect(ln, lax, b, c).Some?
    ensures Detect(ln, lax, b, c).value.score == Detect(ln, strict, b, c).value.score
    ensures Rank(Detect(ln, strict, b, c).value.severity) <= Rank(Detect(ln, lax, b, c).value.severity)
  {
  }

  /** With the default detectors an embedding-drift finding never comes without an output-drift one of
      the same score and at least the same severity. */
  lemma EmbeddingImpliesOutput(ln: real -> real, b: seq<real>, c: seq<real>, f: DriftFinding)
    requires f in Findings(ln, DEFAULT_DETECTORS, b, c) && f.driftType.EmbeddingDrift?
    ensures exists g ::
      g in Findings(ln, DEFAULT_DETECTORS, b, c) && g.driftType.OutputDrift? && g.score == f.score && Rank(f.severity) <= Rank(g.severity)
  {
    var ds := DEFAULT_DETECTORS;
    var i := CollectFrom(ds, Reports(ln, b, c), f);
    assert i == 2;
    StricterImpliesLaxer(ln, ds[2], ds[1], b, c);
    CollectHas(ds, Reports(ln, b, c), 1, Detect(ln, ds[1], b, c).value);
  }

  /** What the default detectors report, and when: `score` from `limit` on, critical from `critical` on. */
  ghost predicate ReportedFrom(fs: seq<DriftFinding>, kind: DriftType, score: real, limit: real, critical: real) {
    && ((exists f :: f in fs && f.driftType == kind) <==> score >= limit)
    && forall f :: f in fs && f.driftType == kind ==>
      f.score == score && f.threshold == limit && (f.severity.Critical? <==> score >= critical) && !f.severity.Info?
  }

  /** Data drift is a stability index of 0.2 or more and critical from 0.3 on; output drift a divergence
      of 0.1 or more, critical from 0.2 on; embedding drift one of 0.15 or more, critical from 0.3 on. */
  lemma DefaultFindings(ln: real -> real, b: seq<real>, c: seq<real>)
    ensures var fs := Findings(ln, DEFAULT_DETECTORS, b, c);
      && ReportedFrom(fs, DataDrift, Psi(ln, b, c, 10), 0.2, 0.3)
      && ReportedFrom(fs, OutputDrift, JensenShannon(ln, b, c), 0.1, 0.2)
      && ReportedFrom(fs, EmbeddingDrift, JensenShannon(ln, b, c), 0.15, 0.3)
  {
    var fs := Findings(ln, DEFAULT_DETECTORS, b, c);
    DetectorReports(ln, 0, b, c, Psi(ln, b, c, 10), 0.3);
    DetectorReports(ln, 1, b, c, JensenShannon(ln, b, c), 0.2);
    DetectorReports(ln, 2, b, c, JensenShannon(ln, b, c), 0.3);
  }

  lemma DetectorReports(ln: real -> real, k: nat, b: seq<real>, c: seq<real>, score: real, critical: real)
    requires k < |DEFAULT_DETECTORS| && score == Score(ln, DEFAULT_DETECTORS[k], b, c)
    requires critical == DEFAULT_DETECTORS[k].threshold * if k == 0 then 1.5 else 2.0
    ensures ReportedFrom(Findings(ln, DEFAULT_DETECTORS, b, c), DEFAULT_DETECTORS[k].driftType, score, DEFAULT_DETECTORS[k].threshold, critical)
  {
    var ds := DEFAULT_DETECTORS;
    var d, fs := ds[k], Findings(ln, ds, b, c);
    if score >= d.threshold { CollectHas(ds, Reports(ln, b, c), k, Detect(ln, d, b, c).value); }
    forall f | f in fs && f.driftType == d.driftType ensures Detect(ln, d, b, c) == Some(f) {
      var i := CollectFrom(ds, Reports(ln, b, c), f);
      assert i == k;
    }
  }

  /** Identical samples are never reported. */
  lemma NoDriftOnEqual(ln: real -> real, b: seq<real>)
    requires LogLike(ln)
    ensures Findings(ln, DEFAULT_DETECTORS, b, b) == []
  {
    var ds := DEFAULT_DETECTORS;
    JsOfEqual(ln, b);
    PsiOfEqual(ln, b);
    assert forall i :: 0 <= i < 3 ==> Detect(ln, ds[i], b, b) == None;
    var fs := Findings(ln, ds, b, b);
    if fs != [] {
      assert fs[0] in fs;
      var i := CollectFrom(ds, Reports(ln, b, b), fs[0]);
      assert false;
    }
  }

  lemma PsiOfEqual(ln: real -> real, b: seq<real>)
    ensures Psi(ln, b, b, 10) == 0.0
  {
    if b != [] { PsiOverEqual(ln, b, Bins(Low(b, b), High(b, b), 10)); }
  }

  lemma {:induction false} PsiOverEqual(ln: real -> real, b: seq<real>, bins: seq<Bin>)
    requires b != []
    ensures PsiOver(ln, b, b, bins) == 0.0
  {
    if bins != [] { PsiOverEqual(ln, b, bins[..|bins| - 1]); }
  }

  // ------------------------------------------------------------------ the worker's windows

  const HISTORY: nat := 40
  const BASELINE: nat := 20
  const CURRENT: nat := 10

  /** The last 40 samples in time order; fewer than 20 are not evaluated. */
  function Windows(history: seq<real>): Option<(seq<real>, seq<real>)> {
    var values := if |history| <= HISTORY then history else history[|history| - HISTORY..];
    if |values| < BASELINE then None else Some((values[..BASELINE], values[|values| - CURRENT..]))
  }

  /** Position `i` of the history is in the baseline or the current window. */
  predicate InBaseline(n: nat, i: nat) {
    var from := if n <= HISTORY then 0 else n - HISTORY;
    from <= i < from + BASELINE
  }

  predicate InCurrent(n: nat, i: nat) {
    n - CURRENT <= i < n
  }

  /** The two windows share samples exactly while fewer than 30 have been recorded: drift is first
      scored on samples compared with themselves. */
  lemma WindowsOverlapIff(history: seq<real>)
    requires Windows(history).Some?
    ensures |Windows(history).value.0| == BASELINE && |Windows(history).value.1| == CURRENT
    ensures (exists i: nat :: InBaseline(|history|, i) && InCurrent(|history|, i)) <==> |history| < BASELINE + CURRENT
    ensures forall i: nat :: InBaseline(|history|, i) ==>
      Windows(history).value.0[i - (if |history| <= HISTORY then 0 else |history| - HISTORY)] == history[i]
    ensures forall i: nat :: InCurrent(|history|, i) ==> Windows(history).value.1[i - (|history| - CURRENT)] == history[i]
  {
    var n := |history|;
    if n < BASELINE + CURRENT {
      assert InBaseline(n, n - CURRENT) && InCurrent(n, n - CURRENT);
    }
  }
}
