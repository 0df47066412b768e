/** What the drift and the anomaly detection share: severities, and running detectors in order. */
module Detection {
  import opened Events

  datatype Severity = Info | Warning | Critical

  function Rank(s: Severity): nat {
    match s case Info => 0 case Warning => 1 case Critical => 2
  }

  /** What the detectors report, in detector order. */
  function Collect<D, F>(ds: seq<D>, detect: D -> Option<F>): seq<F> {
    if ds == [] then []
    else
      var n := |ds| - 1;
      Collect(ds[..n], detect) + if detect(ds[n]).Some? then [detect(ds[n]).value] else []
  }

  /** The findings of two lists of detectors, one after the other, come one after the other. */
  lemma {:induction false} CollectAppends<D, F>(ds: seq<D>, es: seq<D>, detect: D -> Option<F>)
    ensures Collect(ds + es, detect) == Collect(ds, detect) + Collect(es, detect)
  {
    if es == [] {
      assert ds + es == ds;
    } else {
      var n := |es| - 1;
      CollectAppends(ds, es[..n], detect);
      assert (ds + es)[..|ds| + n] == ds + es[..n];
    }
  }

  /** So each detector has its finding, if any, between those of the detectors before and after it. */
  lemma {:induction false} CollectInOrder<D, F>(ds: seq<D>, i: nat, detect: D -> Option<F>)
    requires i < |ds|
    ensures Collect(ds, detect) ==
      Collect(ds[..i], detect) + (match detect(ds[i]) case Some(f) => [f] case None => []) + Collect(ds[i + 1..], detect)
  {
    var before, after := ds[..i], ds[i + 1..];
    assert ds == before + [ds[i]] + after;
    CollectAppends(before + [ds[i]], after, detect);
    CollectAppends(before, [ds[i]], detect);
    CollectOne(ds[i], detect);
  }

  lemma {:induction false} CollectOne<D, F>(d: D, detect: D -> Option<F>)
    ensures Collect([d], detect) == match detect(d) case Some(f) => [f] case None => []
  {
    assert Collect([d][..0], detect) == [];
  }

  lemma {:induction false} CollectHas<D, F>(ds: seq<D>, detect: D -> Option<F>, i: nat, f: F)
    requires i < |ds| && detect(ds[i]) == Some(f)
    ensures f in Collect(ds, detect)
  {
    var n := |ds| - 1;
    if i < n {
      assert ds[..n][i] == ds[i];
      CollectHas(ds[..n], detect, i, f);
    }
  }

  lemma {:induction false} CollectFrom<D, F>(ds: seq<D>, detect: D -> Option<F>, f: F) returns (i: nat)
    requires f in Collect(ds, detect)
    ensures i < |ds| && detect(ds[i]) == Some(f)
  {
    var n := |ds| - 1;
    if detect(ds[n]) == Some(f) {
      i := n;
    } else {
      i := CollectFrom(ds[..n], detect, f);
      assert ds[..n][i] == ds[i];
    }
  }
}
