/** Counting samples: what survives reordering. */
module Samples {

  function One(b: bool): nat {
    if b then 1 else 0
  }

  /** How many samples satisfy `p`. */
  function Count(s: seq<real>, p: real -> bool): (n: nat)
    ensures n <= |s|
  {
    if s == [] then 0 else One(p(s[0])) + Count(s[1..], p)
  }

  lemma {:induction false} CountsWithout(s: seq<real>, i: nat, p: real -> bool)
    requires i < |s|
    ensures Count(s, p) == One(p(s[i])) + Count(s[..i] + s[i + 1..], p)
  {
    if i == 0 {
      assert s[..0] + s[1..] == s[1..];
    } else {
      CountsWithout(s[1..], i - 1, p);
      var rest := s[..i] + s[i + 1..];
      assert rest[1..] == s[1..][..i - 1] + s[1..][i..] && rest[0] == s[0];
    }
  }

  lemma Without(a: seq<real>, b: seq<real>) returns (i: nat)
    requires a != [] && multiset(a) == multiset(b)
    ensures i < |b| && b[i] == a[0] && multiset(a[1..]) == multiset(b[..i] + b[i + 1..])
  {
    assert a[0] in multiset(b);
    i :| i < |b| && b[i] == a[0];
    var rest := b[..i] + b[i + 1..];
    assert multiset(a) == multiset{a[0]} + multiset(a[1..]) by { assert a == [a[0]] + a[1..]; }
    assert multiset(b) == multiset{b[i]} + multiset(rest) by { assert b == b[..i] + [b[i]] + b[i + 1..]; }
    assert multiset(a[1..]) == multiset(a) - multiset{a[0]} && multiset(rest) == multiset(b) - multiset{b[i]};
  }

  /** Reordered samples have equal counts. */
  lemma {:induction false} PermutationCounts(a: seq<real>, b: seq<real>, p: real -> bool)
    requires multiset(a) == multiset(b)
    ensures Count(a, p) == Count(b, p) && |a| == |b|
  {
    if a == [] {
      assert |multiset(b)| == |b|;
    } else {
      var i := Without(a, b);
      PermutationCounts(a[1..], b[..i] + b[i + 1..], p);
      CountsWithout(b, i, p);
    }
  }

  /** Counts agree when the samples correspond one by one. */
  lemma {:induction false} CountsCorrespond(a: seq<real>, p: real -> bool, b: seq<real>, q: real -> bool)
    requires |a| == |b| && forall i :: 0 <= i < |a| ==> (p(a[i]) <==> q(b[i]))
    ensures Count(a, p) == Count(b, q)
  {
    if a != [] { CountsCorrespond(a[1..], p, b[1..], q); }
  }

  lemma {:induction false} CountsInclude(a: seq<real>, p: real -> bool, b: seq<real>, q: real -> bool)
    requires |a| == |b| && forall i :: 0 <= i < |a| ==> (p(a[i]) ==> q(b[i]))
    ensures Count(a, p) <= Count(b, q)
  {
    if a != [] { CountsInclude(a[1..], p, b[1..], q); }
  }
}
