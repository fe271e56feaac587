/** Folds over vectors of reals shared by the layers and the softmax. */
module Vectors {

  /** The left-to-right sum `((0 + s[0]) + s[1]) + ...`, the order of a
      reduce that starts from 0. */
  function Sum(s: seq<real>): real
  {
    if s == [] then 0.0 else Sum(s[..|s| - 1]) + s[|s| - 1]
  }

  /** The largest element, as `Math.max` gives it for a non-empty s. */
  function MaxOf(s: seq<real>): (m: real)
    requires s != []
    ensures exists i :: 0 <= i < |s| && s[i] == m
    ensures forall i :: 0 <= i < |s| ==> s[i] <= m
  {
    if |s| == 1 then s[0]
    else
      var m' := MaxOf(s[..|s| - 1]);
      assert forall i :: 0 <= i < |s| - 1 ==> s[..|s| - 1][i] == s[i];
      if s[|s| - 1] > m' then s[|s| - 1] else m'
  }

  /** Every element divided by c. */
  function Divided(s: seq<real>, c: real): (r: seq<real>)
    requires c != 0.0
    ensures |r| == |s|
  {
    seq(|s|, i requires 0 <= i < |s| => s[i] / c)
  }

  predicate AllPositive(s: seq<real>)
  {
    forall i :: 0 <= i < |s| ==> s[i] > 0.0
  }

  predicate AllNonNegative(s: seq<real>)
  {
    forall i :: 0 <= i < |s| ==> s[i] >= 0.0
  }

  /** A sum of non-negative terms is non-negative. */
  lemma {:induction false} SumNonNegative(s: seq<real>)
    requires AllNonNegative(s)
    ensures Sum(s) >= 0.0
  {
    if s != [] {
      SumNonNegative(s[..|s| - 1]);
    }
  }

  /** A non-empty sum of positive terms is positive. */
  lemma {:induction false} SumPositive(s: seq<real>)
    requires s != [] && AllPositive(s)
    ensures Sum(s) > 0.0
  {
    if |s| > 1 {
      SumPositive(s[..|s| - 1]);
    }
  }

  /** No non-negative term exceeds the sum it belongs to. */
  lemma {:induction false} TermAtMostSum(s: seq<real>, k: nat)
    requires AllNonNegative(s) && k < |s|
    ensures s[k] <= Sum(s)
  {
    var p := s[..|s| - 1];
    if k == |s| - 1 {
      SumNonNegative(p);
    } else {
      TermAtMostSum(p, k);
    }
  }

  /** Dividing every term by c divides the sum by c. */
  lemma {:induction false} SumDivided(s: seq<real>, c: real)
    requires c != 0.0
    ensures Sum(Divided(s, c)) == Sum(s) / c
  {
    if s != [] {
      var p := s[..|s| - 1];
      assert Divided(s, c)[..|s| - 1] == Divided(p, c);
      SumDivided(p, c);
      DivisionDistributes(Sum(p), s[|s| - 1], c);
    }
  }

  lemma DivisionDistributes(a: real, b: real, c: real)
    requires c != 0.0
    ensures a / c + b / c == (a + b) / c
  {
  }
}
