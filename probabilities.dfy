/** The max-shifted softmax (`softmax`) and the first-winner argmax
    (`argMax`). `Math.exp` is a parameter: the results below hold of every
    function that is positive, and the ordering results of every one that is
    also strictly increasing, which the exponential is. */
module Probabilities {
  import opened Vectors

  /** What every use of `Math.exp` here relies on: it is positive. */
  ghost predicate ExpPositive(exp: real -> real)
  {
    forall x :: exp(x) > 0.0
  }

  /** The exponential is strictly increasing. */
  ghost predicate ExpIncreasing(exp: real -> real)
  {
    forall x, y :: x < y ==> exp(x) < exp(y)
  }

  /** The exponential of each logit less the largest logit. The shift keeps
      every argument at or below 0, and the largest logit's argument is 0. */
  function ShiftedExps(logits: seq<real>, exp: real -> real): (exps: seq<real>)
    requires logits != []
    ensures |exps| == |logits|
    ensures exists i :: 0 <= i < |logits| && exps[i] == exp(0.0)
    ensures forall i :: 0 <= i < |logits| && logits[i] == MaxOf(logits) ==> exps[i] == exp(0.0)
    ensures ExpIncreasing(exp) ==>
              forall i :: 0 <= i < |logits| && logits[i] < MaxOf(logits) ==> exps[i] < exp(0.0)
    ensures ExpIncreasing(exp) ==> forall i :: 0 <= i < |logits| ==> exps[i] <= exp(0.0)
  {
    var maxLogit := MaxOf(logits);
    var exps := seq(|logits|, i requires 0 <= i < |logits| => exp(logits[i] - maxLogit));
    assert forall i :: 0 <= i < |logits| ==> exps[i] == exp(logits[i] - maxLogit);
    exps
  }

  /** softmax: the shifted exponentials, each divided by their sum. An empty
      vector of logits gives an empty vector (the map over it is empty). */
  function Softmax(logits: seq<real>, exp: real -> real): (probs: seq<real>)
    requires ExpPositive(exp)
    ensures |probs| == |logits|
    ensures AllPositive(probs)
  {
    if logits == [] then []
    else
      var exps := ShiftedExps(logits, exp);
      SumPositive(exps);
      var probs := Divided(exps, Sum(exps));
      assert forall i :: 0 <= i < |probs| ==> probs[i] == exps[i] / Sum(exps);
      probs
  }

  /** The probabilities add up to exactly 1. */
  lemma SoftmaxSumsToOne(logits: seq<real>, exp: real -> real)
    requires ExpPositive(exp) && logits != []
    ensures Sum(Softmax(logits, exp)) == 1.0
  {
    var exps := ShiftedExps(logits, exp);
    SumPositive(exps);
    var total := Sum(exps);
    assert Softmax(logits, exp) == Divided(exps, total);
    SumDivided(exps, total);
    SelfQuotient(total);
  }

  lemma SelfQuotient(c: real)
    requires c != 0.0
    ensures c / c == 1.0
  {
  }

  /** Each probability lies in (0, 1]. */
  lemma SoftmaxBounded(logits: seq<real>, exp: real -> real, k: nat)
    requires ExpPositive(exp) && k < |logits|
    ensures 0.0 < Softmax(logits, exp)[k] <= 1.0
  {
    var probs := Softmax(logits, exp);
    SoftmaxSumsToOne(logits, exp);
    TermAtMostSum(probs, k);
  }

  lemma DivisionKeepsOrder(a: real, b: real, c: real)
    requires c > 0.0 && a < b
    ensures a / c < b / c
  {
  }

  /** Softmax keeps the order of the logits, in both directions:
      `logits[i] <= logits[j]` exactly when `probs[i] <= probs[j]`. */
  lemma SoftmaxKeepsOrder(logits: seq<real>, exp: real -> real, i: nat, j: nat)
    requires ExpPositive(exp) && ExpIncreasing(exp)
    requires i < |logits| && j < |logits|
    ensures logits[i] <= logits[j] <==> Softmax(logits, exp)[i] <= Softmax(logits, exp)[j]
    ensures logits[i] < logits[j] <==> Softmax(logits, exp)[i] < Softmax(logits, exp)[j]
  {
    var exps := ShiftedExps(logits, exp);
    SumPositive(exps);
    var total := Sum(exps);
    if logits[i] < logits[j] {
      DivisionKeepsOrder(exps[i], exps[j], total);
    } else if logits[j] < logits[i] {
      DivisionKeepsOrder(exps[j], exps[i], total);
    }
  }

  /** argMax: a reduce over (value, index) pairs. It keeps the earlier
      candidate unless the next value is strictly larger, so the result is
      the first index of a largest value. The reduce has no initial value,
      so the array must not be empty. */
  function ArgMax(a: seq<real>): (k: nat)
    requires a != []
    ensures k < |a|
    ensures forall j :: 0 <= j < |a| ==> a[j] <= a[k]
    ensures forall j :: 0 <= j < k ==> a[j] < a[k]
  {
    if |a| == 1 then 0
    else
      var r := ArgMax(a[..|a| - 1]);
      assert forall j :: 0 <= j < |a| - 1 ==> a[..|a| - 1][j] == a[j];
      if a[|a| - 1] > a[r] then |a| - 1 else r
  }

  /** An index that holds a largest value and comes before every other
      index holding one is the argmax: its contract determines it. */
  lemma ArgMaxUnique(a: seq<real>, k: nat)
    requires k < |a|
    requires forall j :: 0 <= j < |a| ==> a[j] <= a[k]
    requires forall j :: 0 <= j < k ==> a[j] < a[k]
    ensures ArgMax(a) == k
  {
  }

  /** Taking the softmax does not change the winning class. */
  lemma SoftmaxKeepsArgMax(logits: seq<real>, exp: real -> real)
    requires ExpPositive(exp) && ExpIncreasing(exp) && logits != []
    ensures ArgMax(Softmax(logits, exp)) == ArgMax(logits)
  {
    var probs := Softmax(logits, exp);
    var k := ArgMax(logits);
    forall j | 0 <= j < |probs|
      ensures probs[j] <= probs[k]
      ensures j < k ==> probs[j] < probs[k]
    {
      SoftmaxKeepsOrder(logits, exp, j, k);
    }
    ArgMaxUnique(probs, k);
  }
}
