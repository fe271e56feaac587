/** The dense layer (`matMul`) and the ReLU activation (`relu`). */
module Layers {

  /** The running sum of `input[j] * row[j]` for j = 0, 1, ..., n - 1, added
      left to right from 0, which is the order of the inner loop of matMul. */
  function Dot(input: seq<real>, row: seq<real>, n: nat): real
    requires n <= |input| && n <= |row|
  {
    if n == 0 then 0.0 else Dot(input, row, n - 1) + input[n - 1] * row[n - 1]
  }

  /** What matMul needs of its arguments to compute with defined values only:
      `weights[0]` must exist (its length is the input width), the input must
      have that many entries, every row must reach that column, and there
      must be a bias for every row. Longer inputs, rows and biases are fine:
      their extra entries are never read. */
  predicate Accepts(weights: seq<seq<real>>, bias: seq<real>, inputLength: nat)
  {
    |weights| > 0 &&
    |weights[0]| <= inputLength &&
    |bias| >= |weights| &&
    forall i :: 0 <= i < |weights| ==> |weights[i]| >= |weights[0]|
  }

  /** The affine map the layer computes: one output per row of weights, the
      row's dot product with the input over the first `|weights[0]|` columns
      plus that row's bias. */
  function Dense(input: seq<real>, weights: seq<seq<real>>, bias: seq<real>): (out: seq<real>)
    requires Accepts(weights, bias, |input|)
    ensures |out| == |weights|
  {
    seq(|weights|, i requires 0 <= i < |weights| => Dot(input, weights[i], |weights[0]|) + bias[i])
  }

  /** matMul: allocates an output array of `weights.length` zeros and fills
      entry i with a running sum over the columns plus `bias[i]`. */
  method MatMul(input: seq<real>, weights: seq<seq<real>>, bias: seq<real>) returns (output: seq<real>)
    requires Accepts(weights, bias, |input|)
    ensures |output| == |weights|
    ensures forall i :: 0 <= i < |weights| ==>
              output[i] == Dot(input, weights[i], |weights[0]|) + bias[i]
    ensures output == Dense(input, weights, bias)
  {
    var outFeatures := |weights|;
    var inFeatures := |weights[0]|;
    var out := new real[outFeatures](_ => 0.0);
    for i := 0 to outFeatures
      invariant forall k :: 0 <= k < i ==> out[k] == Dot(input, weights[k], inFeatures) + bias[k]
    {
      var sum := 0.0;
      for j := 0 to inFeatures
        invariant sum == Dot(input, weights[i], j)
      {
        sum := sum + input[j] * weights[i][j];
      }
      out[i] := sum + bias[i];
    }
    output := out[..];
  }

  /** The larger of 0 and x. */
  function Rectify(x: real): real
  {
    if x > 0.0 then x else 0.0
  }

  /** relu: the larger of 0 and each entry. Each output is the least value
      that is at least 0 and at least the input, which is one of the two. */
  function Relu(input: seq<real>): (out: seq<real>)
    ensures |out| == |input|
    ensures forall i :: 0 <= i < |input| ==>
              out[i] >= 0.0 && out[i] >= input[i] && (out[i] == input[i] || out[i] == 0.0)
  {
    seq(|input|, i requires 0 <= i < |input| => Rectify(input[i]))
  }

  /** ReLU leaves a vector alone exactly when no entry is negative. */
  lemma ReluFixesExactlyNonNegative(input: seq<real>)
    ensures Relu(input) == input <==> forall i :: 0 <= i < |input| ==> input[i] >= 0.0
  {
    if forall i :: 0 <= i < |input| ==> input[i] >= 0.0 {
      assert forall i :: 0 <= i < |input| ==> Relu(input)[i] == input[i];
    }
  }

  /** Applying ReLU twice is applying it once. */
  lemma ReluIdempotent(input: seq<real>)
    ensures Relu(Relu(input)) == Relu(input)
  {
    ReluFixesExactlyNonNegative(Relu(input));
  }
}
