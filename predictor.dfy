/** `predict`: flatten the hand's landmarks, standardise them, run the three
    dense layers and pick the most probable class. The model data is an
    explicit parameter; `None` stands for "no model loaded yet". */
module Predictor {
  import opened Vectors
  import opened Layers
  import opened Probabilities
  import opened Labels

  datatype Option<T> = None | Some(value: T)

  /** One tracked point of the hand, in world coordinates. */
  datatype Landmark = Landmark(x: real, y: real, z: real)

  /** `modelData.scaler`: per-feature mean and scale of the standard scaler. */
  datatype Scaler = Scaler(mean: seq<real>, scale: seq<real>)

  /** One dense layer: `fcN_w` (one row per output) and `fcN_b`. */
  datatype Layer = Layer(weights: seq<seq<real>>, bias: seq<real>)

  datatype ModelData = ModelData(scaler: Scaler, fc1: Layer, fc2: Layer, fc3: Layer)

  /** What predict returns: the symbol and the winning probability. */
  datatype Prediction = Prediction(symbol: JsString, confidence: real)

  /** The landmarks' coordinates in landmark order, x, y, z for each. */
  function Flattened(landmarks: seq<Landmark>): (flat: seq<real>)
    ensures |flat| == 3 * |landmarks|
  {
    if landmarks == [] then []
    else
      var lm := landmarks[|landmarks| - 1];
      Flattened(landmarks[..|landmarks| - 1]) + [lm.x, lm.y, lm.z]
  }

  /** Flattening gives three values per landmark, at positions 3k, 3k + 1
      and 3k + 2 for landmark k. */
  lemma {:induction false} FlattenedLayout(landmarks: seq<Landmark>)
    ensures forall k :: 0 <= k < |landmarks| ==>
              Flattened(landmarks)[3 * k] == landmarks[k].x &&
              Flattened(landmarks)[3 * k + 1] == landmarks[k].y &&
              Flattened(landmarks)[3 * k + 2] == landmarks[k].z
  {
    if landmarks != [] {
      var prefix := landmarks[..|landmarks| - 1];
      FlattenedLayout(prefix);
      assert forall k :: 0 <= k < |prefix| ==> prefix[k] == landmarks[k];
    }
  }

  /** The loop of predict that pushes each landmark's x, y and z in turn. */
  method Flatten(landmarks: seq<Landmark>) returns (flat: seq<real>)
    ensures flat == Flattened(landmarks)
    ensures |flat| == 3 * |landmarks|
    ensures forall k :: 0 <= k < |landmarks| ==>
              flat[3 * k] == landmarks[k].x &&
              flat[3 * k + 1] == landmarks[k].y &&
              flat[3 * k + 2] == landmarks[k].z
  {
    flat := [];
    for i := 0 to |landmarks|
      invariant flat == Flattened(landmarks[..i])
    {
      var lm := landmarks[i];
      assert landmarks[..i + 1][..i] == landmarks[..i];
      flat := flat + [lm.x, lm.y, lm.z];
    }
    assert landmarks[..|landmarks|] == landmarks;
    FlattenedLayout(landmarks);
  }

  /** What the scaling step needs: a mean and a nonzero scale for each of
      the first `width` features. */
  predicate Standardizes(scaler: Scaler, width: nat)
  {
    |scaler.mean| >= width && |scaler.scale| >= width &&
    forall i :: 0 <= i < width ==> scaler.scale[i] != 0.0
  }

  /** The standard scaler: each feature minus its mean, over its scale, that
      is the number of scales by which the feature lies above the mean. */
  function Standardize(flat: seq<real>, scaler: Scaler): (scaled: seq<real>)
    requires Standardizes(scaler, |flat|)
    ensures |scaled| == |flat|
    ensures forall i :: 0 <= i < |flat| ==>
              scaled[i] * scaler.scale[i] + scaler.mean[i] == flat[i]
  {
    seq(|flat|, i requires 0 <= i < |flat| => (flat[i] - scaler.mean[i]) / scaler.scale[i])
  }

  /** The inverse of the standard scaler: `x * scale + mean`. */
  function Unstandardize(scaled: seq<real>, scaler: Scaler): (flat: seq<real>)
    requires Standardizes(scaler, |scaled|)
    ensures |flat| == |scaled|
  {
    seq(|scaled|, i requires 0 <= i < |scaled| => scaled[i] * scaler.scale[i] + scaler.mean[i])
  }

  /** Standardising loses nothing: it and its inverse undo each other. */
  lemma StandardizeRoundTrip(v: seq<real>, scaler: Scaler)
    requires Standardizes(scaler, |v|)
    ensures Unstandardize(Standardize(v, scaler), scaler) == v
    ensures Standardize(Unstandardize(v, scaler), scaler) == v
  {
    var there := Unstandardize(Standardize(v, scaler), scaler);
    assert forall i :: 0 <= i < |v| ==> there[i] == v[i];
    var back := Standardize(Unstandardize(v, scaler), scaler);
    forall i | 0 <= i < |v|
      ensures back[i] == v[i]
    {
      var s := scaler.scale[i];
      assert back[i] * s == v[i] * s;
    }
  }

  /** Shapes under which every step of predict reads defined values only:
      the scaler covers the input, and each layer accepts the width of the
      vector fed to it (the input, then the previous layer's outputs). */
  predicate Fits(m: ModelData, width: nat)
  {
    Standardizes(m.scaler, width) &&
    Accepts(m.fc1.weights, m.fc1.bias, width) &&
    Accepts(m.fc2.weights, m.fc2.bias, |m.fc1.weights|) &&
    Accepts(m.fc3.weights, m.fc3.bias, |m.fc2.weights|)
  }

  /** The forward pass: Linear, ReLU, Linear, ReLU, Linear. */
  function Logits(m: ModelData, scaled: seq<real>): (logits: seq<real>)
    requires Fits(m, |scaled|)
    ensures |logits| == |m.fc3.weights| > 0
  {
    var h1 := Relu(Dense(scaled, m.fc1.weights, m.fc1.bias));
    var h2 := Relu(Dense(h1, m.fc2.weights, m.fc2.bias));
    Dense(h2, m.fc3.weights, m.fc3.bias)
  }

  /** The class probabilities for a flattened frame. */
  function ClassProbabilities(m: ModelData, flat: seq<real>, exp: real -> real): (probs: seq<real>)
    requires Fits(m, |flat|) && ExpPositive(exp)
    ensures |probs| == |m.fc3.weights| > 0
  {
    Softmax(Logits(m, Standardize(flat, m.scaler)), exp)
  }

  /** The winning class, its label and its probability: the class is the
      first one whose probability no other class exceeds, and the
      confidence is that probability, which lies in (0, 1]. */
  function Classify(m: ModelData, flat: seq<real>, exp: real -> real): (r: Prediction)
    requires Fits(m, |flat|) && ExpPositive(exp)
    ensures var probs := ClassProbabilities(m, flat, exp);
            exists k :: 0 <= k < |probs| && r == Prediction(Label(k), probs[k]) &&
              (forall j :: 0 <= j < |probs| ==> probs[j] <= probs[k]) &&
              (forall j :: 0 <= j < k ==> probs[j] < probs[k])
    ensures 0.0 < r.confidence <= 1.0
  {
    var probs := ClassProbabilities(m, flat, exp);
    var classIdx := ArgMax(probs);
    SoftmaxBounded(Logits(m, Standardize(flat, m.scaler)), exp, classIdx);
    Prediction(Label(classIdx), probs[classIdx])
  }

  /** predict: nothing without a model; otherwise the classification of the
      flattened landmarks, whose confidence is a probability in (0, 1]. */
  method Predict(model: Option<ModelData>, landmarks: seq<Landmark>, exp: real -> real)
    returns (result: Option<Prediction>)
    requires model.Some? ==> Fits(model.value, 3 * |landmarks|)
    requires ExpPositive(exp)
    ensures result.None? <==> model.None?
    ensures model.Some? ==>
              result == Some(Classify(model.value, Flattened(landmarks), exp))
    ensures result.Some? ==> 0.0 < result.value.confidence <= 1.0
  {
    if model.None? {
      return None;
    }
    var m := model.value;

    var flatLandmarks := Flatten(landmarks);
    var scaledInput := Standardize(flatLandmarks, m.scaler);

    var x := MatMul(scaledInput, m.fc1.weights, m.fc1.bias);
    x := Relu(x);
    x := MatMul(x, m.fc2.weights, m.fc2.bias);
    x := Relu(x);
    var logits := MatMul(x, m.fc3.weights, m.fc3.bias);

    var probs := Softmax(logits, exp);
    var classIdx := ArgMax(probs);
    var confidence := probs[classIdx];
    SoftmaxBounded(logits, exp, classIdx);

    var symbol;
    if classIdx == 26 {
      symbol := Units("DEL");
    } else if classIdx == 27 {
      symbol := Units("SPACE");
    } else {
      symbol := FromCharCode(classIdx + 65);
    }
    return Some(Prediction(symbol, confidence));
  }

  /** The confidence is the largest of the class probabilities, and the
      probabilities form a distribution: positive and summing to 1. */
  lemma ClassifyConfidenceIsTopProbability(m: ModelData, flat: seq<real>, exp: real -> real)
    requires Fits(m, |flat|) && ExpPositive(exp)
    ensures var probs := ClassProbabilities(m, flat, exp);
            Sum(probs) == 1.0 &&
            (forall j :: 0 <= j < |probs| ==> 0.0 < probs[j] <= Classify(m, flat, exp).confidence) &&
            Classify(m, flat, exp).confidence <= 1.0
  {
    var logits := Logits(m, Standardize(flat, m.scaler));
    SoftmaxSumsToOne(logits, exp);
    SoftmaxBounded(logits, exp, ArgMax(ClassProbabilities(m, flat, exp)));
  }

  /** The predicted symbol is the label of the largest logit: the softmax
      does not change which class wins. */
  lemma ClassifyPicksTopLogit(m: ModelData, flat: seq<real>, exp: real -> real)
    requires Fits(m, |flat|) && ExpPositive(exp) && ExpIncreasing(exp)
    ensures Classify(m, flat, exp).symbol == Label(ArgMax(Logits(m, Standardize(flat, m.scaler))))
  {
    SoftmaxKeepsArgMax(Logits(m, Standardize(flat, m.scaler)), exp);
  }

  /** A model whose second layer has a single zero weight feeds nothing of
      the frame forward, so its logits are the last layer's biases; with the
      bias of class 4 strictly above the rest, every frame of 21 landmarks is
      read as "E". */
  function BiasedTowardsE(): (m: ModelData)
    ensures Fits(m, 63)
  {
    ModelData(
      Scaler(seq(63, _ => 0.0), seq(63, _ => 1.0)),
      Layer([seq(63, _ => 0.0)], [0.0]),
      Layer([[0.0]], [0.0]),
      Layer(seq(28, _ => [0.0]), seq(28, i => if i == 4 then 10.0 else 0.0)))
  }

  lemma BiasedModelPredictsE(landmarks: seq<Landmark>, exp: real -> real)
    requires |landmarks| == 21
    requires ExpPositive(exp) && ExpIncreasing(exp)
    ensures Classify(BiasedTowardsE(), Flattened(landmarks), exp).symbol == Units("E")
  {
    var m := BiasedTowardsE();
    var flat := Flattened(landmarks);
    var scaled := Standardize(flat, m.scaler);
    var h1 := Relu(Dense(scaled, m.fc1.weights, m.fc1.bias));
    var h2 := Relu(Dense(h1, m.fc2.weights, m.fc2.bias));
    assert Dot(h1, m.fc2.weights[0], 1) == 0.0;
    assert h2 == [0.0];
    var logits := Logits(m, scaled);
    forall i | 0 <= i < 28
      ensures logits[i] == m.fc3.bias[i]
    {
      assert Dot(h2, m.fc3.weights[i], 1) == 0.0;
    }
    ArgMaxUnique(logits, 4);
    ClassifyPicksTopLogit(m, flat, exp);
  }
}
