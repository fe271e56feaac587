# Hand-sign classifier inference, modelled in Dafny

This project models the inference helpers of the sign-language demo page in
`script.js`. They turn one hand's landmark frame into a predicted symbol: a
letter `A`–`Z`, `DEL` or `SPACE`, with a confidence. The steps are these:

- flatten the landmarks into x, y, z values;
- standardise each feature with the scaler's mean and scale;
- run three dense layers, with ReLU after the first two;
- take the max-shifted softmax of the logits;
- pick the first most-probable class and map it to its label.

The arithmetic is over Dafny's `real`, not IEEE-754 doubles. `Math.exp` is a
parameter `exp: real -> real`. Every result about the softmax and the
prediction needs it to be positive (`ExpPositive`). The results about order
also need it to be strictly increasing (`ExpIncreasing`). The real
exponential has both properties. The layers, ReLU, argmax, flattening,
scaling and labels do not use it.

The model data (scaler mean and scale, `fc1`–`fc3` weights and biases) is
also an explicit parameter of `Predict`. It is an `Option`, and `None`
stands for "no model loaded". The source checks no shapes. So the shapes
that keep every read defined are `requires` clauses (`Layers.Accepts`,
`Predictor.Standardizes`, `Predictor.Fits`), not error results.

Modules:

- `Vectors` (vectors.dfy): the left-to-right sum, the maximum, division of every element, and lemmas about sums.
- `Layers` (layers.dfy): `matMul` as the method `MatMul`, a nested loop over a freshly allocated array, proved against the function `Dense`. It also holds `relu`.
- `Probabilities` (probabilities.dfy): `softmax` and `argMax`.
- `Labels` (labels.dfy): the mapping from a class index to its symbol. JavaScript strings are UTF-16 code units and `String.fromCharCode` keeps the low 16 bits of its argument. So labels are sequences of code units, and the mapping is defined for every index, as it is in the source.
- `Predictor` (predictor.dfy): `predict`. The flattening loop is the method `Flatten`. The pure pipeline is the function `Classify`, and `Predict` is proved equal to it.

What the code does not check, the model does not check either:

- The code validates no shapes, neither when it takes the model data (it only throws when the embedded model data is undefined, script.js:308-310) nor when it predicts. It never reports a shape mismatch.
- The code does not check the number of landmarks, and returns no "no symbol" value for a short frame. Any number of landmarks is flattened, and the shape requirements are stated against 3 × that number.
- The code does not check the class index before labelling it. An index of 28 or more, from a model with more than 28 outputs, is labelled with the character whose code is the index plus 65.

## Model

| member | source | states |
|---|---|---|
| Layers.MatMul | script.js:354-366 | the output has one entry per row of weights; entry i is the left-to-right sum of `input[j] * weights[i][j]` for j below `weights[0].length`, plus `bias[i]`; this equals the layer function `Dense` |
| Layers.Dense | script.js:355-357 | the layer's output has exactly one entry per row of weights |
| Layers.Relu | script.js:370-372 | length preserved; each output is at least 0 and at least its input, and is either the input or 0 (so it is the maximum of the two) |
| Layers.ReluFixesExactlyNonNegative | script.js:370-372 | ReLU returns its input unchanged if and only if no entry is negative |
| Layers.ReluIdempotent | script.js:370-372 | applying ReLU twice equals applying it once |
| Vectors.MaxOf | script.js:376 | the maximum logit is one of the logits and no logit exceeds it |
| Probabilities.ShiftedExps | script.js:376-377 | one exponential per logit, shifted by the largest logit: every entry whose logit equals the largest is exp(0), and with exp increasing every entry whose logit is smaller lies strictly below exp(0), so no entry exceeds it |
| Probabilities.Softmax | script.js:375-380 | length preserved and every probability is strictly positive; an empty vector of logits gives an empty vector |
| Vectors.SumDivided | script.js:378-379 | dividing every term by the sum's divisor divides the left-to-right sum by it |
| Vectors.SumPositive | script.js:378 | the sum of the exponentials is positive, so the division is defined |
| Vectors.TermAtMostSum | script.js:378-379 | no non-negative term exceeds the sum it is part of |
| Probabilities.SoftmaxSumsToOne | script.js:375-380 | for non-empty logits the probabilities add up to exactly 1 |
| Probabilities.SoftmaxBounded | script.js:375-380 | every probability lies in (0, 1] |
| Probabilities.SoftmaxKeepsOrder | script.js:376-379 | with exp strictly increasing, `logits[i] <= logits[j]` if and only if `probs[i] <= probs[j]`, and likewise for `<` |
| Probabilities.ArgMax | script.js:383-385 | for a non-empty array: an index in bounds whose value is at least every element, and every earlier index holds a strictly smaller value (the first maximum wins, because of the strict `>`) |
| Probabilities.ArgMaxUnique | script.js:383-385 | those properties determine the index: any index with them is the argmax |
| Probabilities.SoftmaxKeepsArgMax | script.js:383-385 | `argMax(softmax(logits)) == argMax(logits)` when exp is strictly increasing |
| Predictor.Flattened | script.js:392-395 | flattening n landmarks gives 3·n values |
| Predictor.FlattenedLayout | script.js:392-395 | the values of landmark k sit at positions 3k, 3k+1 and 3k+2, in x, y, z order |
| Predictor.Flatten | script.js:392-395 | the push loop yields the flattened landmarks: 3·n values, the x, y and z of landmark k at 3k, 3k+1 and 3k+2 |
| Predictor.Standardize | script.js:398-400 | same length as the flattened input; each scaled value times its scale plus its mean gives back the feature, which fixes it as (feature − mean) / scale when the scale is nonzero |
| Predictor.StandardizeRoundTrip | script.js:398-400 | standardising and the inverse map `x * scale + mean` undo each other in both orders |
| Predictor.Logits | script.js:404-412 | the forward pass through the three layers gives one logit per row of the last layer, and at least one |
| Predictor.ClassProbabilities | script.js:415 | one probability per output of the last layer |
| Predictor.Classify | script.js:415-425 | the result is the label of some class k and the probability of k, where no class has a larger probability than k and every earlier class has a strictly smaller one (the first maximum); the confidence lies in (0, 1] |
| Predictor.Predict | script.js:388-426 | no result without a model, a result with one; that result is the label of the argmax of the softmax of the forward pass over the standardised, flattened landmarks, paired with that class's probability, and the confidence lies in (0, 1] |
| Predictor.ClassifyConfidenceIsTopProbability | script.js:415-417 | the class probabilities sum to 1, all are positive, none exceeds the confidence, and the confidence is at most 1 |
| Predictor.ClassifyPicksTopLogit | script.js:412-423 | with exp strictly increasing, the predicted symbol is the label of the first largest logit |
| Predictor.BiasedModelPredictsE | script.js:388-426 | a model whose hidden layer carries nothing forward and whose class-4 bias is the largest reads every 21-landmark frame as "E" |
| Labels.Label | script.js:420-423 | 26 gives "DEL", 27 gives "SPACE", any other index k gives the single code unit (k + 65) mod 2^16, which for k below 26 is a letter from 'A' to 'Z' |
| Labels.FromCharCode | script.js:423 | the character conversion yields a single code unit |
| Labels.LabelLetters | script.js:423 | indices 0 to 25 give the single letter with code 65 + index, between 'A' and 'Z' |
| Labels.LabelExamples | script.js:420-423 | 0 gives "A", 4 gives "E", 25 gives "Z", 26 gives "DEL", 27 gives "SPACE" |
| Labels.LabelInjective | script.js:420-423 | no two of the indices 0 to 27 share a label |

## Left out

- IEEE-754 rounding, NaN and infinities. The arithmetic is exact over the reals. So a wrong shape, which in the browser gives NaN from an `undefined` read, is a precondition here.
- `Math.exp` itself. It is a parameter, and only positivity and strict monotonicity are assumed of it. Closeness of the confidence to 1 therefore cannot be stated.
- `Math.max` over an empty array gives `-Infinity`. This is not modelled, because the map that follows it is empty and its result is then unused.
- The loading of the embedded model data, the `isModelLoaded` flag, MediaPipe hands and camera setup, the frame callback and `onResults` drawing. These are foreign libraries, I/O and DOM updates. The model data is a parameter instead.
- Page chrome: theme toggle, scroll observers, typewriter, particle canvas and modal handling. These are DOM and timer plumbing outside the inference helpers.
- The text-to-sign lookup, which calls an external text-generation service. It is not part of the inference helpers.
