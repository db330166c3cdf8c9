# MNIST classifier harness — Dafny model

This project models `MNISTClassifier` from `src/nns/mnist-classifier.ts`: the
thin layer of exact logic a ten-class digit classifier puts on top of an opaque
feed-forward engine. It covers:

- the label encoder that turns a label `y` into a one-hot target vector of width
  10 (`LabelEncoder`);
- `predict`, which takes the arg-max of the engine's output and, for a labelled
  sample, attaches the ground truth and a correctness flag (`Prediction`);
- `train`, which applies the `learningRate`/`errorFunction` overrides, builds the
  input and target sequences once, and calls the engine's learning step once per
  epoch (default 5) on the full batch (`Training`);
- `test`, which rejects a `testLength` larger than the dataset, predicts every
  sample, and counts the `true` flags (`Evaluation`).

The engine (`NeuralEngine`) is an abstract state: its two settings plus the
sequence of batches handed to `backward`, whose length is the number of learning
steps taken. The forward pass followed by `getMaxValIndex` is a parameter
`net: Vector -> ClassIndex`. No tie-break rule is assumed for it. JavaScript's
`null`/`undefined` is `Option.None`. The `??` operator is `Option.GetOr`, which
keeps a supplied `0`. A thrown error is `Result.Failure`.

The model keeps these behaviours of the code as they are:

- A sample labelled `0` gets no correctness flag, because `if (groundTruth)`
  tests truthiness. `test` therefore never counts it as correct. Label `0` is a
  real class: `train` encodes it as class 0 (line 76). `groundTruth` is typed
  `number | null`, with `null` meaning absent (lines 8 and 39). Skipping the
  flag for a present `0` is therefore a slip. It is recorded under Findings.
- `test` scores the whole dataset, whatever `testLength` is, and reports
  `testLength` as `totalTested`. Neither the test length nor the epoch count is
  checked to be positive. A negative `epochs` runs no epoch but still reports
  `|data| * epochs` samples trained.

## Model

| member | source | states |
|---|---|---|
| LabelEncoder.Zeros | src/nns/mnist-classifier.ts:75 | `new Array(n).fill(0)` has length `n` and holds zero at every index |
| LabelEncoder.OneHot | src/nns/mnist-classifier.ts:75-76 | for a label in `[0,10)` the target vector has length 10, a one at the label and zero at every other index |
| LabelEncoder.IndexOfOne | src/nns/mnist-classifier.ts:75-76 | the decoder partner: returns the first index holding a one, and `None` exactly when no entry is one |
| LabelEncoder.DecodeOneHot | src/nns/mnist-classifier.ts:75-76 | decoding a label's target vector gives the label back |
| LabelEncoder.OneHotIsOneHot | src/nns/mnist-classifier.ts:75-76 | every target vector is one-hot, and two labels share a target vector iff they are equal |
| LabelEncoder.OneHotComplete | src/nns/mnist-classifier.ts:75-76 | every one-hot vector of width 10 is the target of the label the decoder reads from it |
| NeuralEngine.Backward | src/nns/mnist-classifier.ts:87 | a learning step is recorded after all earlier ones, with its batch and the settings it ran under, and leaves the settings unchanged |
| Prediction.Predict | src/nns/mnist-classifier.ts:37-63 | answer is the arg-max; a bare vector gets no ground truth and no flag; a labelled pair gets ground truth `y`, and a flag `answer == y` iff `y != 0` |
| Prediction.PredictCorrected | src/nns/mnist-classifier.ts:53-55 | intended behaviour: every labelled pair, label 0 included, gets the flag `answer == y` |
| Prediction.PredictDiffersOnlyAtZero | src/nns/mnist-classifier.ts:52-55 | as-written and corrected `predict` agree iff the input is not a sample labelled 0 |
| Prediction.ZeroLabelNotCredited | src/nns/mnist-classifier.ts:53-55 | a sample labelled 0 and answered 0 has a matching answer but no flag, where the corrected version gives `true` |
| Prediction.FlagIsSound | src/nns/mnist-classifier.ts:52-55 | a flag, when present, comes with a ground truth and is true iff the answer equals it |
| Training.Epochs | src/nns/mnist-classifier.ts:66 | the epoch count is the supplied one, or 5 when none is supplied |
| Training.EpochRuns | src/nns/mnist-classifier.ts:83 | the loop `e < epochs` runs `epochs` times for a count that is not negative, and never for a negative one |
| Training.ApplyOptions | src/nns/mnist-classifier.ts:68-69 | a supplied learning rate or error function replaces the setting; an absent one leaves it unchanged |
| Training.PrepareBatch | src/nns/mnist-classifier.ts:71-80 | inputs and targets both have the dataset's length; position `i` holds `data[i].x` and the one-hot vector of `data[i].y` |
| Training.DecodeBatch | src/nns/mnist-classifier.ts:71-80 | the inverse of batch preparation: a decoded dataset has the batch's length |
| Training.DecodePreparedBatch | src/nns/mnist-classifier.ts:71-80 | decoding a prepared batch gives back exactly the dataset it was built from |
| Training.Train | src/nns/mnist-classifier.ts:65-97 | settings take the overrides; `backward` runs `max(0, epochs)` times (default 5), always on the same full prepared batch and under the overridden settings, after all earlier steps; result is `|data| * epochs` trained, status `Done` |
| Training.TrainTwice | src/nns/mnist-classifier.ts:65-97 | overrides persist across calls: two trainings add their learning steps after all earlier ones, and a second call without overrides keeps the first call's settings |
| Evaluation.TestLength | src/nns/mnist-classifier.ts:100 | the test length is the supplied one, or the dataset's length when none is supplied |
| Evaluation.CountTrue | src/nns/mnist-classifier.ts:111 | the number of `true` flags never exceeds the number of flags |
| Evaluation.Accuracy | src/nns/mnist-classifier.ts:113 | NaN (`None`) iff nothing was scored; otherwise a percentage in `[0,100]` times `n` equals `100 * correct`, 100 iff all correct, 0 iff none |
| Evaluation.AccuracyScale | src/nns/mnist-classifier.ts:113 | the quotient `100 * correct / n` over a nonempty count is a percentage that scales back to `100 * correct` |
| Evaluation.CountTrueOfPredictions | src/nns/mnist-classifier.ts:105-111 | the `true` flags of the predictions count exactly the samples with a nonzero label answered right |
| Evaluation.CountTrueOfCorrectedPredictions | src/nns/mnist-classifier.ts:105-111 | with corrected predictions the `true` flags count every sample answered right |
| Evaluation.CreditedMissesZeroHits | src/nns/mnist-classifier.ts:107-111 | the credited count plus the samples labelled and answered 0 equals the samples answered right |
| Evaluation.ZeroHitsVanish | src/nns/mnist-classifier.ts:107-111 | no sample is lost to the label-0 defect iff no sample is both labelled and answered 0 |
| Evaluation.AllRightAllHits | src/nns/mnist-classifier.ts:107-111 | when every answer is right, every sample counts as answered right |
| Evaluation.Test | src/nns/mnist-classifier.ts:99-121 | fails iff `testLength` (default `|data|`) exceeds `|data|`; otherwise reports `totalTested == testLength`, correct = samples with a nonzero label answered right, `correct + wrong == |data|`, accuracy over `|data|` |
| Evaluation.TestAllRight | src/nns/mnist-classifier.ts:105-113 | when every answer is right, `test` reports no wrong answer and 100 accuracy iff no sample is labelled 0 |

## Left out

- The engine's numerical work (`forward`, `backward`, `getMaxValIndex`, the `Classifier` base class in `lib/nn`) is not part of this model. The arg-max is the parameter `net`, and a learning step is only recorded.
- `confidence` (`value * 100`) is left out because it is floating-point arithmetic on an output vector the model does not see.
- Evaluation.Accuracy: computed with exact real division, not IEEE doubles; the NaN of an empty dataset is `None`.
- Wall-clock timing (`timeElapsedInSeconds`) and the per-epoch console line are left out as I/O.
- Dataset loading (`DataPair`) and the error-function variants are left out; an error function is an opaque name.
- Training.Train: requires every label to lie in `[0,10)`. An integer label of 10 or more would extend the JavaScript target array. A negative or fractional label would add a non-index property and leave the target all zeros.
- The engine is taken never to fail. In the code, an exception thrown by `forward` or `backward` propagates out of `train` or `test`. In the model, `net` and `Backward` are total. So `Training.Train` always returns, and `Evaluation.Test` always succeeds once the length check passes.
- Labels and epoch counts are integers; JavaScript NaN and fractional values are not modelled.
- The tie-break of the arg-max is not modelled, because `getMaxValIndex` is not part of this model.

## Findings

| source | as written | input that shows it | evidently intended | confidence | as-written member | corrected member |
|---|---|---|---|---|---|---|
| src/nns/mnist-classifier.ts:53-55 | `if (groundTruth)` tests truthiness, so label `0` gets no correctness flag and `test` counts it wrong | a sample `(x, 0)` that the engine answers `0` | every supplied label, `0` included, is judged: `answerIsRight = (answer == y)` | high; not executed | Prediction.ZeroLabelNotCredited | Prediction.PredictCorrected |

`Evaluation.Test` keeps the as-written `predict`, because it reproduces what
`test` reports. `Evaluation.CountTrueOfCorrectedPredictions` shows that with
`Prediction.PredictCorrected` the count of correct answers would be every sample
answered right. `Evaluation.CreditedMissesZeroHits` measures the gap.
