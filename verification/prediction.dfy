/** The prediction extractor: the arg-max of the engine's output for an
    input, together with the ground truth and a correctness flag when the
    input is a labelled sample. */
module Prediction {
  import opened Wrappers
  import opened Samples

  /** What `predict` accepts: a bare feature vector or a labelled pair. */
  datatype Input = Bare(features: Vector) | Labelled(sample: Sample) {
    function X(): Vector {
      match this
      case Bare(v) => v
      case Labelled(s) => s.x
    }
  }

  /** The result of `predict`; `None` stands for `null`. The confidence
      percentage is not modelled. */
  datatype Prediction = Prediction(
    answer: ClassIndex,
    groundTruth: Option<int>,
    answerIsRight: Option<bool>)

  /** JavaScript truthiness of an integer label: every label except zero. */
  predicate Truthy(y: int) {
    y != 0
  }

  /** `predict` as written. `net` is the engine's forward pass followed by
      the arg-max of its output, under the engine's current parameters. The
      correctness flag is set only for a truthy label, so a sample labelled
      `0` never gets one. */
  function Predict(net: Vector -> ClassIndex, input: Input): (p: Prediction)
    ensures p.answer == net(input.X())
    ensures input.Bare? ==> p.groundTruth == None && p.answerIsRight == None
    ensures input.Labelled? ==> p.groundTruth == Some(input.sample.y)
    ensures p.answerIsRight.Some? <==> input.Labelled? && input.sample.y != 0
    ensures p.answerIsRight.Some? ==> (p.answerIsRight.value <==> p.answer == input.sample.y)
  {
    var groundTruth := if input.Labelled? then Some(input.sample.y) else None;
    var answer := net(input.X());
    var answerIsRight :=
      if groundTruth.Some? && Truthy(groundTruth.value) then Some(answer == groundTruth.value) else None;
    Prediction(answer, groundTruth, answerIsRight)
  }

  /** `predict` as evidently intended: the presence of a ground truth, not
      its truthiness, decides whether the answer is judged. */
  function PredictCorrected(net: Vector -> ClassIndex, input: Input): (p: Prediction)
    ensures p.answer == net(input.X())
    ensures input.Bare? ==> p.groundTruth == None && p.answerIsRight == None
    ensures input.Labelled? ==> p.groundTruth == Some(input.sample.y)
    ensures input.Labelled? ==> p.answerIsRight == Some(p.answer == input.sample.y)
  {
    var answer := net(input.X());
    match input
    case Bare(_) => Prediction(answer, None, None)
    case Labelled(s) => Prediction(answer, Some(s.y), Some(answer == s.y))
  }

  /** The two agree on every input except a labelled sample whose label is zero. */
  lemma PredictDiffersOnlyAtZero(net: Vector -> ClassIndex, input: Input)
    ensures Predict(net, input) == PredictCorrected(net, input)
        <==> !(input.Labelled? && input.sample.y == 0)
  {
  }

  /** A sample labelled zero that the engine classifies as zero is not
      credited: its answer equals its ground truth, yet no flag is set. */
  lemma ZeroLabelNotCredited(net: Vector -> ClassIndex, x: Vector)
    requires net(x) == 0
    ensures Predict(net, Labelled(Sample(x, 0))).answer == 0
    ensures Predict(net, Labelled(Sample(x, 0))).groundTruth == Some(0)
    ensures Predict(net, Labelled(Sample(x, 0))).answerIsRight == None
    ensures PredictCorrected(net, Labelled(Sample(x, 0))).answerIsRight == Some(true)
  {
  }

  /** A flag that is present is never wrong about the answer: a credited
      answer matches the ground truth, and a discredited one does not. */
  lemma FlagIsSound(net: Vector -> ClassIndex, input: Input)
    ensures var p := Predict(net, input);
      p.answerIsRight.Some? ==> p.groundTruth.Some? && (p.answerIsRight.value <==> p.answer == p.groundTruth.value)
  {
  }
}
