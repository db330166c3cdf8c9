/** The external feed-forward engine the classifier drives, reduced to what
    the classifier can observe of it: its two overridable settings and the
    sequence of full-batch learning steps it has been asked to take. The
    numerical parameters and the error computation are not modelled. */
module NeuralEngine {
  import opened Samples

  /** An error criterion the engine can use; the variants are opaque here. */
  datatype ErrorFunction = ErrorFunction(name: string)

  /** The engine's mutable settings. */
  datatype Settings = Settings(learningRate: real, errorFunction: ErrorFunction)

  /** The arguments of one call of the learning step. */
  datatype Batch = Batch(inputs: seq<Vector>, targets: seq<Vector>)

  /** One learning step taken: the settings it ran under and its batch. */
  datatype Step = Step(settings: Settings, batch: Batch)

  /** The engine as an abstract state: its settings and every learning step
      taken so far, oldest first. */
  datatype Engine = Engine(settings: Settings, backwardCalls: seq<Step>)

  /** One learning step on `b` under the current settings: recorded after
      all earlier steps, and nothing else observable changes. */
  function Backward(e: Engine, b: Batch): (e': Engine)
    ensures e'.settings == e.settings
    ensures |e'.backwardCalls| == |e.backwardCalls| + 1
    ensures e'.backwardCalls[..|e.backwardCalls|] == e.backwardCalls
    ensures e'.backwardCalls[|e.backwardCalls|] == Step(e.settings, b)
  {
    e.(backwardCalls := e.backwardCalls + [Step(e.settings, b)])
  }
}
