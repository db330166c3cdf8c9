/** The training loop: apply the option overrides to the engine's settings,
    build the input and one-hot target sequences once, then take one
    full-batch learning step per epoch. */
module Training {
  import opened Wrappers
  import opened Samples
  import opened LabelEncoder
  import opened NeuralEngine

  /** The number of epochs when none is given. */
  const DefaultEpochs: int := 5

  /** The options of `train`; each is absent unless the caller supplies it. */
  datatype TrainOptions = TrainOptions(
    epochs: Option<int>,
    learningRate: Option<real>,
    errorFunction: Option<ErrorFunction>)

  /** The result of `train`; the elapsed time is not modelled. */
  datatype TrainResults = TrainResults(totalTrained: int, status: string)

  /** The epoch count `train` uses: the supplied one, or five. */
  function Epochs(options: TrainOptions): (e: int)
    ensures options.epochs.None? ==> e == 5
    ensures options.epochs.Some? ==> e == options.epochs.value
  {
    options.epochs.GetOr(DefaultEpochs)
  }

  /** How many times the epoch loop `e = 0; e < epochs` runs: the count
      itself when it is not negative, and never otherwise. */
  function EpochRuns(epochs: int): (r: nat)
    ensures epochs >= 0 ==> r == epochs
    ensures epochs < 0 ==> r == 0
  {
    if epochs < 0 then 0 else epochs
  }

  /** The settings after `train` has applied its overrides: a supplied
      option replaces the setting, an absent one leaves it as it was. */
  function ApplyOptions(s: Settings, options: TrainOptions): (s': Settings)
    ensures options.learningRate.Some? ==> s'.learningRate == options.learningRate.value
    ensures options.learningRate.None? ==> s'.learningRate == s.learningRate
    ensures options.errorFunction.Some? ==> s'.errorFunction == options.errorFunction.value
    ensures options.errorFunction.None? ==> s'.errorFunction == s.errorFunction
  {
    Settings(options.learningRate.GetOr(s.learningRate), options.errorFunction.GetOr(s.errorFunction))
  }

  /** `b` holds, position by position, the features of `data` and the
      one-hot targets of its labels. */
  predicate PreparedFrom(b: Batch, data: seq<Sample>) {
    && |b.inputs| == |data|
    && |b.targets| == |data|
    && forall i :: 0 <= i < |data| ==>
         && b.inputs[i] == data[i].x
         && ValidLabel(data[i].y)
         && b.targets[i] == OneHot(data[i].y)
  }

  /** Builds the parallel input and target sequences of the whole dataset. */
  method PrepareBatch(data: seq<Sample>) returns (b: Batch)
    requires AllLabelsValid(data)
    ensures PreparedFrom(b, data)
  {
    var trainInputs: seq<Vector> := [];
    var trainTargets: seq<Vector> := [];
    var i := 0;
    while i < |data|
      invariant 0 <= i <= |data|
      invariant |trainInputs| == i && |trainTargets| == i
      invariant forall k :: 0 <= k < i ==> trainInputs[k] == data[k].x && trainTargets[k] == OneHot(data[k].y)
    {
      var targetVec := Zeros(Classes)[data[i].y := 1.0];
      trainTargets := trainTargets + [targetVec];
      trainInputs := trainInputs + [data[i].x];
      i := i + 1;
    }
    b := Batch(trainInputs, trainTargets);
  }

  /** Reads a dataset back from a batch: each target is decoded to the
      label of its first one. `None` when the sequences differ in length or
      a target holds no one. */
  function DecodeBatch(inputs: seq<Vector>, targets: seq<Vector>): (r: Option<seq<Sample>>)
    ensures r.Some? ==> |r.value| == |inputs| == |targets|
  {
    if |inputs| == 0 || |targets| == 0 then
      if |inputs| == |targets| then Some([]) else None
    else match (IndexOfOne(targets[0]), DecodeBatch(inputs[1..], targets[1..]))
      case (Some(y), Some(rest)) => Some([Sample(inputs[0], y)] + rest)
      case _ => None
  }

  /** A prepared batch loses nothing: decoding it gives the dataset back. */
  lemma {:induction false} DecodePreparedBatch(b: Batch, data: seq<Sample>)
    requires PreparedFrom(b, data)
    ensures DecodeBatch(b.inputs, b.targets) == Some(data)
    decreases |data|
  {
    if |data| > 0 {
      DecodeOneHot(data[0].y);
      var tail := Batch(b.inputs[1..], b.targets[1..]);
      assert PreparedFrom(tail, data[1..]) by {
        forall i | 0 <= i < |data[1..]|
          ensures tail.inputs[i] == data[1..][i].x
          ensures ValidLabel(data[1..][i].y) && tail.targets[i] == OneHot(data[1..][i].y)
        {
          assert tail.targets[i] == b.targets[i + 1];
        }
      }
      DecodePreparedBatch(tail, data[1..]);
      assert data == [data[0]] + data[1..];
    }
  }

  /** `train`: the engine's settings take the supplied overrides, the
      learning step runs once per epoch on the full prepared batch, and the
      result reports `|data| * epochs` samples trained. */
  method Train(engine: Engine, data: seq<Sample>, options: TrainOptions)
    returns (engine': Engine, res: TrainResults)
    requires AllLabelsValid(data)
    ensures engine'.settings == ApplyOptions(engine.settings, options)
    ensures |engine'.backwardCalls| == |engine.backwardCalls| + EpochRuns(Epochs(options))
    ensures engine'.backwardCalls[..|engine.backwardCalls|] == engine.backwardCalls
    ensures forall k :: |engine.backwardCalls| <= k < |engine'.backwardCalls| ==>
              PreparedFrom(engine'.backwardCalls[k].batch, data)
    ensures forall k :: |engine.backwardCalls| <= k < |engine'.backwardCalls| ==>
              engine'.backwardCalls[k].settings == ApplyOptions(engine.settings, options)
    ensures forall k, k' :: |engine.backwardCalls| <= k < k' < |engine'.backwardCalls| ==>
              engine'.backwardCalls[k] == engine'.backwardCalls[k']
    ensures res.totalTrained == |data| * Epochs(options)
    ensures res.status == "Done"
  {
    var epochs := options.epochs.GetOr(DefaultEpochs);
    engine' := engine.(settings := ApplyOptions(engine.settings, options));
    var batch := PrepareBatch(data);
    var e := 0;
    while e < epochs
      invariant 0 <= e && (e == 0 || e <= epochs)
      invariant engine'.settings == ApplyOptions(engine.settings, options)
      invariant |engine'.backwardCalls| == |engine.backwardCalls| + e
      invariant engine'.backwardCalls[..|engine.backwardCalls|] == engine.backwardCalls
      invariant forall k :: |engine.backwardCalls| <= k < |engine'.backwardCalls| ==>
                  engine'.backwardCalls[k] == Step(ApplyOptions(engine.settings, options), batch)
    {
      engine' := Backward(engine', batch);
      e := e + 1;
    }
    res := TrainResults(|data| * epochs, "Done");
  }

  /** Training twice on the same data leaves every earlier learning step in
      place and adds the two runs' epoch counts; the first call's overrides
      persist, so a second call without overrides keeps them. */
  method TrainTwice(engine: Engine, data: seq<Sample>, first: TrainOptions, second: TrainOptions)
    returns (engine': Engine)
    requires AllLabelsValid(data)
    ensures |engine'.backwardCalls| == |engine.backwardCalls| + EpochRuns(Epochs(first)) + EpochRuns(Epochs(second))
    ensures engine'.backwardCalls[..|engine.backwardCalls|] == engine.backwardCalls
    ensures engine'.settings == ApplyOptions(ApplyOptions(engine.settings, first), second)
    ensures second.learningRate.None? && second.errorFunction.None? ==>
              engine'.settings == ApplyOptions(engine.settings, first)
  {
    var mid, firstResults := Train(engine, data, first);
    var secondResults;
    engine', secondResults := Train(mid, data, second);
    assert engine'.backwardCalls[..|mid.backwardCalls|] == mid.backwardCalls;
    assert engine'.backwardCalls[..|engine.backwardCalls|]
        == mid.backwardCalls[..|engine.backwardCalls|];
  }
}
