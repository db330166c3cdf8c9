/** The evaluation loop: check the requested test length, predict every
    sample of the dataset, and aggregate the correctness flags. */
module Evaluation {
  import opened Wrappers
  import opened Samples
  import opened Prediction

  /** The options of `test`. */
  datatype TestOptions = TestOptions(testLength: Option<int>)

  /** The error `test` throws before predicting anything. */
  datatype TestError = TestLengthTooLarge(testLength: int, available: nat)

  /** The result of `test`. `accuracy` is `None` where the source divides by
      zero and reports NaN. */
  datatype TestResults = TestResults(
    totalTested: int,
    totalCorrectAnswers: nat,
    totalWrongAnswers: nat,
    accuracy: Option<real>)

  /** The test length `test` reports: the supplied one, or the dataset's length. */
  function TestLength(data: seq<Sample>, options: TestOptions): (n: int)
    ensures options.testLength.None? ==> n == |data|
    ensures options.testLength.Some? ==> n == options.testLength.value
  {
    options.testLength.GetOr(|data|)
  }

  /** `filter(el => el).length`: the flags that are `true`; absent and
      `false` flags both fall out. */
  function CountTrue(flags: seq<Option<bool>>): (n: nat)
    ensures n <= |flags|
  {
    if |flags| == 0 then 0
    else CountTrue(flags[..|flags| - 1]) + (if flags[|flags| - 1] == Some(true) then 1 else 0)
  }

  /** Reference count: samples whose label is truthy and equals the answer. */
  function Credited(net: Vector -> ClassIndex, data: seq<Sample>): nat {
    if |data| == 0 then 0
    else
      var s := data[|data| - 1];
      Credited(net, data[..|data| - 1]) + (if s.y != 0 && net(s.x) == s.y then 1 else 0)
  }

  /** Reference count: samples whose answer equals their label. */
  function Hits(net: Vector -> ClassIndex, data: seq<Sample>): nat {
    if |data| == 0 then 0
    else
      var s := data[|data| - 1];
      Hits(net, data[..|data| - 1]) + (if net(s.x) == s.y then 1 else 0)
  }

  /** Reference count: samples labelled zero and answered zero. */
  function ZeroHits(net: Vector -> ClassIndex, data: seq<Sample>): nat {
    if |data| == 0 then 0
    else
      var s := data[|data| - 1];
      ZeroHits(net, data[..|data| - 1]) + (if s.y == 0 && net(s.x) == 0 then 1 else 0)
  }

  /** The accuracy percentage of `correct` answers out of `n`; `None` (NaN)
      when nothing was scored. */
  function Accuracy(correct: nat, n: nat): (a: Option<real>)
    requires correct <= n
    ensures a.None? <==> n == 0
    ensures a.Some? ==> 0.0 <= a.value <= 100.0
    ensures a.Some? ==> (a.value == 100.0 <==> correct == n)
    ensures a.Some? ==> (a.value == 0.0 <==> correct == 0)
    ensures a.Some? ==> a.value * n as real == 100.0 * correct as real
  {
    if n == 0 then None
    else
      var a := 100.0 * correct as real / n as real;
      AccuracyScale(a, correct, n);
      Some(a)
  }

  /** The facts about a quotient `a = 100 * correct / n` that `Accuracy` promises. */
  lemma AccuracyScale(a: real, correct: nat, n: nat)
    requires 0 < n && correct <= n
    requires a == 100.0 * correct as real / n as real
    ensures a * n as real == 100.0 * correct as real
    ensures 0.0 <= a <= 100.0
    ensures a == 100.0 <==> correct == n
    ensures a == 0.0 <==> correct == 0
  {
  }

  /** Flags gathered from `predict` count exactly the credited samples. */
  lemma {:induction false} CountTrueOfPredictions(net: Vector -> ClassIndex, data: seq<Sample>, flags: seq<Option<bool>>)
    requires |flags| == |data|
    requires forall k :: 0 <= k < |data| ==> flags[k] == Predict(net, Labelled(data[k])).answerIsRight
    ensures CountTrue(flags) == Credited(net, data)
    decreases |data|
  {
    if |data| > 0 {
      var n := |data| - 1;
      CountTrueOfPredictions(net, data[..n], flags[..n]);
    }
  }

  /** With the corrected `predict`, the flags count every sample answered right. */
  lemma {:induction false} CountTrueOfCorrectedPredictions(net: Vector -> ClassIndex, data: seq<Sample>, flags: seq<Option<bool>>)
    requires |flags| == |data|
    requires forall k :: 0 <= k < |data| ==> flags[k] == PredictCorrected(net, Labelled(data[k])).answerIsRight
    ensures CountTrue(flags) == Hits(net, data)
    decreases |data|
  {
    if |data| > 0 {
      var n := |data| - 1;
      CountTrueOfCorrectedPredictions(net, data[..n], flags[..n]);
    }
  }

  /** The credited count falls short of the right answers by exactly the
      samples labelled and answered zero. */
  lemma {:induction false} CreditedMissesZeroHits(net: Vector -> ClassIndex, data: seq<Sample>)
    ensures Credited(net, data) + ZeroHits(net, data) == Hits(net, data)
    decreases |data|
  {
    if |data| > 0 {
      CreditedMissesZeroHits(net, data[..|data| - 1]);
    }
  }

  /** No sample is both labelled and answered zero exactly when the zero-hit count is zero. */
  lemma {:induction false} ZeroHitsVanish(net: Vector -> ClassIndex, data: seq<Sample>)
    ensures ZeroHits(net, data) == 0 <==> forall i :: 0 <= i < |data| ==> data[i].y != 0 || net(data[i].x) != 0
    decreases |data|
  {
    if |data| > 0 {
      var n := |data| - 1;
      ZeroHitsVanish(net, data[..n]);
      assert forall i :: 0 <= i < n ==> data[..n][i] == data[i];
    }
  }

  /** When every answer is right, every sample is a hit. */
  lemma {:induction false} AllRightAllHits(net: Vector -> ClassIndex, data: seq<Sample>)
    requires forall i :: 0 <= i < |data| ==> net(data[i].x) == data[i].y
    ensures Hits(net, data) == |data|
    decreases |data|
  {
    if |data| > 0 {
      var n := |data| - 1;
      assert forall i :: 0 <= i < n ==> data[..n][i] == data[i];
      AllRightAllHits(net, data[..n]);
    }
  }

  /** `test`: fails before predicting when the test length exceeds the
      dataset; otherwise predicts every sample of the dataset whatever the
      test length, and reports the test length, the credited count, the
      rest as wrong, and the accuracy over the whole dataset. */
  method Test(net: Vector -> ClassIndex, data: seq<Sample>, options: TestOptions)
    returns (r: Result<TestResults, TestError>)
    ensures r.Failure? <==> TestLength(data, options) > |data|
    ensures r.Failure? ==> r.error == TestLengthTooLarge(TestLength(data, options), |data|)
    ensures r.Success? ==> r.value.totalTested == TestLength(data, options)
    ensures r.Success? ==> r.value.totalCorrectAnswers == Credited(net, data)
    ensures r.Success? ==> r.value.totalCorrectAnswers + r.value.totalWrongAnswers == |data|
    ensures r.Success? ==> r.value.accuracy == Accuracy(r.value.totalCorrectAnswers, |data|)
  {
    var testLength := options.testLength.GetOr(|data|);
    if testLength > |data| {
      return Failure(TestLengthTooLarge(testLength, |data|));
    }
    var predictions: seq<Option<bool>> := [];
    var i := 0;
    while i < |data|
      invariant 0 <= i <= |data|
      invariant |predictions| == i
      invariant forall k :: 0 <= k < i ==> predictions[k] == Predict(net, Labelled(data[k])).answerIsRight
    {
      var prediction := Predict(net, Labelled(data[i]));
      predictions := predictions + [prediction.answerIsRight];
      i := i + 1;
    }
    var totalCorrectAnswers := CountTrue(predictions);
    var totalWrongAnswers := |predictions| - totalCorrectAnswers;
    var accuracy := Accuracy(totalCorrectAnswers, |predictions|);
    CountTrueOfPredictions(net, data, predictions);
    r := Success(TestResults(testLength, totalCorrectAnswers, totalWrongAnswers, accuracy));
  }

  /** When the engine answers every sample right, `test` reports full
      accuracy exactly when no sample is labelled zero. */
  method TestAllRight(net: Vector -> ClassIndex, data: seq<Sample>, options: TestOptions)
    returns (r: Result<TestResults, TestError>)
    requires forall i :: 0 <= i < |data| ==> net(data[i].x) == data[i].y
    ensures r.Success? <==> TestLength(data, options) <= |data|
    ensures r.Success? ==>
      (r.value.totalWrongAnswers == 0 <==> forall i :: 0 <= i < |data| ==> data[i].y != 0)
    ensures r.Success? && |data| > 0 ==>
      (r.value.accuracy == Some(100.0) <==> forall i :: 0 <= i < |data| ==> data[i].y != 0)
  {
    r := Test(net, data, options);
    AllRightAllHits(net, data);
    CreditedMissesZeroHits(net, data);
    ZeroHitsVanish(net, data);
  }
}
