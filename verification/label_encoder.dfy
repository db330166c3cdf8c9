/** The label encoder: a class label becomes a one-hot target vector of
    width `Classes`, built as the training loop builds it, by filling a
    fresh vector with zeros and writing a one at the label's index. */
module LabelEncoder {
  import opened Wrappers
  import opened Samples

  /** A vector of `n` zeros: `new Array(n).fill(0)`. */
  function Zeros(n: nat): (v: Vector)
    ensures |v| == n
    ensures forall i :: 0 <= i < n ==> v[i] == 0.0
  {
    if n == 0 then [] else Zeros(n - 1) + [0.0]
  }

  /** The target vector of label `y`. */
  function OneHot(y: int): (t: Vector)
    requires ValidLabel(y)
    ensures |t| == Classes
    ensures t[y] == 1.0
    ensures forall i :: 0 <= i < Classes && i != y ==> t[i] == 0.0
  {
    Zeros(Classes)[y := 1.0]
  }

  /** A target vector in the encoder's image: one entry is one, all others zero. */
  predicate IsOneHot(t: Vector) {
    && |t| == Classes
    && (exists i :: 0 <= i < |t| && t[i] == 1.0)
    && (forall i, j :: 0 <= i < j < |t| ==> t[i] == 0.0 || t[j] == 0.0)
    && (forall i :: 0 <= i < |t| ==> t[i] == 0.0 || t[i] == 1.0)
  }

  /** The decoder: the position of the first entry equal to one, if any. */
  function IndexOfOne(t: Vector): (r: Option<nat>)
    ensures r.Some? ==> r.value < |t| && t[r.value] == 1.0
    ensures r.Some? ==> forall j :: 0 <= j < r.value ==> t[j] != 1.0
    ensures r.None? <==> forall j :: 0 <= j < |t| ==> t[j] != 1.0
  {
    if |t| == 0 then None
    else if t[0] == 1.0 then Some(0)
    else match IndexOfOne(t[1..])
      case None => None
      case Some(k) => Some(k + 1)
  }

  /** Decoding a label's target vector gives the label back. */
  lemma DecodeOneHot(y: int)
    requires ValidLabel(y)
    ensures IndexOfOne(OneHot(y)) == Some(y)
  {
  }

  /** Every target vector is one-hot, and distinct labels get distinct vectors. */
  lemma OneHotIsOneHot(y: int, y': int)
    requires ValidLabel(y) && ValidLabel(y')
    ensures IsOneHot(OneHot(y))
    ensures OneHot(y) == OneHot(y') <==> y == y'
  {
    if OneHot(y) == OneHot(y') {
      DecodeOneHot(y);
      DecodeOneHot(y');
    }
  }

  /** Every one-hot vector of width `Classes` is the target of exactly the
      label the decoder reads from it: the encoder is onto its image. */
  lemma OneHotComplete(t: Vector)
    requires IsOneHot(t)
    ensures IndexOfOne(t).Some?
    ensures ValidLabel(IndexOfOne(t).value)
    ensures OneHot(IndexOfOne(t).value) == t
  {
    var i :| 0 <= i < |t| && t[i] == 1.0;
    var y := IndexOfOne(t).value;
    forall j | 0 <= j < |t|
      ensures t[j] == OneHot(y)[j]
    {
      if j != y {
        if j < y {
          assert t[j] != 1.0;
        } else {
          assert t[y] != 0.0;
        }
      }
    }
  }
}
