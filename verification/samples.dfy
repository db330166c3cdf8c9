/** Vectors, class indices and labelled samples shared by every component. */
module Samples {

  /** The fixed number of output classes (ten digits). */
  const Classes: nat := 10

  /** A numeric vector: a feature vector, an output vector or a target vector. */
  type Vector = seq<real>

  /** An index of an output class. */
  type ClassIndex = c: int | 0 <= c < Classes

  /** A labelled pair `(x, y)` as the dataset loader supplies it; the label is
      any integer, only training requires it to name a class. */
  datatype Sample = Sample(x: Vector, y: int)

  predicate ValidLabel(y: int) {
    0 <= y < Classes
  }

  predicate AllLabelsValid(data: seq<Sample>) {
    forall i :: 0 <= i < |data| ==> ValidLabel(data[i].y)
  }
}
