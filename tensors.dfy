/** Values shared by the calibration model: tensors as flat sequences of reals,
    the errors the calibration code can raise, and the two wrapper datatypes. */
module Tensors {

  /** The elements of a tensor in row-major order. Shapes are not modelled:
      two tensors are compatible for an elementwise operation when they have
      the same number of elements. */
  type Tensor = seq<real>

  /** The exceptions the modelled code can raise. */
  datatype Error =
    | ShapeMismatch     // an elementwise operation on tensors of different sizes
    | EmptyReduction    // `torch.max` over a tensor with no elements
    | IndexOutOfRange   // `input[0]` on an empty tuple of positional inputs
    | EmptyModeStack    // leaving a dispatch mode that is not on the mode stack

  datatype Option<+T> = None | Some(value: T)

  /** Either a value, or the exception raised while computing it. */
  datatype Result<+T> = Ok(value: T) | Raised(error: Error)

  /** `torch.all(t == 1)`: every element is 1 (true of the empty tensor). */
  predicate AllOnes(t: Tensor) {
    forall i :: 0 <= i < |t| ==> t[i] == 1.0
  }

  /** `torch.max(t)` over all elements of a non-empty tensor. */
  function Max(t: Tensor): (m: real)
    requires |t| > 0
    ensures exists i :: 0 <= i < |t| && t[i] == m
    ensures forall i :: 0 <= i < |t| ==> t[i] <= m
  {
    if |t| == 1 then t[0]
    else
      var rest := Max(t[1..]);
      assert forall i :: 1 <= i < |t| ==> t[i] == t[1..][i - 1];
      if t[0] >= rest then t[0] else rest
  }
}
