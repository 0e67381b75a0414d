/** The scale update rule `_updated_scale` of quanto/calibrate.py and what it
    guarantees: a cold-start bypass for the all-ones sentinel, and otherwise an
    exponential moving average of the old scale and the new estimate. */
module Scales {
  import opened Tensors

  /** Elementwise `momentum * scale + estimate * (1 - momentum)`. */
  function Ema(scale: Tensor, estimate: Tensor, momentum: real): (r: Tensor)
    requires |scale| == |estimate|
    ensures |r| == |scale|
  {
    if |scale| == 0 then []
    else [momentum * scale[0] + estimate[0] * (1.0 - momentum)] + Ema(scale[1..], estimate[1..], momentum)
  }

  /** `_updated_scale(scale, new_scale, momentum)`: a scale still holding the
      all-ones "never set" sentinel is replaced by the new estimate; any other
      scale is smoothed with it, which raises when their sizes differ. */
  function UpdatedScale(scale: Tensor, estimate: Tensor, momentum: real): (r: Result<Tensor>)
    ensures AllOnes(scale) ==> r == Ok(estimate)
    ensures r.Raised? <==> !AllOnes(scale) && |scale| != |estimate|
    ensures r.Raised? ==> r.error == ShapeMismatch
    ensures r.Ok? ==> |r.value| == |estimate|
  {
    if AllOnes(scale) then Ok(estimate)
    else if |scale| != |estimate| then Raised(ShapeMismatch)
    else Ok(Ema(scale, estimate, momentum))
  }

  /** Element `i` of the moving average is the weighted sum of element `i` of
      each operand. */
  lemma {:induction false} EmaAt(scale: Tensor, estimate: Tensor, momentum: real, i: int)
    requires |scale| == |estimate|
    requires 0 <= i < |scale|
    ensures Ema(scale, estimate, momentum)[i] == momentum * scale[i] + (1.0 - momentum) * estimate[i]
  {
    if i > 0 {
      EmaAt(scale[1..], estimate[1..], momentum, i - 1);
    }
  }

  /** For a scale that is not the sentinel and has the estimate's size, the
      update is exactly the elementwise moving average. */
  lemma UpdateIsMovingAverage(scale: Tensor, estimate: Tensor, momentum: real)
    requires !AllOnes(scale) && |scale| == |estimate|
    ensures UpdatedScale(scale, estimate, momentum).Ok?
    ensures var s := UpdatedScale(scale, estimate, momentum).value;
      |s| == |scale| &&
      forall i :: 0 <= i < |s| ==> s[i] == momentum * scale[i] + (1.0 - momentum) * estimate[i]
  {
    forall i | 0 <= i < |scale|
      ensures Ema(scale, estimate, momentum)[i] == momentum * scale[i] + (1.0 - momentum) * estimate[i]
    {
      EmaAt(scale, estimate, momentum, i);
    }
  }

  /** With a momentum in [0, 1] every element of the updated scale lies
      between the old element and the new estimate (the sentinel case included). */
  lemma UpdateStaysBetween(scale: Tensor, estimate: Tensor, momentum: real)
    requires 0.0 <= momentum <= 1.0
    requires |scale| == |estimate|
    ensures UpdatedScale(scale, estimate, momentum).Ok?
    ensures var s := UpdatedScale(scale, estimate, momentum).value;
      forall i :: 0 <= i < |s| ==>
        (scale[i] <= s[i] <= estimate[i]) || (estimate[i] <= s[i] <= scale[i])
  {
    if !AllOnes(scale) {
      var s := UpdatedScale(scale, estimate, momentum).value;
      forall i | 0 <= i < |s|
        ensures (scale[i] <= s[i] <= estimate[i]) || (estimate[i] <= s[i] <= scale[i])
      {
        EmaAt(scale, estimate, momentum, i);
        WeightedBetween(scale[i], estimate[i], momentum, s[i]);
      }
    }
  }

  /** A convex combination `c` of two reals lies between them. */
  lemma WeightedBetween(a: real, b: real, m: real, c: real)
    requires 0.0 <= m <= 1.0
    requires c == m * a + (1.0 - m) * b
    ensures (a <= c <= b) || (b <= c <= a)
  {
    assert c - a == (1.0 - m) * (b - a);
    assert b - c == m * (b - a);
    if a <= b {
      ProductNonNegative(1.0 - m, b - a);
      ProductNonNegative(m, b - a);
    } else {
      ProductNonNegative(1.0 - m, a - b);
      ProductNonNegative(m, a - b);
    }
  }

  lemma ProductNonNegative(x: real, y: real)
    requires 0.0 <= x && 0.0 <= y
    ensures 0.0 <= x * y
  {
  }

  /** Momentum 1 keeps a scale that has been set. */
  lemma MomentumOneKeepsScale(scale: Tensor, estimate: Tensor)
    requires !AllOnes(scale) && |scale| == |estimate|
    ensures UpdatedScale(scale, estimate, 1.0) == Ok(scale)
  {
    UpdateIsMovingAverage(scale, estimate, 1.0);
    var s := UpdatedScale(scale, estimate, 1.0).value;
    assert forall i :: 0 <= i < |s| ==> s[i] == scale[i];
    assert s == scale;
  }

  /** Momentum 0 adopts the new estimate, whatever the old scale. */
  lemma MomentumZeroAdoptsEstimate(scale: Tensor, estimate: Tensor)
    requires |scale| == |estimate|
    ensures UpdatedScale(scale, estimate, 0.0) == Ok(estimate)
  {
    if !AllOnes(scale) {
      UpdateIsMovingAverage(scale, estimate, 0.0);
      var s := UpdatedScale(scale, estimate, 0.0).value;
      assert forall i :: 0 <= i < |s| ==> s[i] == estimate[i];
      assert s == estimate;
    }
  }

  /** An estimate equal to the current scale leaves it where it is. */
  lemma AgreeingEstimateIsFixedPoint(scale: Tensor, momentum: real)
    ensures UpdatedScale(scale, scale, momentum) == Ok(scale)
  {
    if !AllOnes(scale) {
      UpdateIsMovingAverage(scale, scale, momentum);
      var s := UpdatedScale(scale, scale, momentum).value;
      assert forall i :: 0 <= i < |s| ==> s[i] == scale[i];
      assert s == scale;
    }
  }

  /** Two batches at the default momentum 0.9: the first estimate 2.0 replaces
      the sentinel, the second estimate 4.0 is averaged into 2.2. */
  lemma TwoBatchesAtDefaultMomentum()
    ensures UpdatedScale([1.0], [2.0], 0.9) == Ok([2.0])
    ensures UpdatedScale([2.0], [4.0], 0.9) == Ok([2.2])
  {
    assert !AllOnes([2.0]);
    UpdateIsMovingAverage([2.0], [4.0], 0.9);
    var s := UpdatedScale([2.0], [4.0], 0.9).value;
    assert s[0] == 2.2;
    assert s == [2.2];
  }
}
