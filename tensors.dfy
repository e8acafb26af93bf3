/**
  Image tensors as flat sequences of exact real pixels, and the in-place
  clamp to [0, 1] that `run_style_transfer` applies to the image it optimises.
  Floating point, shapes and devices are not modelled.
*/
module Tensors {

  type Tensor = seq<real>

  /** Every pixel lies in [0, 1]. */
  ghost predicate InUnitRange(t: Tensor) {
    forall k :: 0 <= k < |t| ==> 0.0 <= t[k] <= 1.0
  }

  /** `torch.clamp(x, 0, 1)` on one pixel: min(max(x, 0), 1). */
  function Clamp01(x: real): (r: real)
    ensures 0.0 <= r <= 1.0
    ensures 0.0 <= x <= 1.0 ==> r == x
    ensures x < 0.0 ==> r == 0.0
    ensures 1.0 < x ==> r == 1.0
  {
    if x < 0.0 then 0.0 else if x > 1.0 then 1.0 else x
  }

  /** The tensor `clamp_(0, 1)` leaves behind. */
  function Clamped(t: Tensor): (r: Tensor)
    ensures |r| == |t| && InUnitRange(r)
    ensures forall k :: 0 <= k < |t| && 0.0 <= t[k] <= 1.0 ==> r[k] == t[k]
    ensures forall k :: 0 <= k < |t| && t[k] < 0.0 ==> r[k] == 0.0
    ensures forall k :: 0 <= k < |t| && 1.0 < t[k] ==> r[k] == 1.0
  {
    seq(|t|, k requires 0 <= k < |t| => Clamp01(t[k]))
  }

  /** Clamping changes a tensor exactly when some pixel is out of range. */
  lemma ClampedFixesExactlyUnitRange(t: Tensor)
    ensures Clamped(t) == t <==> InUnitRange(t)
  {
    if Clamped(t) == t {
      assert InUnitRange(Clamped(t));
    } else {
      var k :| 0 <= k < |t| && Clamped(t)[k] != t[k];
      assert !(0.0 <= t[k] <= 1.0);
    }
  }

  /** Clamping twice is clamping once. */
  lemma ClampedIdempotent(t: Tensor)
    ensures Clamped(Clamped(t)) == Clamped(t)
  {
    ClampedFixesExactlyUnitRange(Clamped(t));
  }

  /** An image tensor whose pixel data is updated in place (`input_img.data`). */
  class Image {
    var data: Tensor

    constructor (pixels: Tensor)
      ensures data == pixels
    {
      data := pixels;
    }

    /** `input_img.data.clamp_(0, 1)` */
    method ClampInPlace()
      modifies this
      ensures data == Clamped(old(data))
      ensures InUnitRange(data)
    {
      data := Clamped(data);
    }
  }
}
