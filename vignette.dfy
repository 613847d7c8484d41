/** apply_vignette, from the point where the falloff mask exists: every
    channel of the float copy of the frame is multiplied in place by the mask,
    then the frame is clipped to [0, 255] and cast to uint8. The mask (an
    outer product of two Gaussian kernels, normalised to maximum 1 and raised
    to the power 1 - intensity) is an input grid here. */
module Vignette {
  import opened Numerics

  /** What a channel value v becomes under mask value m */
  function Vignetted(v: int, m: real): (b: int)
    ensures 0 <= b <= 255
  {
    ToU8(Clip(v as real * m, 0.0, 255.0))
  }

  /** the exponent the normalised mask is raised to; intensity 1 gives
      exponent 0, which makes every mask value 1 */
  function MaskExponent(intensity: real): (e: real)
    ensures e == 0.0 <==> intensity == 1.0
    ensures 0.0 <= intensity <= 1.0 ==> 0.0 <= e <= 1.0
  {
    1.0 - intensity
  }

  /** apply_vignette(image, intensity) given the raised mask */
  method ApplyVignette(image: array3<int>, mask: array2<real>) returns (out: array3<int>)
    requires image.Length2 == 3
    requires mask.Length0 == image.Length0 && mask.Length1 == image.Length1
    ensures fresh(out)
    ensures out.Length0 == image.Length0 && out.Length1 == image.Length1 && out.Length2 == 3
    ensures forall i, j, c :: 0 <= i < out.Length0 && 0 <= j < out.Length1 && 0 <= c < 3 ==>
      out[i, j, c] == Vignetted(image[i, j, c], mask[i, j])
  {
    var imageFloat := new real[image.Length0, image.Length1, 3]((i, j, c) reads image
      requires 0 <= i < image.Length0 && 0 <= j < image.Length1 && 0 <= c < 3 => image[i, j, c] as real);
    for c := 0 to 3
      invariant forall y, x, d :: 0 <= y < image.Length0 && 0 <= x < image.Length1 && 0 <= d < 3 ==>
        imageFloat[y, x, d] == if d < c then image[y, x, d] as real * mask[y, x] else image[y, x, d] as real
    {
      MultiplyChannel(imageFloat, c, mask);
    }
    out := ClipToU8(imageFloat);
  }

  /** image_float[:, :, c] *= mask, in place */
  method MultiplyChannel(buf: array3<real>, c: nat, mask: array2<real>)
    requires c < buf.Length2
    requires mask.Length0 == buf.Length0 && mask.Length1 == buf.Length1
    modifies buf
    ensures forall i, j, d :: 0 <= i < buf.Length0 && 0 <= j < buf.Length1 && 0 <= d < buf.Length2 ==>
      buf[i, j, d] == if d == c then old(buf[i, j, d]) * mask[i, j] else old(buf[i, j, d])
  {
    var i := 0;
    while i < buf.Length0
      invariant 0 <= i <= buf.Length0
      invariant forall y, x, d :: 0 <= y < buf.Length0 && 0 <= x < buf.Length1 && 0 <= d < buf.Length2 ==>
        buf[y, x, d] == if d == c && y < i then old(buf[y, x, d]) * mask[y, x] else old(buf[y, x, d])
    {
      var j := 0;
      while j < buf.Length1
        invariant 0 <= j <= buf.Length1
        invariant forall y, x, d :: 0 <= y < buf.Length0 && 0 <= x < buf.Length1 && 0 <= d < buf.Length2 ==>
          buf[y, x, d] == if d == c && (y < i || (y == i && x < j)) then old(buf[y, x, d]) * mask[y, x]
                          else old(buf[y, x, d])
      {
        buf[i, j, c] := buf[i, j, c] * mask[i, j];
        j := j + 1;
      }
      i := i + 1;
    }
  }

  /** np.clip(image_float, 0, 255).astype(np.uint8) */
  method ClipToU8(buf: array3<real>) returns (out: array3<int>)
    requires buf.Length2 == 3
    ensures fresh(out)
    ensures out.Length0 == buf.Length0 && out.Length1 == buf.Length1 && out.Length2 == 3
    ensures forall i, j, c :: 0 <= i < out.Length0 && 0 <= j < out.Length1 && 0 <= c < 3 ==>
      out[i, j, c] == ToU8(Clip(buf[i, j, c], 0.0, 255.0))
  {
    out := new int[buf.Length0, buf.Length1, 3]((i, j, c) reads buf
      requires 0 <= i < buf.Length0 && 0 <= j < buf.Length1 && 0 <= c < 3 => ToU8(Clip(buf[i, j, c], 0.0, 255.0)));
  }

  /** A mask value in [0, 1] never brightens an 8-bit channel value */
  lemma VignetteDarkens(v: int, m: real)
    requires 0 <= v <= 255 && 0.0 <= m <= 1.0
    ensures Vignetted(v, m) <= v
  {
    ScaleMonotone(v as real, m, 1.0);
    assert v as real * 1.0 == v as real;
    ClipMonotone(v as real * m, v as real, 0.0, 255.0);
    TruncMonotone(Clip(v as real * m, 0.0, 255.0), v as real);
    TruncOfInt(v);
  }

  /** A mask value of 1 (every mask value when intensity is 1) leaves an
      8-bit channel value unchanged */
  lemma UnitMaskIsPassthrough(v: int)
    requires 0 <= v <= 255
    ensures Vignetted(v, 1.0) == v
  {
    TruncOfInt(v);
  }

  /** A mask value of 0 turns every channel black */
  lemma ZeroMaskIsBlack(v: int)
    ensures Vignetted(v, 0.0) == 0
  {
    TruncOfInt(0);
  }

  /** The vignette is monotone in the mask: a darker mask value gives a
      darker channel */
  lemma VignetteMonotoneInMask(v: int, m1: real, m2: real)
    requires 0 <= v && m1 <= m2
    ensures Vignetted(v, m1) <= Vignetted(v, m2)
  {
    var dimmer, brighter := v as real * m1, v as real * m2;
    ScaleMonotone(v as real, m1, m2);
    ClipMonotone(dimmer, brighter, 0.0, 255.0);
    TruncMonotone(Clip(dimmer, 0.0, 255.0), Clip(brighter, 0.0, 255.0));
  }
}
