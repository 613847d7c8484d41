/** apply_lut_color_grading: per-channel scale-and-clamp looks on a BGR frame
    normalised to [0, 1], denormalised back to 0..255 by truncation.
    Channel 0 is blue, 1 green, 2 red. */
module ColorGrading {
  import opened Numerics

  /** What a channel value x, already normalised to [0, 1], becomes in
      img_float after the branch chosen by lutType; `noir` is handled by
      NoirValue, and any other name leaves the value alone. */
  function GradeChannel(lutType: string, c: nat, x: real): (r: real)
    ensures 0.0 <= x <= 1.0 ==> 0.0 <= r <= 1.0
    ensures lutType != "warm" && lutType != "cool" && lutType != "vintage" ==> r == x
  {
    if lutType == "warm" then
      if c == 2 then Clip(x * 1.2, 0.0, 1.0)
      else if c == 1 then Clip(x * 1.1, 0.0, 1.0)
      else x
    else if lutType == "cool" then
      if c == 0 then Clip(x * 1.2, 0.0, 1.0)
      else if c == 2 then Clip(x * 0.9, 0.0, 1.0)
      else x
    else if lutType == "vintage" then
      var faded := Clip(x * 0.95, 0.0, 1.0);
      if c == 1 then Clip(faded * 0.95, 0.0, 1.0)
      else if c == 0 then Clip(faded * 0.85, 0.0, 1.0)
      else faded
    else
      x
  }

  /** The return step: clip to [0, 1], multiply by 255, cast to uint8 */
  function Denormalize(x: real): (b: int)
    ensures 0 <= b <= 255
  {
    ToU8(Clip(x, 0.0, 1.0) * 255.0)
  }

  /** The output value of channel c for input value v under any lutType but `noir` */
  function GradedValue(lutType: string, c: nat, v: int): (b: int)
    ensures 0 <= b <= 255
  {
    Denormalize(GradeChannel(lutType, c, v as real / 255.0))
  }

  /** The output value of every channel of a pixel whose grey level is g
      under `noir`; lift stands for the power x ** 0.8 */
  function NoirValue(g: int, lift: real -> real): (b: int)
    ensures 0 <= b <= 255
  {
    Denormalize(Clip(lift(g as real / 255.0), 0.0, 1.0))
  }

  // ---------------------------------------------------------------------
  // The frame-level operation

  /** apply_lut_color_grading(image, lut_type). For `noir`, gray is the
      grey-level frame that the colour conversion library computes from
      image, and lift is the power x ** 0.8; both are ignored otherwise. */
  method ApplyLutColorGrading(image: array3<int>, lutType: string, gray: array2<int>, lift: real -> real)
    returns (out: array3<int>)
    requires image.Length2 == 3
    requires lutType == "noir" ==> gray.Length0 == image.Length0 && gray.Length1 == image.Length1
    ensures fresh(out)
    ensures out.Length0 == image.Length0 && out.Length1 == image.Length1 && out.Length2 == 3
    ensures forall i, j, c :: 0 <= i < out.Length0 && 0 <= j < out.Length1 && 0 <= c < 3 ==>
      out[i, j, c] == if lutType == "noir" then NoirValue(gray[i, j], lift)
                      else GradedValue(lutType, c, image[i, j, c])
  {
    var imgFloat := Normalized(image);
    if lutType == "warm" {
      WarmLook(imgFloat);
    } else if lutType == "cool" {
      CoolLook(imgFloat);
    } else if lutType == "vintage" {
      imgFloat := VintageLook(imgFloat);
    } else if lutType == "noir" {
      imgFloat := NoirLook(gray, lift);
    }
    out := DenormalizeFrame(imgFloat);
  }

  /** image.astype(np.float32) / 255.0 */
  method Normalized(image: array3<int>) returns (buf: array3<real>)
    requires image.Length2 == 3
    ensures fresh(buf)
    ensures buf.Length0 == image.Length0 && buf.Length1 == image.Length1 && buf.Length2 == 3
    ensures forall i, j, c :: 0 <= i < buf.Length0 && 0 <= j < buf.Length1 && 0 <= c < 3 ==>
      buf[i, j, c] == image[i, j, c] as real / 255.0
  {
    buf := new real[image.Length0, image.Length1, 3]((i, j, c) reads image
      requires 0 <= i < image.Length0 && 0 <= j < image.Length1 && 0 <= c < 3 => image[i, j, c] as real / 255.0);
  }

  /** (np.clip(img_float, 0, 1) * 255).astype(np.uint8) */
  method DenormalizeFrame(buf: array3<real>) returns (out: array3<int>)
    requires buf.Length2 == 3
    ensures fresh(out)
    ensures out.Length0 == buf.Length0 && out.Length1 == buf.Length1 && out.Length2 == 3
    ensures forall i, j, c :: 0 <= i < out.Length0 && 0 <= j < out.Length1 && 0 <= c < 3 ==>
      out[i, j, c] == Denormalize(buf[i, j, c])
  {
    out := new int[buf.Length0, buf.Length1, 3]((i, j, c) reads buf
      requires 0 <= i < buf.Length0 && 0 <= j < buf.Length1 && 0 <= c < 3 => Denormalize(buf[i, j, c]));
  }

  /** The noir branch: gray replicated into three channels, normalised,
      raised by lift and clipped to [0, 1] */
  method NoirLook(gray: array2<int>, lift: real -> real) returns (buf: array3<real>)
    ensures fresh(buf)
    ensures buf.Length0 == gray.Length0 && buf.Length1 == gray.Length1 && buf.Length2 == 3
    ensures forall i, j, c :: 0 <= i < buf.Length0 && 0 <= j < buf.Length1 && 0 <= c < 3 ==>
      buf[i, j, c] == Clip(lift(gray[i, j] as real / 255.0), 0.0, 1.0)
  {
    buf := new real[gray.Length0, gray.Length1, 3]((i, j, c) reads gray
      requires 0 <= i < gray.Length0 && 0 <= j < gray.Length1 && 0 <= c < 3 =>
        Clip(lift(gray[i, j] as real / 255.0), 0.0, 1.0));
  }

  /** The warm branch on img_float, in place */
  method WarmLook(buf: array3<real>)
    requires buf.Length2 == 3
    modifies buf
    ensures forall i, j, c :: 0 <= i < buf.Length0 && 0 <= j < buf.Length1 && 0 <= c < 3 ==>
      buf[i, j, c] == GradeChannel("warm", c, old(buf[i, j, c]))
  {
    ClipScaleChannel(buf, 2, 1.2);
    ClipScaleChannel(buf, 1, 1.1);
  }

  /** The cool branch on img_float, in place */
  method CoolLook(buf: array3<real>)
    requires buf.Length2 == 3
    modifies buf
    ensures forall i, j, c :: 0 <= i < buf.Length0 && 0 <= j < buf.Length1 && 0 <= c < 3 ==>
      buf[i, j, c] == GradeChannel("cool", c, old(buf[i, j, c]))
  {
    ClipScaleChannel(buf, 0, 1.2);
    ClipScaleChannel(buf, 2, 0.9);
  }

  /** The vintage branch: img_float is first replaced by a faded copy, whose
      green and blue channels are then scaled in place */
  method VintageLook(buf: array3<real>) returns (faded: array3<real>)
    requires buf.Length2 == 3
    ensures fresh(faded)
    ensures faded.Length0 == buf.Length0 && faded.Length1 == buf.Length1 && faded.Length2 == 3
    ensures forall i, j, c :: 0 <= i < buf.Length0 && 0 <= j < buf.Length1 && 0 <= c < 3 ==>
      faded[i, j, c] == GradeChannel("vintage", c, buf[i, j, c])
  {
    faded := new real[buf.Length0, buf.Length1, 3]((i, j, c) reads buf
      requires 0 <= i < buf.Length0 && 0 <= j < buf.Length1 && 0 <= c < 3 => Clip(buf[i, j, c] * 0.95, 0.0, 1.0));
    ClipScaleChannel(faded, 1, 0.95);
    ClipScaleChannel(faded, 0, 0.85);
  }

  /** img_float[:, :, c] = np.clip(img_float[:, :, c] * k, 0, 1), in place */
  method ClipScaleChannel(buf: array3<real>, c: nat, k: real)
    requires c < buf.Length2
    modifies buf
    ensures forall i, j, d :: 0 <= i < buf.Length0 && 0 <= j < buf.Length1 && 0 <= d < buf.Length2 ==>
      buf[i, j, d] == if d == c then Clip(old(buf[i, j, d]) * k, 0.0, 1.0) else old(buf[i, j, d])
  {
    var i := 0;
    while i < buf.Length0
      invariant 0 <= i <= buf.Length0
      invariant forall y, x, d :: 0 <= y < buf.Length0 && 0 <= x < buf.Length1 && 0 <= d < buf.Length2 ==>
        buf[y, x, d] == if d == c && y < i then Clip(old(buf[y, x, d]) * k, 0.0, 1.0) else old(buf[y, x, d])
    {
      var j := 0;
      while j < buf.Length1
        invariant 0 <= j <= buf.Length1
        invariant forall y, x, d :: 0 <= y < buf.Length0 && 0 <= x < buf.Length1 && 0 <= d < buf.Length2 ==>
          buf[y, x, d] == if d == c && (y < i || (y == i && x < j)) then Clip(old(buf[y, x, d]) * k, 0.0, 1.0)
                          else old(buf[y, x, d])
      {
        buf[i, j, c] := Clip(buf[i, j, c] * k, 0.0, 1.0);
        j := j + 1;
      }
      i := i + 1;
    }
  }

  // ---------------------------------------------------------------------
  // What the looks mean on 8-bit values

  /** Scaling a normalised value by k >= 0, clamping it to [0, 1] and
      denormalising is the same as scaling the 8-bit value and capping it */
  lemma ScaledChannel(v: int, k: real)
    requires 0 <= v <= 255 && 0.0 <= k
    ensures Denormalize(Clip(v as real / 255.0 * k, 0.0, 1.0)) == ScaleCap(v, k)
  {
    var x := v as real / 255.0 * k;
    assert x * 255.0 == v as real * k;
    ScaleMonotone(v as real, 0.0, k);
    if x > 1.0 {
      assert Clip(Clip(x, 0.0, 1.0), 0.0, 1.0) * 255.0 == Clip(v as real * k, 0.0, 255.0);
    } else {
      assert Clip(Clip(x, 0.0, 1.0), 0.0, 1.0) * 255.0 == Clip(v as real * k, 0.0, 255.0);
    }
    ClippedScaleIsScaleCap(v, k);
  }

  /** An unscaled channel comes back as it went in */
  lemma UnscaledChannel(v: int)
    requires 0 <= v <= 255
    ensures Denormalize(v as real / 255.0) == v
  {
    assert Clip(v as real / 255.0, 0.0, 1.0) * 255.0 == v as real;
    TruncOfInt(v);
  }

  /** warm: red x 1.2 and green x 1.1, each capped at white; blue untouched */
  lemma WarmRecipe(v: int)
    requires 0 <= v <= 255
    ensures GradedValue("warm", 2, v) == ScaleCap(v, 1.2)
    ensures GradedValue("warm", 1, v) == ScaleCap(v, 1.1)
    ensures GradedValue("warm", 0, v) == v
  {
    ScaledChannel(v, 1.2);
    ScaledChannel(v, 1.1);
    UnscaledChannel(v);
  }

  /** cool: blue x 1.2 capped at white, red x 0.9; green untouched */
  lemma CoolRecipe(v: int)
    requires 0 <= v <= 255
    ensures GradedValue("cool", 0, v) == ScaleCap(v, 1.2)
    ensures GradedValue("cool", 2, v) == ScaleCap(v, 0.9) == Trunc(v as real * 0.9)
    ensures GradedValue("cool", 1, v) == v
  {
    ScaledChannel(v, 1.2);
    ScaledChannel(v, 0.9);
    UnscaledChannel(v);
  }

  /** vintage: red x 0.95, green x 0.95 * 0.95, blue x 0.95 * 0.85; no clamp ever binds */
  lemma VintageRecipe(v: int)
    requires 0 <= v <= 255
    ensures GradedValue("vintage", 2, v) == Trunc(v as real * 0.95)
    ensures GradedValue("vintage", 1, v) == Trunc(v as real * (0.95 * 0.95))
    ensures GradedValue("vintage", 0, v) == Trunc(v as real * (0.95 * 0.85))
  {
    var x := v as real / 255.0;
    var faded := Clip(x * 0.95, 0.0, 1.0);
    assert faded == x * 0.95;
    assert faded * 0.95 == x * (0.95 * 0.95);
    assert faded * 0.85 == x * (0.95 * 0.85);
    ScaledChannel(v, 0.95);
    ScaledChannel(v, 0.95 * 0.95);
    ScaledChannel(v, 0.95 * 0.85);
  }

  /** vintage never brightens any channel */
  lemma VintageNeverBrightens(v: int, c: nat)
    requires 0 <= v <= 255
    ensures GradedValue("vintage", c, v) <= v
  {
    VintageRecipe(v);
    if c == 0 {
      TruncMonotone(v as real * (0.95 * 0.85), v as real);
    } else if c == 1 {
      TruncMonotone(v as real * (0.95 * 0.95), v as real);
    } else {
      TruncMonotone(v as real * 0.95, v as real);
    }
    TruncOfInt(v);
  }

  /** An unrecognised look only normalises and denormalises, which is the identity */
  lemma UnknownLutIsPassthrough(lutType: string, c: nat, v: int)
    requires lutType !in {"warm", "cool", "vintage", "noir"}
    requires 0 <= v <= 255
    ensures GradedValue(lutType, c, v) == v
  {
    UnscaledChannel(v);
  }

  /** warm on mid grey 128: red 153.6 and green 140.8 are truncated, not rounded */
  lemma WarmMidGrey()
    ensures GradedValue("warm", 2, 128) == 153
    ensures GradedValue("warm", 1, 128) == 140
    ensures GradedValue("warm", 0, 128) == 128
  {
    WarmRecipe(128);
  }
}
