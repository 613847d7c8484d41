/** apply_shadow_highlights: a threshold remap of the lightness channel of a
    frame that the colour conversion library has already turned into 8-bit
    LAB. Each pixel is [L, A, B]; the conversions to and from LAB are not
    part of this model, so the operation maps a LAB frame to a LAB frame. */
module ShadowHighlights {
  import opened Numerics

  /** The lightness below which a pixel counts as shadow */
  const Midpoint: int := 128

  /** An h x w grid of three-channel pixels */
  predicate IsLabFrame(lab: seq<seq<seq<int>>>)
  {
    forall i, j :: 0 <= i < |lab| && 0 <= j < |lab[i]| ==> |lab[i][j]| == 3
  }

  /** Every channel of every pixel is an 8-bit value */
  predicate IsU8Frame(lab: seq<seq<seq<int>>>)
  {
    forall i, j, c :: 0 <= i < |lab| && 0 <= j < |lab[i]| && 0 <= c < |lab[i][j]| ==> 0 <= lab[i][j][c] <= 255
  }

  /** The new lightness of one pixel: a shadow is scaled by shadows, anything
      else by highlights, then clipped to [0, 255] and cast to uint8 */
  function RemapLightness(l: int, shadows: real, highlights: real): (r: int)
    ensures 0 <= r <= 255
  {
    var gain := if l < Midpoint then shadows else highlights;
    ToU8(Clip(l as real * gain, 0.0, 255.0))
  }

  /** The remapped LAB frame (np.where over the L channel, then astype(np.uint8)) */
  function ApplyShadowHighlights(lab: seq<seq<seq<int>>>, shadows: real, highlights: real)
    : (r: seq<seq<seq<int>>>)
    requires IsLabFrame(lab)
    ensures |r| == |lab| && IsLabFrame(r)
    ensures forall i :: 0 <= i < |r| ==> |r[i]| == |lab[i]|
    ensures forall i, j :: 0 <= i < |r| && 0 <= j < |r[i]| ==>
      r[i][j][0] == RemapLightness(lab[i][j][0], shadows, highlights)
      && r[i][j][1] == lab[i][j][1] && r[i][j][2] == lab[i][j][2]
  {
    seq(|lab|, i requires 0 <= i < |lab| =>
      seq(|lab[i]|, j requires 0 <= j < |lab[i]| =>
        [RemapLightness(lab[i][j][0], shadows, highlights), lab[i][j][1], lab[i][j][2]]))
  }

  /** A shadow's lightness is scaled by shadows and a non-shadow's by
      highlights, each capped at 255 and truncated */
  lemma RemapByThreshold(l: int, shadows: real, highlights: real)
    requires 0 <= l <= 255 && 0.0 <= shadows && 0.0 <= highlights
    ensures l < 128 ==> RemapLightness(l, shadows, highlights) == ScaleCap(l, shadows)
    ensures l >= 128 ==> RemapLightness(l, shadows, highlights) == ScaleCap(l, highlights)
  {
    ClippedScaleIsScaleCap(l, shadows);
    ClippedScaleIsScaleCap(l, highlights);
  }

  /** Unit gains leave every 8-bit lightness unchanged */
  lemma UnitGainsKeepLightness(l: int)
    requires 0 <= l <= 255
    ensures RemapLightness(l, 1.0, 1.0) == l
  {
    TruncOfInt(l);
  }

  /** A shadow gain of at least 1 never darkens a shadow */
  lemma ShadowGainLifts(l: int, shadows: real, highlights: real)
    requires 0 <= l < Midpoint && 1.0 <= shadows
    ensures l <= RemapLightness(l, shadows, highlights)
  {
    var lifted := l as real * shadows;
    ScaleMonotone(l as real, 1.0, shadows);
    assert l as real * 1.0 == l as real;
    ClipMonotone(l as real, lifted, 0.0, 255.0);
    TruncMonotone(l as real, Clip(lifted, 0.0, 255.0));
    TruncOfInt(l);
  }

  /** A highlight gain in [0, 1] never brightens a highlight */
  lemma HighlightGainDims(l: int, shadows: real, highlights: real)
    requires Midpoint <= l <= 255 && 0.0 <= highlights <= 1.0
    ensures RemapLightness(l, shadows, highlights) <= l
  {
    var dimmed := l as real * highlights;
    ScaleMonotone(l as real, highlights, 1.0);
    assert l as real * 1.0 == l as real;
    ClipMonotone(dimmed, l as real, 0.0, 255.0);
    TruncMonotone(Clip(dimmed, 0.0, 255.0), l as real);
    TruncOfInt(l);
  }

  /** With both gains 1 the remap is the identity on an 8-bit LAB frame */
  lemma UnitGainsAreIdentity(lab: seq<seq<seq<int>>>)
    requires IsLabFrame(lab) && IsU8Frame(lab)
    ensures ApplyShadowHighlights(lab, 1.0, 1.0) == lab
  {
    var r := ApplyShadowHighlights(lab, 1.0, 1.0);
    forall i | 0 <= i < |lab|
      ensures r[i] == lab[i]
    {
      forall j | 0 <= j < |lab[i]|
        ensures r[i][j] == lab[i][j]
      {
        UnitGainsKeepLightness(lab[i][j][0]);
      }
    }
  }

  /** The remap keeps a LAB frame an 8-bit frame of the same shape */
  lemma RemapStaysU8(lab: seq<seq<seq<int>>>, shadows: real, highlights: real)
    requires IsLabFrame(lab) && IsU8Frame(lab)
    ensures IsU8Frame(ApplyShadowHighlights(lab, shadows, highlights))
  {
    var r := ApplyShadowHighlights(lab, shadows, highlights);
    forall i, j, c | 0 <= i < |r| && 0 <= j < |r[i]| && 0 <= c < |r[i][j]|
      ensures 0 <= r[i][j][c] <= 255
    {
      assert c == 0 || c == 1 || c == 2;
    }
  }
}
