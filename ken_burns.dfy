/** The apply_zoom_pan closure of create_ken_burns_effect: at time t the
    frame is resized by the interpolated zoom, a window of the original size
    is cut out at a pan offset, and a window that falls short of the frame is
    padded with black at the bottom and on the right. The resized image comes
    from the resampling library and is an input of the computed size here. */
module KenBurns {
  import opened Numerics

  /** The parameters the closure captures */
  datatype KenBurnsEffect = KenBurnsEffect(duration: real, zoomStart: real, zoomEnd: real, panDirection: string)

  /** The integer geometry of one frame: the size of the resized image and
      the top-left corner of the window cut out of it */
  datatype Geometry = Geometry(newH: int, newW: int, yOffset: int, xOffset: int)

  /** current_zoom = zoom_start + (zoom_end - zoom_start) * progress */
  function CurrentZoom(e: KenBurnsEffect, progress: real): (z: real)
    ensures progress == 0.0 ==> z == e.zoomStart
    ensures progress == 1.0 ==> z == e.zoomEnd
  {
    e.zoomStart + (e.zoomEnd - e.zoomStart) * progress
  }

  /** int(n * zoom): for a zoom that is not negative, the largest size that
      does not exceed n * zoom */
  function ZoomedSize(n: nat, zoom: real): (r: int)
    ensures 0.0 <= zoom ==> 0 <= r && r as real <= n as real * zoom < r as real + 1.0
  {
    if 0.0 <= zoom then
      ProductNonNegative(n as real, zoom);
      Trunc(n as real * zoom)
    else Trunc(n as real * zoom)
  }

  /** max(0, (new - orig) // 2): the centred offset every direction starts from */
  function CentredOffset(orig: nat, scaled: int): (o: int)
    ensures 0 <= o
    ensures orig <= scaled ==> o + o <= scaled - orig
  {
    if (scaled - orig) / 2 < 0 then 0 else (scaled - orig) / 2
  }

  /** int(d * p) lies in [0, d] for d >= 0 and p in [0, 1] */
  lemma TruncFraction(d: int, p: real)
    requires 0 <= d && 0.0 <= p <= 1.0
    ensures 0 <= Trunc(d as real * p) <= d
  {
    ScaleMonotone(d as real, 0.0, p);
    ScaleMonotone(d as real, p, 1.0);
    assert d as real * 1.0 == d as real;
    TruncMonotone(d as real * p, d as real);
    TruncOfInt(d);
  }

  /** The offset of `in` on an axis that grew by d, at progress p */
  lemma InOffsetInRange(d: int, p: real)
    requires 0 <= d && 0.0 <= p <= 1.0
    ensures 0 <= Trunc(d as real * p / 2.0) <= d
  {
    assert d as real * p / 2.0 == d as real * (p / 2.0);
    TruncFraction(d, p / 2.0);
  }

  /** int(d * f): the share f of the growth d of an axis, which for d >= 0
      and f in [0, 1] lies in [0, d] */
  function PanShare(d: int, f: real): (r: int)
    ensures 0 <= d && 0.0 <= f <= 1.0 ==> 0 <= r <= d
  {
    if 0 <= d && 0.0 <= f <= 1.0 then
      TruncFraction(d, f);
      Trunc(d as real * f)
    else Trunc(d as real * f)
  }

  /** int(d * progress / 2): the offset of `in` on an axis that grew by d,
      which for d >= 0 and progress in [0, 1] lies in [0, d] */
  function InShare(d: int, progress: real): (r: int)
    ensures 0 <= d && 0.0 <= progress <= 1.0 ==> 0 <= r <= d
  {
    if 0 <= d && 0.0 <= progress <= 1.0 then
      InOffsetInRange(d, progress);
      Trunc(d as real * progress / 2.0)
    else Trunc(d as real * progress / 2.0)
  }

  /** The row offset of the window into a resized image of newH rows; on an
      axis that did not shrink, and at a progress in [0, 1], it lies in
      [0, newH - h] */
  function RowOffset(panDirection: string, h: nat, newH: int, progress: real): (r: int)
    ensures h <= newH && 0.0 <= progress <= 1.0 ==> 0 <= r <= newH - h
  {
    if panDirection == "in" then InShare(newH - h, progress)
    else CentredOffset(h, newH)
  }

  /** The column offset of the window into a resized image of newW columns;
      likewise within [0, newW - w], whatever the direction */
  function ColumnOffset(panDirection: string, w: nat, newW: int, progress: real): (r: int)
    ensures w <= newW && 0.0 <= progress <= 1.0 ==> 0 <= r <= newW - w
  {
    if panDirection == "in" then InShare(newW - w, progress)
    else if panDirection == "left" then PanShare(newW - w, progress)
    else if panDirection == "right" then PanShare(newW - w, 1.0 - progress)
    else CentredOffset(w, newW)
  }

  /** The geometry of the frame at time t of an image of h rows and w columns */
  function GeometryAt(e: KenBurnsEffect, h: nat, w: nat, t: real): Geometry
    requires e.duration != 0.0
  {
    var progress := Progress(t, e.duration);
    var zoom := CurrentZoom(e, progress);
    var newH, newW := ZoomedSize(h, zoom), ZoomedSize(w, zoom);
    Geometry(newH, newW, RowOffset(e.panDirection, h, newH, progress),
             ColumnOffset(e.panDirection, w, newW, progress))
  }

  /** The number of elements the numpy slice [start:start + len] keeps of an
      axis of n elements, for a start that is not negative */
  function SliceLength(start: nat, len: nat, n: nat): (k: nat)
    ensures k <= len
    ensures start < n ==> start + k <= n
    ensures start >= n ==> k == 0
    ensures start + len <= n ==> k == len
  {
    if start >= n then 0 else if start + len <= n then len else n - start
  }

  /** apply_zoom_pan(get_frame, t) for an image of shape h x w x 3, given the
      resized image zoomed. Negative offsets (numpy would count them from the
      end) only arise for a zoom below 1 or a progress outside [0, 1]; they
      are excluded, and so is a resized size of zero rows or columns, on
      which the resampling library raises an error. */
  method ApplyZoomPan(e: KenBurnsEffect, image: array3<int>, t: real, zoomed: array3<int>)
    returns (frame: array3<int>)
    requires e.duration != 0.0
    requires image.Length2 == 3 && zoomed.Length2 == 3
    requires zoomed.Length0 == GeometryAt(e, image.Length0, image.Length1, t).newH
    requires zoomed.Length1 == GeometryAt(e, image.Length0, image.Length1, t).newW
    requires 0 <= GeometryAt(e, image.Length0, image.Length1, t).yOffset
    requires 0 <= GeometryAt(e, image.Length0, image.Length1, t).xOffset
    requires 0 < zoomed.Length0 && 0 < zoomed.Length1
    ensures fresh(frame)
    ensures frame.Length0 == image.Length0 && frame.Length1 == image.Length1 && frame.Length2 == 3
    ensures forall i, j, c :: 0 <= i < frame.Length0 && 0 <= j < frame.Length1 && 0 <= c < 3 ==>
      var g := GeometryAt(e, image.Length0, image.Length1, t);
      frame[i, j, c] == if g.yOffset + i < g.newH && g.xOffset + j < g.newW
                        then zoomed[g.yOffset + i, g.xOffset + j, c] else 0
  {
    var g := PanGeometry(e, image.Length0, image.Length1, t);
    var h, w := image.Length0, image.Length1;
    var cropped := Crop(zoomed, g.yOffset, g.xOffset, h, w);
    if cropped.Length0 < h || cropped.Length1 < w {
      frame := PadBottomRight(cropped, h, w);
    } else {
      frame := cropped;
    }
  }

  /** The first half of apply_zoom_pan: progress, zoom and resized size,
      then the pan offsets */
  method PanGeometry(e: KenBurnsEffect, h: nat, w: nat, t: real) returns (g: Geometry)
    requires e.duration != 0.0
    ensures g == GeometryAt(e, h, w, t)
  {
    var progress := Progress(t, e.duration);
    var currentZoom := CurrentZoom(e, progress);
    var newH, newW := ZoomedSize(h, currentZoom), ZoomedSize(w, currentZoom);
    var yOffset, xOffset := PanOffsets(e.panDirection, h, w, newH, newW, progress);
    g := Geometry(newH, newW, yOffset, xOffset);
  }

  /** The pan offsets, assigned branch by branch as the closure does: both
      start centred and the direction then overrides one or both */
  method PanOffsets(panDirection: string, h: nat, w: nat, newH: int, newW: int, progress: real)
    returns (yOffset: int, xOffset: int)
    ensures yOffset == RowOffset(panDirection, h, newH, progress)
    ensures xOffset == ColumnOffset(panDirection, w, newW, progress)
  {
    yOffset := CentredOffset(h, newH);
    xOffset := CentredOffset(w, newW);
    if panDirection == "in" {
      var offset := InShare(newH - h, progress);
      yOffset := offset;
      xOffset := InShare(newW - w, progress);
    } else if panDirection == "left" {
      xOffset := PanShare(newW - w, progress);
    } else if panDirection == "right" {
      xOffset := PanShare(newW - w, 1.0 - progress);
    }
  }

  /** zoomed[y:y + h, x:x + w] */
  method Crop(zoomed: array3<int>, y: nat, x: nat, h: nat, w: nat) returns (cropped: array3<int>)
    requires zoomed.Length2 == 3
    ensures fresh(cropped)
    ensures cropped.Length0 == SliceLength(y, h, zoomed.Length0)
    ensures cropped.Length1 == SliceLength(x, w, zoomed.Length1)
    ensures cropped.Length2 == 3
    ensures forall i, j, c :: 0 <= i < cropped.Length0 && 0 <= j < cropped.Length1 && 0 <= c < 3 ==>
      cropped[i, j, c] == zoomed[y + i, x + j, c]
  {
    var rows, cols := SliceLength(y, h, zoomed.Length0), SliceLength(x, w, zoomed.Length1);
    cropped := new int[rows, cols, 3]((i, j, c) reads zoomed
      requires 0 <= i < rows && 0 <= j < cols && 0 <= c < 3 => zoomed[y + i, x + j, c]);
  }

  /** cv2.copyMakeBorder(cropped, 0, h - rows, 0, w - cols, BORDER_CONSTANT, (0, 0, 0)) */
  method PadBottomRight(cropped: array3<int>, h: nat, w: nat) returns (padded: array3<int>)
    requires cropped.Length0 <= h && cropped.Length1 <= w && cropped.Length2 == 3
    ensures fresh(padded)
    ensures padded.Length0 == h && padded.Length1 == w && padded.Length2 == 3
    ensures forall i, j, c :: 0 <= i < h && 0 <= j < w && 0 <= c < 3 ==>
      padded[i, j, c] == if i < cropped.Length0 && j < cropped.Length1 then cropped[i, j, c] else 0
  {
    padded := new int[h, w, 3]((i, j, c) reads cropped
      requires 0 <= i < h && 0 <= j < w && 0 <= c < 3 =>
        if i < cropped.Length0 && j < cropped.Length1 then cropped[i, j, c] else 0);
  }

  // ---------------------------------------------------------------------
  // Properties of the geometry

  /** Between zoom levels of at least 1, and for a time within the effect,
      the zoom is at least 1 */
  lemma ZoomAtLeastOne(e: KenBurnsEffect, progress: real)
    requires 1.0 <= e.zoomStart && 1.0 <= e.zoomEnd && 0.0 <= progress <= 1.0
    ensures 1.0 <= CurrentZoom(e, progress)
  {
    var p, zs, ze := progress, e.zoomStart, e.zoomEnd;
    var kept, gained := (1.0 - p) * (zs - 1.0), p * (ze - 1.0);
    ProductNonNegative(1.0 - p, zs - 1.0);
    ProductNonNegative(p, ze - 1.0);
    assert (ze - zs) * p == gained - p * (zs - 1.0);
    assert kept == (zs - 1.0) - p * (zs - 1.0);
    assert CurrentZoom(e, p) == 1.0 + kept + gained;
  }

  /** A zoom of at least 1 never shrinks an axis */
  lemma ZoomedSizeAtLeast(n: nat, zoom: real)
    requires 1.0 <= zoom
    ensures n <= ZoomedSize(n, zoom)
  {
    ScaleMonotone(n as real, 1.0, zoom);
    assert n as real * 1.0 == n as real;
    TruncMonotone(n as real, n as real * zoom);
    TruncOfInt(n);
  }

  /** With zoom levels of at least 1 and t in [0, duration], the resized image
      is at least as large as the frame and every offset lies in
      [0, new - orig], whatever the pan direction */
  lemma OffsetsWithinZoomedImage(e: KenBurnsEffect, h: nat, w: nat, t: real)
    requires 0.0 < e.duration && 0.0 <= t <= e.duration
    requires 1.0 <= e.zoomStart && 1.0 <= e.zoomEnd
    ensures var g := GeometryAt(e, h, w, t);
      h <= g.newH && w <= g.newW &&
      0 <= g.yOffset <= g.newH - h && 0 <= g.xOffset <= g.newW - w
  {
    var progress := Progress(t, e.duration);
    var zoom := CurrentZoom(e, progress);
    var g := GeometryAt(e, h, w, t);
    assert g.newH == ZoomedSize(h, zoom) && g.newW == ZoomedSize(w, zoom);
    assert g.yOffset == RowOffset(e.panDirection, h, g.newH, progress);
    assert g.xOffset == ColumnOffset(e.panDirection, w, g.newW, progress);
    ZoomAtLeastOne(e, progress);
    ZoomedSizeAtLeast(h, zoom);
    ZoomedSizeAtLeast(w, zoom);
  }

  /** Hence the window never needs padding: it lies inside the resized image */
  lemma NoPaddingWithinEffect(e: KenBurnsEffect, h: nat, w: nat, t: real)
    requires 0.0 < e.duration && 0.0 <= t <= e.duration
    requires 1.0 <= e.zoomStart && 1.0 <= e.zoomEnd
    ensures var g := GeometryAt(e, h, w, t);
      0 <= g.yOffset && 0 <= g.xOffset && 0 <= g.newH && 0 <= g.newW &&
      SliceLength(g.yOffset, h, g.newH) == h && SliceLength(g.xOffset, w, g.newW) == w
  {
    OffsetsWithinZoomedImage(e, h, w, t);
  }

  /** At t = 0 with a starting zoom of 1 the window is the whole image, at
      offset (0, 0), for every pan direction */
  lemma FirstFrameIsWholeImage(e: KenBurnsEffect, h: nat, w: nat)
    requires e.duration != 0.0 && e.zoomStart == 1.0
    ensures GeometryAt(e, h, w, 0.0) == Geometry(h, w, 0, 0)
  {
    ProgressEnds(e.duration);
    assert h as real * 1.0 == h as real && w as real * 1.0 == w as real;
    TruncOfInt(h);
    TruncOfInt(w);
    TruncOfInt(0);
  }

  /** `in` starts from the top-left corner whatever the zoom */
  lemma InStartsAtCorner(e: KenBurnsEffect, h: nat, w: nat)
    requires e.duration != 0.0 && e.panDirection == "in"
    ensures GeometryAt(e, h, w, 0.0).yOffset == 0 && GeometryAt(e, h, w, 0.0).xOffset == 0
  {
    ProgressEnds(e.duration);
    TruncOfInt(0);
  }

  /** At progress 1 (t = duration) `left` ends flush with the right edge of
      the resized image and `right` ends at its left edge */
  lemma HorizontalPansEnd(w: nat, newW: int)
    ensures ColumnOffset("left", w, newW, 1.0) == newW - w
    ensures ColumnOffset("right", w, newW, 1.0) == 0
  {
    var d := newW - w;
    assert d as real * 1.0 == d as real && d as real * (1.0 - 1.0) == 0.0;
    TruncOfInt(d);
    TruncOfInt(0);
  }

  /** Any direction other than `in`, `left` and `right` keeps the centred offsets */
  lemma OtherDirectionsStayCentred(e: KenBurnsEffect, h: nat, w: nat, t: real)
    requires e.duration != 0.0 && e.panDirection !in {"in", "left", "right"}
    ensures var g := GeometryAt(e, h, w, t);
      g.yOffset == CentredOffset(h, g.newH) && g.xOffset == CentredOffset(w, g.newW)
  {
  }

  /** The default effect on a 1920 x 1080 frame, half-way through: zoom 1.15,
      the `in` offsets are a quarter of the growth on each axis, truncated */
  lemma HalfwayExample()
    ensures GeometryAt(KenBurnsEffect(3.0, 1.0, 1.3, "in"), 1080, 1920, 1.5) == Geometry(1242, 2208, 40, 72)
  {
    var e := KenBurnsEffect(3.0, 1.0, 1.3, "in");
    assert Progress(1.5, 3.0) == 0.5;
    assert CurrentZoom(e, 0.5) == 1.15;
    assert 1080.0 * 1.15 == 1242.0 && 1920.0 * 1.15 == 2208.0;
    TruncOfInt(1242);
    TruncOfInt(2208);
    assert (1242 - 1080) as real * 0.5 / 2.0 == 40.5;
    assert (2208 - 1920) as real * 0.5 / 2.0 == 72.0;
    TruncOfInt(72);
  }
}
