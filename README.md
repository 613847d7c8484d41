# Cinematic food editor: frame transforms

This project models the pixel arithmetic and the integer geometry of the
frame transforms of `CinematicFoodEditor` in `main.py`, and proves properties
of the model in Dafny. A frame is an `h x w x 3` grid of 8-bit values. Python
floats are exact reals. Python's `int()` and numpy's `astype(np.uint8)` of a
clipped value are truncation (`Numerics.Trunc`, `Numerics.ToU8`).

There are six modules, one file each:

- `Numerics` (`numerics.dfy`): numpy's `clip`, the truncations, the
  progress `t / duration`, and the monotonicity facts the other modules use.
- `ColorGrading` (`color_grading.dfy`): `apply_lut_color_grading`, as
  methods over arrays.
  - The frame is normalised to `[0, 1]`.
  - The `warm`, `cool` and `vintage` looks rewrite channel slices in place.
  - The result is clipped, scaled back by 255 and truncated.
  - Lemmas state what each look does to an 8-bit value.
- `ShadowHighlights` (`shadow_highlights.dfy`): the `np.where` threshold
  remap of the L channel of a LAB frame. It is a function on sequences.
- `Vignette` (`vignette.dfy`): the in-place `for i in range(3)` loop that
  multiplies every channel by the mask, then the clip and the cast.
- `KenBurns` (`ken_burns.dfy`): the `apply_zoom_pan` closure. It computes
  the progress, the zoom, the resized size and the pan offsets per direction,
  then the numpy slice and the black padding at the bottom and right.
- `Slider` (`slider.dfy`): the `apply_slider` closure. The frame is `np.roll`
  of the image along axis 1 for the two horizontal directions and along
  axis 0 for every other direction. Pixels are abstract.

What the code does at its edges:

- The vignette exponent is `1 - intensity`. So intensity 1, not 0, gives an
  all-ones mask and leaves the frame unchanged. Intensity 0 leaves the
  normalised Gaussian falloff as it is (`Vignette.MaskExponent`,
  `Vignette.UnitMaskIsPassthrough`).
- Denormalising truncates instead of rounding. Warm grading of mid grey 128
  gives red 153 and green 140 (`ColorGrading.WarmMidGrey`).
- The progress `t / duration` is not clamped to `[0, 1]`. The properties
  that need it in range say so in their preconditions.
- Three inputs make the code raise, and each is a precondition here. A zero
  duration divides by zero (`ZeroDivisionError`). A resized size of zero rows
  or columns, such as `zoom_end = 0` at `t = duration`, makes `cv2.resize`
  (main.py:172) raise. A frame without a third axis makes the channel slices
  (main.py:68, main.py:111) raise `IndexError`; the arrays here are
  `h x w x 3` by their type and a precondition.
- With zoom levels of at least 1 and `t` in `[0, duration]`, no padding is
  added (`KenBurns.NoPaddingWithinEffect`).
- In the default `in` effect on 1920 x 1080 (zoom 1 to 1.3 over 3
  seconds), the image at `t = 1.5` is resized to 2208 x 1242, a growth of 162
  rows and 288 columns. The `in` offsets are then `int(162 * 0.5 / 2) = 40`
  rows (not 40.5) and 72 columns. These are half of the centred offsets 81
  and 144 at that time, and a quarter of the final `in` offsets 162 and 288,
  truncated (`KenBurns.HalfwayExample`).

## Model

| member | source | states |
|---|---|---|
| Numerics.Clip | main.py:68 | `np.clip(x, lo, hi)` lies in `[lo, hi]`. It is `x` inside the range, `lo` below it and `hi` above it |
| Numerics.Trunc | main.py:169 | Python `int()` truncates toward zero. For `x >= 0` it is the greatest integer not above `x`; for `x < 0` it is the least integer not below `x` |
| Numerics.ToU8 | main.py:113 | `astype(np.uint8)` of a value already clipped to `[0, 255]` lies in 0..255 and is that value's floor |
| Numerics.ClippedScaleIsScaleCap | main.py:137-141 | Clipping `v * k` to `[0, 255]` and casting it, for `v, k >= 0`, equals `floor(min(v * k, 255))` |
| Numerics.Progress | main.py:164 | `t / duration` lies in `[0, 1]` for `t` in `[0, duration]`; outside that it is not clamped |
| ColorGrading.Denormalize | main.py:89 | The return step always yields 0..255 |
| ColorGrading.GradedValue | main.py:64-89 | Every output channel of a non-noir look lies in 0..255 |
| ColorGrading.NoirValue | main.py:83-89 | Every output channel of `noir` lies in 0..255 |
| ColorGrading.GradeChannel | main.py:66-81 | The normalised value after the branch of the chosen look stays in `[0, 1]`, and a name other than `warm`, `cool` and `vintage` leaves it as it is |
| ColorGrading.ApplyLutColorGrading | main.py:64-89 | The output has the input's shape. Each value is the graded value of its channel under the chosen look, or for `noir` the lifted grey level of its pixel |
| ColorGrading.Normalized | main.py:64 | A new float frame of the same shape, holding each value divided by 255 |
| ColorGrading.DenormalizeFrame | main.py:89 | A new 8-bit frame of the same shape, holding each value clipped to `[0, 1]`, times 255, truncated |
| ColorGrading.WarmLook | main.py:66-69 | In place: red becomes `clip(x * 1.2)` and green `clip(x * 1.1)`. Blue is unchanged |
| ColorGrading.CoolLook | main.py:71-74 | In place: blue becomes `clip(x * 1.2)` and red `clip(x * 0.9)`. Green is unchanged |
| ColorGrading.VintageLook | main.py:76-81 | The frame is first replaced by the faded copy `clip(x * 0.95)`. Then green is scaled by 0.95 and blue by 0.85, each clipped |
| ColorGrading.NoirLook | main.py:83-87 | The grey level is replicated into three channels, normalised, lifted and clipped to `[0, 1]` |
| ColorGrading.ClipScaleChannel | main.py:68 | `img_float[:, :, c] = clip(img_float[:, :, c] * k, 0, 1)` in place. Every other channel is unchanged |
| ColorGrading.ScaledChannel | main.py:64-89 | A value scaled by `k` in the normalised domain comes back as `floor(min(v * k, 255))` |
| ColorGrading.UnscaledChannel | main.py:64-89 | Normalising and denormalising an 8-bit value gives it back |
| ColorGrading.WarmRecipe | main.py:66-69 | `warm` maps red to `floor(min(1.2 v, 255))` and green to `floor(min(1.1 v, 255))`. Blue keeps `v` |
| ColorGrading.CoolRecipe | main.py:71-74 | `cool` maps blue to `floor(min(1.2 v, 255))` and red to `floor(0.9 v)`. Green keeps `v` |
| ColorGrading.VintageRecipe | main.py:76-81 | `vintage` maps red to `floor(0.95 v)`, green to `floor(0.95 * 0.95 v)` and blue to `floor(0.95 * 0.85 v)` |
| ColorGrading.VintageNeverBrightens | main.py:76-81 | `vintage` never increases any channel |
| ColorGrading.UnknownLutIsPassthrough | main.py:64-89 | A look name other than the four leaves every value unchanged |
| ColorGrading.WarmMidGrey | main.py:66-69 | `warm` on 128 gives red 153, green 140 and blue 128 |
| ShadowHighlights.RemapLightness | main.py:135-141 | The new lightness always lies in 0..255 |
| ShadowHighlights.ApplyShadowHighlights | main.py:135-141 | The frame keeps its shape. L is remapped, and the A and B channels are unchanged |
| ShadowHighlights.RemapByThreshold | main.py:135-139 | Below the threshold 128 (`Midpoint`, main.py:136), L becomes `floor(min(L * shadows, 255))`; otherwise `floor(min(L * highlights, 255))` |
| ShadowHighlights.UnitGainsKeepLightness | main.py:135-141 | With both gains 1, every 8-bit lightness is unchanged |
| ShadowHighlights.ShadowGainLifts | main.py:135-141 | A shadow gain of at least 1 never darkens a shadow |
| ShadowHighlights.HighlightGainDims | main.py:135-141 | A highlight gain in `[0, 1]` never brightens a highlight |
| ShadowHighlights.UnitGainsAreIdentity | main.py:135-141 | With both gains 1, an 8-bit LAB frame is unchanged |
| ShadowHighlights.RemapStaysU8 | main.py:135-141 | The remap maps 8-bit LAB frames to 8-bit LAB frames |
| Vignette.Vignetted | main.py:113 | Every vignetted channel value lies in 0..255 |
| Vignette.MaskExponent | main.py:107 | The exponent `1 - intensity` is 0 exactly when intensity is 1, and lies in `[0, 1]` for intensity in `[0, 1]` |
| Vignette.ApplyVignette | main.py:109-113 | The output has the input's shape, and all three channels of a pixel are scaled by that pixel's mask value, then clipped and cast |
| Vignette.MultiplyChannel | main.py:110-111 | `image_float[:, :, c] *= mask` in place. Every other channel is unchanged |
| Vignette.ClipToU8 | main.py:113 | A new 8-bit frame holding each value clipped to `[0, 255]` and truncated |
| Vignette.VignetteDarkens | main.py:109-113 | A mask value in `[0, 1]` never brightens a channel |
| Vignette.UnitMaskIsPassthrough | main.py:106-113 | A mask value of 1, which intensity 1 gives everywhere, leaves a channel unchanged |
| Vignette.ZeroMaskIsBlack | main.py:109-113 | A mask value of 0 makes a channel black |
| Vignette.VignetteMonotoneInMask | main.py:109-113 | A smaller mask value never gives a brighter channel |
| KenBurns.CurrentZoom | main.py:165 | The zoom is `zoom_start` at progress 0 and `zoom_end` at progress 1 |
| KenBurns.ZoomedSize | main.py:169 | `int(n * zoom)` for a zoom that is not negative is the largest size not above `n * zoom`: it is non-negative, at most `n * zoom`, and more than `n * zoom - 1` |
| KenBurns.GeometryAt | main.py:164-186 | Defines the frame geometry at time `t`: the size `ZoomedSize` gives at the zoom `CurrentZoom` gives at the progress, and the offsets `RowOffset` and `ColumnOffset` give. Its properties are the lemmas below |
| KenBurns.CentredOffset | main.py:175-176 | `max(0, (new - orig) // 2)` is non-negative, and twice it fits in the growth |
| KenBurns.InShare | main.py:180-182 | The `in` offset `int(d * progress / 2)` lies in `[0, d]` for `d >= 0` and progress in `[0, 1]` |
| KenBurns.PanShare | main.py:184-186 | The `left` and `right` offset `int(d * f)` lies in `[0, d]` for `d >= 0` and `f` in `[0, 1]` |
| KenBurns.RowOffset | main.py:175-182 | On an axis that did not shrink, at progress in `[0, 1]`, the row offset lies in `[0, new_h - h]` |
| KenBurns.ColumnOffset | main.py:175-186 | Likewise, the column offset lies in `[0, new_w - w]` for every direction |
| KenBurns.SliceLength | main.py:189 | The numpy slice `[s:s + len]` of an axis of `n` keeps at most `len` elements, stays inside the axis, and keeps all `len` when they fit |
| KenBurns.ApplyZoomPan | main.py:162-198 | The frame is exactly `h x w x 3`. Pixel `(i, j)` is `zoomed[y + i, x + j]` when that index lies inside the resized image, and black otherwise |
| KenBurns.PanGeometry | main.py:164-186 | The progress, zoom, resized size and offsets the closure computes are those of `GeometryAt` |
| KenBurns.PanOffsets | main.py:175-186 | Both offsets start centred. `in` overrides both, and `left` and `right` override the column offset, as `RowOffset` and `ColumnOffset` state |
| KenBurns.Crop | main.py:189 | The cropped window has the numpy slice lengths and holds the resized image shifted by the offsets |
| KenBurns.PadBottomRight | main.py:191-196 | The padded frame is `h x w x 3`. It keeps the window at the top left and is black below it and to its right |
| KenBurns.ZoomAtLeastOne | main.py:165 | Between zoom levels of at least 1, at progress in `[0, 1]`, the zoom is at least 1 |
| KenBurns.ZoomedSizeAtLeast | main.py:169 | A zoom of at least 1 never shrinks an axis |
| KenBurns.OffsetsWithinZoomedImage | main.py:164-186 | With zoom levels of at least 1 and `t` in `[0, duration]`, the resized image covers the frame, and both offsets lie in `[0, new - orig]` in every direction |
| KenBurns.NoPaddingWithinEffect | main.py:189-196 | Under the same conditions the slice keeps a full `h x w` window, so no padding is added |
| KenBurns.FirstFrameIsWholeImage | main.py:164-189 | At `t = 0` with `zoom_start = 1`, the window is the whole image at offset `(0, 0)` for every direction |
| KenBurns.InStartsAtCorner | main.py:178-182 | `in` starts at offset `(0, 0)` whatever the zoom |
| KenBurns.HorizontalPansEnd | main.py:183-186 | At progress 1, `left` ends flush with the right edge (offset `new_w - w`) and `right` ends at offset 0 |
| KenBurns.OtherDirectionsStayCentred | main.py:175-186 | Any direction other than `in`, `left` and `right` keeps the centred offsets |
| KenBurns.HalfwayExample | main.py:146-186 | The default effect on 1920 x 1080 at `t = 1.5` resizes to 2208 x 1242 at offsets `(40, 72)` |
| Slider.Shift | main.py:220-227 | `int(dim * 0.3 * f)` lies between 0 and 30% of the axis for `f` in `[0, 1]` |
| Slider.SliderOffset | main.py:220-227 | The shift at progress in `[0, 1]` is non-negative and at most 30% of the width (horizontal) or the height (anything else) |
| Slider.Width | main.py:218 | Defines `image.shape[1]` as the length of the first row, 0 for an empty frame |
| Slider.IsHorizontal | main.py:229 | Defines the two directions that roll along axis 1: `left_to_right` and `right_to_left` |
| Slider.Roll | main.py:230-232 | `np.roll` keeps the length; element `j` is element `(j - k) mod n`. What this means is stated by `RollAsSlices`, `RollPermutes`, `RollRollAdds` and `RollInverse` |
| Slider.RollRows | main.py:232 | `np.roll(image, k, axis=0)` keeps the number of rows; it is `Roll` on the sequence of rows |
| Slider.RollColumns | main.py:230 | `np.roll(image, k, axis=1)` keeps the number of rows and the length of every row; each row is rolled by `k` |
| Slider.ApplySlider | main.py:216-232 | The frame keeps the image's height, width and rectangular shape |
| Slider.RollAsSlices | main.py:229-232 | `np.roll` by `k` moves the last `k mod n` elements to the front, keeping both parts in order |
| Slider.RollPermutes | main.py:229-232 | Rolling a sequence is a permutation of it |
| Slider.RollRollAdds | main.py:229-232 | Rolling by `a`, then by `b`, is rolling by `a + b` |
| Slider.RollByZero | main.py:229-232 | Rolling by 0 changes nothing |
| Slider.RollInverse | main.py:229-232 | Rolling by `-k` undoes rolling by `k` |
| Slider.RollRowsPermutes | main.py:232 | Rolling along axis 0 keeps the bag of pixels |
| Slider.RollColumnsPermutes | main.py:230 | Rolling along axis 1 keeps the bag of pixels |
| Slider.SliderAt | main.py:216-232 | Pixel `(i, j)` is `image[i][(j - offset) mod w]` for a horizontal direction, and `image[(i - offset) mod h][j]` otherwise |
| Slider.SliderPermutesPixels | main.py:216-232 | The slider frame is a permutation of the image's pixels |
| Slider.ZeroOffsetIsIdentity | main.py:216-232 | An offset of 0 gives back the image |
| Slider.SliderRestPoints | main.py:217-227 | The offset is 0 for `left_to_right` and `top_to_bottom` at `t = 0`, and for `right_to_left` and `bottom_to_top` at `t = duration` |
| Slider.UnknownDirectionIsBottomToTop | main.py:226-232 | A direction that is not one of the four rolls axis 0 by the `bottom_to_top` offset |

## Left out

- The BGR to LAB, LAB to BGR and BGR to GRAY conversions, `cv2.resize` and
  `cv2.imread` are calls into the image library. The LAB frame, the grey
  frame and the resized image are inputs of known dimensions. For `noir`,
  the grey frame and the `** 0.8` power (the `lift` parameter) are inputs.
- The Gaussian kernels of the vignette, their outer product, the
  normalisation to maximum 1 and the power `mask ** (1 - intensity)` are
  transcendental float numerics. The mask after the power is an input grid.
  Only the exponent (`Vignette.MaskExponent`) is modelled.
- Float32 rounding is not modelled. Values are exact reals, so a result that
  float32 would round across an integer boundary may differ by one.
- Negative slice starts, which numpy counts from the end of the axis, arise
  only for a zoom below 1 or a progress outside `[0, 1]`.
  `KenBurns.ApplyZoomPan` requires non-negative offsets instead.
- A zero `duration`, where Python raises `ZeroDivisionError`, is excluded
  by a precondition.
- KenBurns.ApplyZoomPan: requires a resized image of at least one row and
  one column, because `cv2.resize` (main.py:172) raises an error on a zero
  size. That error path is not modelled.
- A frame without three channels, on which the channel slices (main.py:68,
  main.py:111) raise `IndexError`, is excluded by the `h x w x 3` array
  type and a precondition. The error path is not modelled.
- `cv2.copyMakeBorder` is modelled only as the black border it adds at the
  bottom and on the right; its behaviour on an empty window is not modelled.
- MoviePy clip construction (`ImageClip`, `clip.fl`), text and subtitle
  overlays, title and credit sequencing, audio, export, logging and
  `prepare_image` are media assembly and I/O.
- The editor's `width`, `height` and `fps` fields are set once and never
  changed by the transforms, so there is no class.
- `initialize_project.py` (project setup), `setup.py` (packaging) and
  `runner.py` (a driver script) are not part of this model.
- KenBurns.PanGeometry: computes the progress, the zoom and the resized sizes
  through the same functions `GeometryAt` uses, instead of spelling out the
  arithmetic a second time.
