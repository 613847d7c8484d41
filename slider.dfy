/** The apply_slider closure of create_slider_effect: at time t the frame is
    the image cyclically shifted (numpy's roll) by up to 30% of its width or
    height. Pixels are left abstract: a frame is a grid of values of type P. */
module Slider {
  import opened Numerics

  /** Every row of the grid has the same length */
  predicate IsRectangular<P>(image: seq<seq<P>>)
  {
    forall i :: 0 <= i < |image| ==> |image[i]| == |image[0]|
  }

  /** image.shape[1] */
  function Width<P>(image: seq<seq<P>>): nat
  {
    if |image| == 0 then 0 else |image[0]|
  }

  /** np.roll of a sequence by k: element j of the result is element
      (j - k) mod n of the sequence */
  function Roll<T>(s: seq<T>, k: int): (r: seq<T>)
    ensures |r| == |s|
  {
    seq(|s|, j requires 0 <= j < |s| => s[(j - k) % |s|])
  }

  /** np.roll(image, k, axis=0): the rows move */
  function RollRows<P>(image: seq<seq<P>>, k: int): (r: seq<seq<P>>)
    ensures |r| == |image|
  {
    Roll(image, k)
  }

  /** np.roll(image, k, axis=1): every row moves along itself */
  function RollColumns<P>(image: seq<seq<P>>, k: int): (r: seq<seq<P>>)
    ensures |r| == |image|
    ensures forall i :: 0 <= i < |r| ==> |r[i]| == |image[i]|
  {
    seq(|image|, i requires 0 <= i < |image| => Roll(image[i], k))
  }

  /** Whether the direction rolls along axis 1 */
  predicate IsHorizontal(direction: string)
  {
    direction in ["left_to_right", "right_to_left"]
  }

  /** int(span * p) lies in [0, span] for span >= 0 and p in [0, 1] */
  lemma TruncScaledBounds(span: real, p: real)
    requires 0.0 <= span && 0.0 <= p <= 1.0
    ensures 0 <= Trunc(span * p) && Trunc(span * p) as real <= span
  {
    var x := span * p;
    ScaleMonotone(span, 0.0, p);
    ScaleMonotone(span, p, 1.0);
    assert span * 0.0 == 0.0 && span * 1.0 == span;
    assert 0.0 <= x <= span;
  }

  /** int(dim * 0.3 * f): the shift after a fraction f of the slide, which
      for f in [0, 1] lies between 0 and 30% of the axis */
  function Shift(dim: nat, f: real): (r: int)
    ensures 0.0 <= f <= 1.0 ==> 0 <= r && r as real <= dim as real * 0.3
  {
    var span := dim as real * 0.3;
    if 0.0 <= f <= 1.0 then
      TruncScaledBounds(span, f);
      Trunc(span * f)
    else Trunc(span * f)
  }

  /** The shift: int(dim * 0.3 * progress), reversed by 1 - progress for
      right_to_left and for every direction that is neither of the first
      three. Within the effect it is at most 30% of the rolled axis. */
  function SliderOffset(direction: string, h: nat, w: nat, progress: real): (r: int)
    ensures 0.0 <= progress <= 1.0 ==> 0 <= r
    ensures 0.0 <= progress <= 1.0 && IsHorizontal(direction) ==> r as real <= w as real * 0.3
    ensures 0.0 <= progress <= 1.0 && !IsHorizontal(direction) ==> r as real <= h as real * 0.3
  {
    if direction == "left_to_right" then Shift(w, progress)
    else if direction == "right_to_left" then Shift(w, 1.0 - progress)
    else if direction == "top_to_bottom" then Shift(h, progress)
    else Shift(h, 1.0 - progress)
  }

  /** apply_slider(get_frame, t) */
  function ApplySlider<P>(image: seq<seq<P>>, duration: real, direction: string, t: real): (r: seq<seq<P>>)
    requires duration != 0.0
    requires IsRectangular(image)
    ensures |r| == |image| && IsRectangular(r) && Width(r) == Width(image)
  {
    var progress := Progress(t, duration);
    var offset := SliderOffset(direction, |image|, Width(image), progress);
    if IsHorizontal(direction) then RollColumns(image, offset) else RollRows(image, offset)
  }

  // ---------------------------------------------------------------------
  // Properties of roll

  /** c * n >= n for c >= 1 */
  lemma MulAtLeast(c: int, n: int)
    requires 1 <= c && 0 < n
    ensures n <= c * n
  {
    assert c * n == (c - 1) * n + n;
  }

  /** The remainder is the unique r in [0, n) with a = q * n + r */
  lemma ModUnique(a: int, n: int, q: int, r: int)
    requires 0 < n && 0 <= r < n && a == q * n + r
    ensures a % n == r
  {
    var q', r' := a / n, a % n;
    var c := q - q';
    assert c * n == q * n - q' * n;
    if c >= 1 {
      MulAtLeast(c, n);
    } else if c <= -1 {
      MulAtLeast(-c, n);
    }
  }

  /** Adding a multiple of n does not change the remainder */
  lemma ModAddMultiple(x: int, m: int, n: int)
    requires 0 < n
    ensures (x + m * n) % n == x % n
  {
    assert x + m * n == (x / n + m) * n + x % n;
    ModUnique(x + m * n, n, x / n + m, x % n);
  }

  /** Rolling by k moves the last k mod n elements to the front, keeping
      the order of both parts */
  lemma RollAsSlices<T>(s: seq<T>, k: int)
    requires 0 < |s|
    ensures Roll(s, k) == s[|s| - k % |s|..] + s[..|s| - k % |s|]
  {
    var n := |s|;
    var o := k % n;
    var cut := n - o;
    var r := s[cut..] + s[..cut];
    forall j | 0 <= j < n
      ensures Roll(s, k)[j] == r[j]
    {
      assert j - k == (j - o) + (-(k / n)) * n;
      ModAddMultiple(j - o, -(k / n), n);
      if j < o {
        ModUnique(j - o, n, -1, j - o + n);
      } else {
        ModUnique(j - o, n, 0, j - o);
      }
    }
  }

  /** Rolling rearranges the elements: the result is a permutation */
  lemma RollPermutes<T>(s: seq<T>, k: int)
    ensures multiset(Roll(s, k)) == multiset(s)
  {
    if |s| > 0 {
      var cut := |s| - k % |s|;
      RollAsSlices(s, k);
      assert s == s[..cut] + s[cut..];
      calc {
        multiset(Roll(s, k));
        multiset(s[cut..]) + multiset(s[..cut]);
        multiset(s[..cut] + s[cut..]);
      }
    }
  }

  /** Subtracting b, reducing mod n, then subtracting a is subtracting a + b
      modulo n */
  lemma ModSubTwice(j: int, a: int, b: int, n: int)
    requires 0 < n
    ensures ((j - b) % n - a) % n == (j - (a + b)) % n
  {
    var q, u := (j - b) / n, (j - b) % n;
    assert j - (a + b) == (u - a) + q * n;
    ModAddMultiple(u - a, q, n);
  }

  /** Rolling by a then by b is rolling by a + b */
  lemma RollRollAdds<T>(s: seq<T>, a: int, b: int)
    ensures Roll(Roll(s, a), b) == Roll(s, a + b)
  {
    var n := |s|;
    var once, twice, direct := Roll(s, a), Roll(Roll(s, a), b), Roll(s, a + b);
    assert |twice| == n && |direct| == n;
    forall j | 0 <= j < n
      ensures twice[j] == direct[j]
    {
      var u := (j - b) % n;
      assert twice[j] == once[u];
      assert once[u] == s[(u - a) % n];
      ModSubTwice(j, a, b, n);
      var m := (j - (a + b)) % n;
      assert (u - a) % n == m;
      assert direct[j] == s[m];
    }
    assert twice == direct;
  }

  /** Rolling by 0 changes nothing */
  lemma RollByZero<T>(s: seq<T>)
    ensures Roll(s, 0) == s
  {
    forall j | 0 <= j < |s|
      ensures Roll(s, 0)[j] == s[j]
    {
      ModUnique(j, |s|, 0, j);
    }
  }

  /** Rolling back by -k undoes rolling by k */
  lemma RollInverse<T>(s: seq<T>, k: int)
    ensures Roll(Roll(s, k), -k) == s
  {
    var n, back := |s|, Roll(Roll(s, k), -k);
    forall j | 0 <= j < n
      ensures back[j] == s[j]
    {
      var u := (j + k) % n;
      assert back[j] == Roll(s, k)[u];
      ModSubTwice(j, k, -k, n);
      ModUnique(j, n, 0, j);
      assert (u - k) % n == j;
    }
    assert back == s;
  }

  // ---------------------------------------------------------------------
  // Properties of the slider

  /** The bag of all pixels of a frame */
  function Pixels<P>(image: seq<seq<P>>): multiset<P>
  {
    if |image| == 0 then multiset{} else multiset(image[0]) + Pixels(image[1..])
  }

  lemma {:induction false} PixelsConcat<P>(a: seq<seq<P>>, b: seq<seq<P>>)
    ensures Pixels(a + b) == Pixels(a) + Pixels(b)
  {
    if |a| > 0 {
      assert (a + b)[1..] == a[1..] + b;
      PixelsConcat(a[1..], b);
    } else {
      assert a + b == b;
    }
  }

  /** Frames whose rows hold the same pixels row by row hold the same pixels */
  lemma {:induction false} RowwisePermutation<P>(a: seq<seq<P>>, b: seq<seq<P>>)
    requires |a| == |b|
    requires forall i :: 0 <= i < |a| ==> multiset(a[i]) == multiset(b[i])
    ensures Pixels(a) == Pixels(b)
  {
    if |a| > 0 {
      RowwisePermutation(a[1..], b[1..]);
    }
  }

  /** Rolling the rows keeps every pixel */
  lemma RollRowsPermutes<P>(image: seq<seq<P>>, k: int)
    ensures Pixels(RollRows(image, k)) == Pixels(image)
  {
    if |image| > 0 {
      var cut := |image| - k % |image|;
      RollAsSlices(image, k);
      assert image == image[..cut] + image[cut..];
      PixelsConcat(image[cut..], image[..cut]);
      PixelsConcat(image[..cut], image[cut..]);
    }
  }

  /** Rolling the columns keeps every pixel */
  lemma RollColumnsPermutes<P>(image: seq<seq<P>>, k: int)
    ensures Pixels(RollColumns(image, k)) == Pixels(image)
  {
    var r := RollColumns(image, k);
    forall i | 0 <= i < |image|
      ensures multiset(r[i]) == multiset(image[i])
    {
      RollPermutes(image[i], k);
    }
    RowwisePermutation(r, image);
  }

  /** Pixel (i, j) of the frame is pixel (i, (j - offset) mod w) of the image
      for a horizontal direction and pixel ((i - offset) mod h, j) otherwise */
  lemma SliderAt<P>(image: seq<seq<P>>, duration: real, direction: string, t: real, i: nat, j: nat)
    requires duration != 0.0 && IsRectangular(image)
    requires i < |image| && j < Width(image)
    ensures var offset := SliderOffset(direction, |image|, Width(image), Progress(t, duration));
      var r := ApplySlider(image, duration, direction, t);
      (IsHorizontal(direction) ==> r[i][j] == image[i][(j - offset) % Width(image)]) &&
      (!IsHorizontal(direction) ==> r[i][j] == image[(i - offset) % |image|][j])
  {
    var offset := SliderOffset(direction, |image|, Width(image), Progress(t, duration));
    var r := ApplySlider(image, duration, direction, t);
    if IsHorizontal(direction) {
      assert r == RollColumns(image, offset);
      assert |image[i]| == Width(image);
      assert r[i] == Roll(image[i], offset);
    } else {
      assert r == RollRows(image, offset);
      var src := (i - offset) % |image|;
      assert r[i] == image[src];
      assert |image[src]| == Width(image);
    }
  }

  /** The slider frame is a permutation of the image's pixels */
  lemma SliderPermutesPixels<P>(image: seq<seq<P>>, duration: real, direction: string, t: real)
    requires duration != 0.0 && IsRectangular(image)
    ensures Pixels(ApplySlider(image, duration, direction, t)) == Pixels(image)
  {
    var offset := SliderOffset(direction, |image|, Width(image), Progress(t, duration));
    if IsHorizontal(direction) {
      RollColumnsPermutes(image, offset);
    } else {
      RollRowsPermutes(image, offset);
    }
  }

  /** An offset of 0 leaves the image as it is */
  lemma ZeroOffsetIsIdentity<P>(image: seq<seq<P>>, duration: real, direction: string, t: real)
    requires duration != 0.0 && IsRectangular(image)
    requires SliderOffset(direction, |image|, Width(image), Progress(t, duration)) == 0
    ensures ApplySlider(image, duration, direction, t) == image
  {
    if IsHorizontal(direction) {
      var r := RollColumns(image, 0);
      forall i | 0 <= i < |image|
        ensures r[i] == image[i]
      {
        RollByZero(image[i]);
      }
    } else {
      RollByZero(image);
    }
  }

  /** left_to_right starts at rest at t = 0, right_to_left ends at rest at t = duration */
  lemma SliderRestPoints(h: nat, w: nat, duration: real)
    requires duration != 0.0
    ensures SliderOffset("left_to_right", h, w, Progress(0.0, duration)) == 0
    ensures SliderOffset("right_to_left", h, w, Progress(duration, duration)) == 0
    ensures SliderOffset("top_to_bottom", h, w, Progress(0.0, duration)) == 0
    ensures SliderOffset("bottom_to_top", h, w, Progress(duration, duration)) == 0
  {
    ProgressEnds(duration);
    TruncOfInt(0);
  }

  /** A direction outside the four named ones rolls the rows with the
      bottom_to_top shift */
  lemma UnknownDirectionIsBottomToTop<P>(image: seq<seq<P>>, duration: real, direction: string, t: real)
    requires duration != 0.0 && IsRectangular(image)
    requires direction !in {"left_to_right", "right_to_left", "top_to_bottom", "bottom_to_top"}
    ensures ApplySlider(image, duration, direction, t) ==
      RollRows(image, Trunc(|image| as real * 0.3 * (1.0 - Progress(t, duration))))
  {
    assert !IsHorizontal(direction);
    assert direction != "left_to_right" && direction != "right_to_left" && direction != "top_to_bottom";
  }
}
