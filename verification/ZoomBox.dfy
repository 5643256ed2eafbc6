/** Clamping and growing the region a zoom-in call asks for, in exact reals. */
module ZoomBox {
  import opened Wrappers
  import opened Arithmetic

  datatype Box = Box(left: real, top: real, right: real, bottom: real)

  const MIN_DIMENSION := 28.0

  function Width(b: Box): real { b.right - b.left }

  function Height(b: Box): real { b.bottom - b.top }

  function Ceil(x: real): int { -((-x).Floor) }

  function Over(a: real, b: real): real
    requires b > 0.0
  {
    a / b
  }

  function Mul(a: real, b: real): real { a * b }

  lemma OverTimes(a: real, b: real)
    requires b > 0.0
    ensures Mul(Over(a, b), b) == a
  {}

  lemma MulGrows(a: real, b: real, k: real)
    requires k >= 0.0
    ensures a <= b ==> Mul(a, k) <= Mul(b, k) && Mul(k, a) <= Mul(k, b)
    ensures k > 0.0 && a < b ==> Mul(a, k) < Mul(b, k) && Mul(k, a) < Mul(k, b)
  {
    hide Mul;
    MulMinus(a, b, k);
    MulPositive(b - a, k);
  }

  lemma MulMinus(a: real, b: real, k: real)
    ensures Mul(b - a, k) == Mul(b, k) - Mul(a, k) && Mul(k, a) == Mul(a, k) && Mul(k, b) == Mul(b, k)
  {}

  lemma MulPositive(x: real, k: real)
    requires k >= 0.0
    ensures (x >= 0.0 ==> Mul(x, k) >= 0.0) && (x > 0.0 && k > 0.0 ==> Mul(x, k) > 0.0)
  {}

  /** The part of the box within the image. */
  function Clamped(b: Box, width: int, height: int): Box {
    Box(Max(0.0, b.left), Max(0.0, b.top), Min(width as real, b.right), Min(height as real, b.bottom))
  }

  /** Clamping keeps exactly what lies in the image. */
  lemma ClampedMeans(b: Box, width: int, height: int, x: real, y: real)
    ensures var c := Clamped(b, width, height);
      c.left <= x <= c.right && c.top <= y <= c.bottom <==>
        && b.left <= x <= b.right && b.top <= y <= b.bottom
        && 0.0 <= x <= width as real && 0.0 <= y <= height as real
  {}

  /** A proper box, no more than a hundred times as long as wide. */
  predicate Proper(b: Box) {
    b.left < b.right && b.top < b.bottom
    && Max(Height(b), Width(b)) <= 100.0 * Min(Height(b), Width(b))
  }

  predicate Within(b: Box, outer: Box) {
    outer.left <= b.left && outer.top <= b.top && b.right <= outer.right && b.bottom <= outer.bottom
  }

  function Image(width: int, height: int): Box { Box(0.0, 0.0, width as real, height as real) }

  predicate LargeEnough(b: Box) { Width(b) >= MIN_DIMENSION && Height(b) >= MIN_DIMENSION }

  /** `_validate_bbox` */
  method ValidateBbox(b: Box) returns (valid: bool)
    ensures valid == Proper(b)
    ensures valid <==>
      b.left < b.right && b.top < b.bottom && Width(b) <= 100.0 * Height(b) && Height(b) <= 100.0 * Width(b)
  {
    if !(b.left < b.right && b.top < b.bottom) {
      return false;
    }
    var height, width := b.bottom - b.top, b.right - b.left;
    if Min(height, width) == 0.0 {
      return false;
    }
    var ratio := Over(Max(height, width), Min(height, width));
    OverTimes(Max(height, width), Min(height, width));
    MulGrows(ratio, 100.0, Min(height, width));
    MulGrows(100.0, ratio, Min(height, width));
    if ratio > 100.0 {
      return false;
    }
    return true;
  }

  /** tw by th has the shape of w by h and is no smaller. */
  predicate Covers(tw: real, th: real, w: real, h: real) {
    w <= tw && h <= th && Mul(tw, h) == Mul(th, w)
  }

  /** Scaling the smaller side up to the minimum. */
  lemma ScaleUp(w: real, h: real)
    requires 0.0 < w && 0.0 < h && Min(h, w) < MIN_DIMENSION
    ensures var ratio := Over(MIN_DIMENSION, Min(h, w));
      && Covers(Mul(w, ratio), Mul(h, ratio), w, h)
      && Min(Mul(h, ratio), Mul(w, ratio)) == MIN_DIMENSION
      && Mul(Mul(w, ratio), Min(h, w)) == Mul(MIN_DIMENSION, w)
      && Mul(Mul(h, ratio), Min(h, w)) == Mul(MIN_DIMENSION, h)
  {}

  /** Scaling down to a side that still covers the box keeps the shape and still covers it. */
  lemma ScaleDown(tw: real, th: real, w: real, h: real, side: real)
    requires 0.0 < w && 0.0 < h && Covers(tw, th, w, h) && w <= side < tw
    ensures var th' := Mul(th, Over(side, tw)); Covers(side, th', w, h) && th' <= th
  {}

  lemma SameAspect(tw: real, th: real, w: real, h: real)
    requires 0.0 < w && 0.0 < h && Covers(tw, th, w, h) && w <= 99.0 * h
    ensures tw <= 99.0 * th
  {}

  /** The least box with integer corners around b. */
  function Rounded(b: Box): Box {
    Box(b.left.Floor as real, b.top.Floor as real, Ceil(b.right) as real, Ceil(b.bottom) as real)
  }

  lemma RoundDown(x: real)
    ensures x - 1.0 < x.Floor as real <= x && (x.Floor as real).Floor == x.Floor
    ensures 0.0 <= x ==> 0 <= x.Floor
  {}

  lemma RoundUp(x: real, n: int)
    ensures x <= Ceil(x) as real < x + 1.0 && (Ceil(x) as real).Floor == Ceil(x)
    ensures x <= n as real ==> Ceil(x) <= n
  {}

  lemma RoundedBounds(b: Box, width: int, height: int)
    ensures Within(b, Rounded(b)) && Within(Rounded(b), Box(b.left - 1.0, b.top - 1.0, b.right + 1.0, b.bottom + 1.0))
    ensures Within(b, Image(width, height)) ==> Within(Rounded(b), Image(width, height))
    ensures FloorWidth(Rounded(b)) as real == Width(Rounded(b)) && FloorHeight(Rounded(b)) as real == Height(Rounded(b))
  {
    hide Ceil;
    RoundDown(b.left);
    RoundDown(b.top);
    RoundUp(b.right, width);
    RoundUp(b.bottom, height);
  }

  function FloorWidth(b: Box): int { b.right.Floor - b.left.Floor }

  function FloorHeight(b: Box): int { b.bottom.Floor - b.top.Floor }

  lemma FloorSpan(b: Box)
    ensures Width(b) >= 28.0 ==> FloorWidth(b) >= 28
    ensures Height(b) >= 28.0 ==> FloorHeight(b) >= 28
  {}

  /** A grown box that is not extremely long stays proper when rounded. */
  lemma RoundedProper(b: Box)
    requires Min(Height(b), Width(b)) == MIN_DIMENSION && Width(b) <= 99.0 * Height(b) && Height(b) <= 99.0 * Width(b)
    ensures Proper(Rounded(b)) && FloorWidth(Rounded(b)) >= 28 && FloorHeight(Rounded(b)) >= 28
  {}

  lemma WithinTrans(a: Box, b: Box, c: Box)
    requires Within(a, b) && Within(b, c)
    ensures Within(a, c)
  {}

  lemma ClampedWithin(b: Box, width: int, height: int)
    requires Proper(Clamped(b, width, height))
    ensures Within(Clamped(b, width, height), Image(width, height))
  {}

  /** The factor by which a small box grows: the least of what brings its smaller side up to the
      minimum and what fills the image in either direction. */
  function Scale(width: real, height: real, imageWidth: real, imageHeight: real): real
    requires 0.0 < width && 0.0 < height
  {
    Min(Over(MIN_DIMENSION, Min(height, width)), Min(Over(imageWidth, width), Over(imageHeight, height)))
  }

  /** The nearest position to x between 0 and the limit. */
  function Clamp(x: real, limit: real): real { Min(Max(x, 0.0), limit) }

  /** A small box scaled up around its centre, shifted into the image and rounded outwards. */
  function GrownBox(c: Box, imageWidth: int, imageHeight: int): Box
    requires c.left < c.right && c.top < c.bottom
  {
    var s := Scale(Width(c), Height(c), imageWidth as real, imageHeight as real);
    var (tw, th) := (Mul(Width(c), s), Mul(Height(c), s));
    var x := Clamp((c.left + c.right) / 2.0 - tw / 2.0, imageWidth as real - tw);
    var y := Clamp((c.top + c.bottom) / 2.0 - th / 2.0, imageHeight as real - th);
    Rounded(Box(x, y, x + tw, y + th))
  }

  /** From lo to hi the centre is that of a to b, unless the side would stick out at 0 or at the
      limit: then it ends there. */
  predicate Centred(lo: real, hi: real, a: real, b: real, limit: real) {
    var (mid, half) := ((a + b) / 2.0, (hi - lo) / 2.0);
    if mid - half < 0.0 then lo == 0.0
    else if mid + half > limit then hi == limit
    else lo + hi == a + b
  }

  /** The exact box to which a small box c grows: of its shape, around its centre within the image,
      and with a smaller side of 28, or less where it fills the image. */
  predicate GrownAround(c: Box, e: Box, imageWidth: int, imageHeight: int) {
    && Within(c, e) && Within(e, Image(imageWidth, imageHeight))
    && Mul(Width(e), Height(c)) == Mul(Height(e), Width(c))
    && Min(Height(e), Width(e)) <= 28.0
    && (Min(Height(e), Width(e)) == 28.0 || Width(e) == imageWidth as real || Height(e) == imageHeight as real)
    && Centred(e.left, e.right, c.left, c.right, imageWidth as real)
    && Centred(e.top, e.bottom, c.top, c.bottom, imageHeight as real)
  }

  predicate IsWhole(x: real) { x.Floor as real == x }

  /** r is e with its corners moved outwards to whole numbers. */
  predicate RoundsOut(e: Box, r: Box) {
    && IsWhole(r.left) && IsWhole(r.top) && IsWhole(r.right) && IsWhole(r.bottom)
    && r.left <= e.left < r.left + 1.0 && r.top <= e.top < r.top + 1.0
    && r.right - 1.0 < e.right <= r.right && r.bottom - 1.0 < e.bottom <= r.bottom
  }

  /** `_maybe_resize_bbox` */
  method MaybeResizeBbox(b: Box, imageWidth: int, imageHeight: int) returns (r: Option<Box>)
    // a result is proper, inside the image, large enough, and contains the clamped request
    ensures r.Some? ==> Proper(r.value) && LargeEnough(r.value) && Within(r.value, Image(imageWidth, imageHeight))
    ensures r.Some? ==> Within(Clamped(b, imageWidth, imageHeight), r.value)
    ensures !Proper(Clamped(b, imageWidth, imageHeight)) ==> r == None
    // a request that is large enough is only clamped; a small one gives the grown box exactly when
    // that is proper and large enough after rounding
    ensures Proper(Clamped(b, imageWidth, imageHeight)) ==>
      var c := Clamped(b, imageWidth, imageHeight);
      var g := GrownBox(c, imageWidth, imageHeight);
      r == if LargeEnough(c) then Some(c) else if Proper(g) && LargeEnough(g) then Some(g) else None
    // the grown box keeps shape and centre
    ensures Proper(Clamped(b, imageWidth, imageHeight)) && r.Some? ==>
      var c := Clamped(b, imageWidth, imageHeight);
      if Width(c) >= 28.0 && Height(c) >= 28.0 then r.value == c
      else exists e :: GrownAround(c, e, imageWidth, imageHeight) && RoundsOut(e, r.value)
    ensures r.Some? ==> r.value.right.Floor - r.value.left.Floor >= 28 && r.value.bottom.Floor - r.value.top.Floor >= 28
    // which it is whenever it can be scaled up within the image and is not extremely long
    ensures GrowsFreely(Clamped(b, imageWidth, imageHeight), imageWidth, imageHeight) ==> r.Some?
  {
    hide Mul, GrowsFreely, Clamped, Proper, GrownBox, FloorWidth, FloorHeight;
    var c := Clamped(b, imageWidth, imageHeight);
    var valid := ValidateBbox(c);
    FreeIsProper(c, imageWidth, imageHeight);
    if !valid {
      return None;
    }
    ClampedWithin(b, imageWidth, imageHeight);
    FloorSpan(c);
    var current := c;
    if Height(c) < MIN_DIMENSION || Width(c) < MIN_DIMENSION {
      current := Grown(c, imageWidth, imageHeight);
    }
    valid := ValidateBbox(current);
    if !valid {
      return None;
    }
    if FloorHeight(current) < 28 || FloorWidth(current) < 28 {
      return None;
    }
    r := Some(current);
  }

  lemma FreeIsProper(c: Box, imageWidth: int, imageHeight: int)
    ensures GrowsFreely(c, imageWidth, imageHeight) ==> Proper(c)
    ensures Proper(c) ==> c.left < c.right && c.top < c.bottom
  {}

  /** Steps 1 to 4 of growing a box that is too small. */
  method Grown(c: Box, imageWidth: int, imageHeight: int) returns (r: Box)
    requires c.left < c.right && c.top < c.bottom && Within(c, Image(imageWidth, imageHeight))
    requires Height(c) < MIN_DIMENSION || Width(c) < MIN_DIMENSION
    ensures r == GrownBox(c, imageWidth, imageHeight)
    ensures exists e :: GrownAround(c, e, imageWidth, imageHeight) && RoundsOut(e, r)
    ensures Within(c, r) && Within(r, Image(imageWidth, imageHeight))
    ensures FloorWidth(r) as real == Width(r) && FloorHeight(r) as real == Height(r)
    ensures GrowsFreely(c, imageWidth, imageHeight) ==> Proper(r) && FloorWidth(r) >= 28 && FloorHeight(r) >= 28
  {
    hide Mul, GrowsFreely, Proper, Rounded, FloorWidth, FloorHeight, Scale, Centred, GrownAround, RoundsOut;
    var width, height := c.right - c.left, c.bottom - c.top;
    var centerX, centerY := (c.left + c.right) / 2.0, (c.top + c.bottom) / 2.0;
    var targetWidth, targetHeight := TargetSize(width, height, imageWidth as real, imageHeight as real);
    var newLeft := Place(centerX, targetWidth, c.left, c.right, imageWidth as real);
    var newTop := Place(centerY, targetHeight, c.top, c.bottom, imageHeight as real);
    var exact := Box(newLeft, newTop, newLeft + targetWidth, newTop + targetHeight);
    GrownSides(c, newLeft, newTop, targetWidth, targetHeight, imageWidth, imageHeight);
    if GrowsFreely(c, imageWidth, imageHeight) {
      GrownAspect(c, imageWidth, imageHeight, targetWidth, targetHeight);
      RoundedProper(exact);
    }
    GrownRounds(c, exact, imageWidth, imageHeight);
    r := Rounded(exact);
  }

  lemma GrownRounds(c: Box, e: Box, imageWidth: int, imageHeight: int)
    requires GrownAround(c, e, imageWidth, imageHeight)
    ensures var r := Rounded(e);
      && RoundsOut(e, r) && Within(c, r) && Within(r, Image(imageWidth, imageHeight))
      && FloorWidth(r) as real == Width(r) && FloorHeight(r) as real == Height(r)
  {
    hide Mul, Rounded, RoundsOut, FloorWidth, FloorHeight;
    RoundedBounds(e, imageWidth, imageHeight);
    WithinTrans(c, e, Rounded(e));
    RoundedOut(e);
  }

  lemma GrownSides(c: Box, x: real, y: real, tw: real, th: real, imageWidth: int, imageHeight: int)
    requires Covers(tw, th, Width(c), Height(c)) && Min(th, tw) <= 28.0
    requires Min(th, tw) == 28.0 || tw == imageWidth as real || th == imageHeight as real
    requires 0.0 <= x <= c.left && c.right <= x + tw <= imageWidth as real
    requires 0.0 <= y <= c.top && c.bottom <= y + th <= imageHeight as real
    requires Centred(x, x + tw, c.left, c.right, imageWidth as real)
    requires Centred(y, y + th, c.top, c.bottom, imageHeight as real)
    ensures GrownAround(c, Box(x, y, x + tw, y + th), imageWidth, imageHeight)
  {
    hide Mul, Centred;
    var e := Box(x, y, x + tw, y + th);
    assert Width(e) == tw && Height(e) == th;
  }

  lemma RoundedOut(e: Box)
    ensures RoundsOut(e, Rounded(e))
  {}

  /** Scaled up to the minimum the box fits the image, and it is not extremely long. */
  predicate GrowsFreely(c: Box, imageWidth: int, imageHeight: int) {
    && Proper(c)
    && Max(Height(c), Width(c)) <= 99.0 * Min(Height(c), Width(c))
    && Fits(Width(c), Height(c), imageWidth as real, imageHeight as real)
  }

  predicate Fits(width: real, height: real, imageWidth: real, imageHeight: real) {
    && Mul(MIN_DIMENSION, width) <= Mul(imageWidth, Min(height, width))
    && Mul(MIN_DIMENSION, height) <= Mul(imageHeight, Min(height, width))
  }

  lemma GrownAspect(c: Box, imageWidth: int, imageHeight: int, tw: real, th: real)
    requires GrowsFreely(c, imageWidth, imageHeight) && Covers(tw, th, Width(c), Height(c))
    ensures Fits(Width(c), Height(c), imageWidth as real, imageHeight as real)
    ensures tw <= 99.0 * th && th <= 99.0 * tw
  {
    hide Mul;
    SameAspect(tw, th, Width(c), Height(c));
    CoversTurned(tw, th, Width(c), Height(c));
    SameAspect(th, tw, Height(c), Width(c));
  }

  /** The size to grow a small box to: the smaller side up to the minimum, then down to fit. */
  method TargetSize(width: real, height: real, imageWidth: real, imageHeight: real) returns (tw: real, th: real)
    requires 0.0 < width <= imageWidth && 0.0 < height <= imageHeight
    requires height < MIN_DIMENSION || width < MIN_DIMENSION
    ensures tw == Mul(width, Scale(width, height, imageWidth, imageHeight))
    ensures th == Mul(height, Scale(width, height, imageWidth, imageHeight))
    ensures Covers(tw, th, width, height) && tw <= imageWidth && th <= imageHeight
    ensures Fits(width, height, imageWidth, imageHeight) ==> Min(th, tw) == MIN_DIMENSION
    ensures Min(th, tw) <= 28.0 && (Min(th, tw) == 28.0 || tw == imageWidth || th == imageHeight)
  {
    hide Mul, Over;
    var minDim := Min(height, width);
    var ratio := Over(MIN_DIMENSION, minDim);
    tw, th := Mul(width, ratio), Mul(height, ratio);
    ScaleUp(width, height);
    MulGrows(imageWidth, tw, minDim);
    MulGrows(imageHeight, th, minDim);
    ghost var s := ratio;
    OverPositive(MIN_DIMENSION, minDim);
    FitSide(width, s, imageWidth);
    if tw > imageWidth {
      Rescaled(width, height, s, imageWidth);
      s := Over(imageWidth, width);
      var scaleDown := Over(imageWidth, tw);
      ScaleDown(tw, th, width, height, imageWidth);
      tw := imageWidth;
      th := Mul(th, scaleDown);
    }
    OverPositive(imageWidth, width);
    FitSide(height, s, imageHeight);
    if th > imageHeight {
      Rescaled(height, width, s, imageHeight);
      s := Over(imageHeight, height);
      var scaleDown := Over(imageHeight, th);
      CoversTurned(tw, th, width, height);
      ScaleDown(th, tw, height, width, imageHeight);
      th := imageHeight;
      tw := Mul(tw, scaleDown);
    }
  }

  lemma OverPositive(a: real, b: real)
    requires a > 0.0 && b > 0.0
    ensures Over(a, b) > 0.0
  {}

  /** Scaled by s, the side w exceeds a limit exactly when s exceeds their ratio. */
  lemma FitSide(w: real, s: real, limit: real)
    requires w > 0.0
    ensures Mul(w, s) > limit <==> s > Over(limit, w)
    ensures Mul(w, Over(limit, w)) == limit
  {
    OverTimes(limit, w);
    MulGrows(s, Over(limit, w), w);
    MulGrows(Over(limit, w), s, w);
  }

  /** Scaling down by the ratio of the limit to the scaled side comes to scaling by the ratio of
      the limit to the side itself. */
  lemma Rescaled(w: real, h: real, s: real, limit: real)
    requires w > 0.0 && s > 0.0 && Mul(w, s) > 0.0
    ensures Mul(Mul(h, s), Over(limit, Mul(w, s))) == Mul(h, Over(limit, w))
  {
    var (a, b) := (Over(limit, w), Over(limit, Mul(w, s)));
    OverTimes(limit, w);
    OverTimes(limit, Mul(w, s));
    assert (a - s * b) * w == 0.0;
    assert a == s * b;
  }

  lemma CoversTurned(tw: real, th: real, w: real, h: real)
    requires Covers(tw, th, w, h)
    ensures Covers(th, tw, h, w)
  {}

  /** Where one side of the grown box starts: around the centre, then shifted into the image. */
  method Place(center: real, target: real, low: real, high: real, side: real) returns (start: real)
    requires 0.0 <= low < high <= side && center == (low + high) / 2.0 && high - low <= target <= side
    ensures start == Clamp(center - target / 2.0, side - target)
    ensures Centred(start, start + target, low, high, side)
    ensures 0.0 <= start <= low && high <= start + target <= side
  {
    start := center - target / 2.0;
    if start < 0.0 {
      start := 0.0;
    }
    if start + target > side {
      start := side - target;
    }
  }
}
