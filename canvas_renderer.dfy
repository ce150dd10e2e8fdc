/** The renderer: the math-to-screen transform, the grid-spacing ladder, the
    grid and tick positions, the pixel-column sampler with pen lifts, and the
    frame that composes them. Canvas output is modelled as the sequence of
    strokes and path commands the renderer issues. */
module CanvasRenderer {
  import opened Types
  import opened MathEval

  datatype Point = Point(x: real, y: real)

  /* ---------------------------------------------------------------------- */
  /* Coordinate transform                                                    */
  /* ---------------------------------------------------------------------- */

  /** `mathToScreen`: math coordinates to canvas pixels; math "up" is screen
      "up", so the y axis is flipped. */
  function MathToScreen(mathX: real, mathY: real, vp: Viewport, width: real, height: real): Point
  {
    Point((mathX - vp.centerX) * vp.scale + width / 2.0,
          -(mathY - vp.centerY) * vp.scale + height / 2.0)
  }

  /** The math x the sampler evaluates for pixel column `px`. */
  function ColumnToMathX(px: int, vp: Viewport, width: real): real
    requires vp.scale != 0.0
  {
    vp.centerX + ((px as real) - width / 2.0) / vp.scale
  }

  /** The viewport centre is drawn at the centre of the canvas. */
  lemma CenterMapsToCanvasCenter(vp: Viewport, width: real, height: real)
    ensures MathToScreen(vp.centerX, vp.centerY, vp, width, height) == Point(width / 2.0, height / 2.0)
  {
  }

  /** The sampler's column formula is the inverse of the transform's x part:
      the math x of column `px` is drawn at x = px. */
  lemma ColumnRoundTrip(px: int, y: real, vp: Viewport, width: real, height: real)
    requires vp.scale > 0.0
    ensures MathToScreen(ColumnToMathX(px, vp, width), y, vp, width, height).x == px as real
  {
    var d := (px as real) - width / 2.0;
    assert (d / vp.scale) * vp.scale == d;
  }

  /** The y axis is flipped: a larger math y is drawn strictly higher up,
      that is at a smaller screen y. */
  lemma ScreenYDecreasing(x: real, y1: real, y2: real, vp: Viewport, width: real, height: real)
    requires vp.scale > 0.0 && y1 < y2
    ensures MathToScreen(x, y2, vp, width, height).y < MathToScreen(x, y1, vp, width, height).y
  {
    var a1, a2 := y1 - vp.centerY, y2 - vp.centerY;
    MulStrictlyMonotone(a1, a2, vp.scale);
    NegMul(a1, vp.scale);
    NegMul(a2, vp.scale);
    assert MathToScreen(x, y1, vp, width, height).y == -(a1 * vp.scale) + height / 2.0;
    assert MathToScreen(x, y2, vp, width, height).y == -(a2 * vp.scale) + height / 2.0;
  }

  lemma NegMul(a: real, k: real)
    ensures (-a) * k == -(a * k)
  {
  }

  /** Multiplying by a positive factor keeps a strict order. */
  lemma MulStrictlyMonotone(a: real, b: real, k: real)
    requires k > 0.0 && a < b
    ensures a * k < b * k
  {
    assert b * k - a * k == (b - a) * k;
  }

  /** Comparing a quotient with k is comparing the dividend with k times the
      divisor. */
  lemma QuotientCompare(r: real, m: real, k: real)
    requires m > 0.0
    ensures r / m <= k <==> r <= k * m
    ensures r / m < k <==> r < k * m
  {
    var q := r / m;
    assert r == q * m;
    if q <= k { MulMonotone(q, k, m); } else { MulStrictlyMonotone(k, q, m); }
    if q < k { MulStrictlyMonotone(q, k, m); } else { MulMonotone(k, q, m); }
  }

  /** Multiplying by a positive factor keeps a weak order. */
  lemma MulMonotone(a: real, b: real, k: real)
    requires k > 0.0 && a <= b
    ensures a * k <= b * k
  {
    if a < b { MulStrictlyMonotone(a, b, k); }
  }

  /* ---------------------------------------------------------------------- */
  /* Grid spacing: the 1-2-5 ladder                                          */
  /* ---------------------------------------------------------------------- */

  /** 10 to the power n, for any integer n. */
  function Pow10(n: int): (r: real)
    ensures r > 0.0
    decreases if n < 0 then -n else n
  {
    if n == 0 then 1.0 else if n > 0 then 10.0 * Pow10(n - 1) else Pow10(n + 1) / 10.0
  }

  lemma Pow10Step(n: int)
    ensures Pow10(n + 1) == 10.0 * Pow10(n)
  {
  }

  /** Powers of ten grow strictly with the exponent. */
  lemma {:induction false} Pow10Increasing(a: int, b: int)
    requires a < b
    ensures Pow10(a) < Pow10(b)
    decreases b - a
  {
    Pow10Step(b - 1);
    if a < b - 1 {
      Pow10Increasing(a, b - 1);
    }
  }

  /** floor(log10(x)) for x >= 1, found by dividing by ten. */
  function MagnitudeAtLeastOne(x: real): (n: int)
    requires x >= 1.0
    ensures n >= 0 && Pow10(n) <= x < 10.0 * Pow10(n)
    decreases x.Floor
  {
    if x < 10.0 then 0
    else
      assert (x / 10.0).Floor < x.Floor by {
        assert (x / 10.0).Floor as real <= x / 10.0 < x - 1.0 < x.Floor as real;
      }
      var m := MagnitudeAtLeastOne(x / 10.0);
      Pow10Step(m);
      m + 1
  }

  /** floor(log10(x)) for 0 < x < 1, found by multiplying by ten. */
  function MagnitudeBelowOne(x: real): (n: int)
    requires 0.0 < x < 1.0
    ensures n < 0 && Pow10(n) <= x < 10.0 * Pow10(n)
    decreases (1.0 / x).Floor
  {
    if x >= 0.1 then
      assert Pow10(-1) == 0.1;
      -1
    else
      assert (1.0 / (10.0 * x)).Floor < (1.0 / x).Floor by {
        var y := 1.0 / x;
        assert y > 10.0;
        assert 1.0 / (10.0 * x) == y / 10.0;
        assert (y / 10.0).Floor as real <= y / 10.0 < y - 1.0 < y.Floor as real;
      }
      var m := MagnitudeBelowOne(10.0 * x);
      Pow10Step(m - 1);
      m - 1
  }

  /** `Math.floor(Math.log10(x))`: the exponent of the largest power of ten
      that is at most x. */
  function Magnitude(x: real): (n: int)
    requires x > 0.0
    ensures Pow10(n) <= x < 10.0 * Pow10(n)
  {
    if x >= 1.0 then MagnitudeAtLeastOne(x) else MagnitudeBelowOne(x)
  }

  /** The exponent bracketing x between 10^n and 10^(n+1) is unique, so
      `Magnitude` is the exponent the source computes with log10. */
  lemma MagnitudeUnique(x: real, n: int)
    requires Pow10(n) <= x < 10.0 * Pow10(n)
    ensures Magnitude(x) == n
  {
    var m := Magnitude(x);
    Pow10Step(m);
    Pow10Step(n);
    if m < n {
      Pow10Increasing(m + 1, n + 1);
      if m + 1 < n { Pow10Increasing(m + 1, n); }
    } else if n < m {
      if n + 1 < m { Pow10Increasing(n + 1, m); }
    }
  }

  /** A "nice" grid spacing: 1, 2 or 5 times a power of ten. */
  ghost predicate IsNice(s: real)
  {
    exists n: int :: s == Pow10(n) || s == 2.0 * Pow10(n) || s == 5.0 * Pow10(n)
  }

  /** `niceStep`: the smallest value of the ladder {1, 2, 5, 10} x 10^n that
      is at least `roughStep`, where 10^n <= roughStep < 10^(n+1). */
  function NiceStep(roughStep: real): (step: real)
    requires roughStep > 0.0
    ensures var m := Pow10(Magnitude(roughStep));
            step == m || step == 2.0 * m || step == 5.0 * m || step == 10.0 * m
    ensures roughStep <= step
    ensures var m := Pow10(Magnitude(roughStep));
            && (roughStep <= m ==> step <= m)
            && (roughStep <= 2.0 * m ==> step <= 2.0 * m)
            && (roughStep <= 5.0 * m ==> step <= 5.0 * m)
    ensures step < 2.5 * roughStep
  {
    var magnitude := Pow10(Magnitude(roughStep));
    var residual := roughStep / magnitude;
    QuotientCompare(roughStep, magnitude, 1.0);
    QuotientCompare(roughStep, magnitude, 2.0);
    QuotientCompare(roughStep, magnitude, 5.0);
    if residual <= 1.0 then magnitude
    else if residual <= 2.0 then 2.0 * magnitude
    else if residual <= 5.0 then 5.0 * magnitude
    else 10.0 * magnitude
  }

  /** Every spacing the ladder yields is 1, 2 or 5 times a power of ten. */
  lemma NiceStepIsNice(roughStep: real)
    requires roughStep > 0.0
    ensures IsNice(NiceStep(roughStep))
  {
    var n := Magnitude(roughStep);
    var s := NiceStep(roughStep);
    if s == 10.0 * Pow10(n) {
      Pow10Step(n);
      assert s == Pow10(n + 1);
    } else {
      assert s == Pow10(n) || s == 2.0 * Pow10(n) || s == 5.0 * Pow10(n);
    }
  }

  /** The pixel distance the grid aims for between adjacent lines. */
  const TARGET_PIXEL_SPACING: real := 80.0

  /** The math spacing of grid lines and ticks at a given scale. */
  function GridSpacing(scale: real): real
    requires scale > 0.0
  {
    NiceStep(TARGET_PIXEL_SPACING / scale)
  }

  /** Adjacent grid lines are between 80 and 200 pixels apart on screen,
      whatever the scale. */
  lemma GridSpacingOnScreen(scale: real, s: real)
    requires scale > 0.0 && s == GridSpacing(scale)
    ensures s > 0.0
    ensures TARGET_PIXEL_SPACING <= s * scale < 2.5 * TARGET_PIXEL_SPACING
  {
    var rough := TARGET_PIXEL_SPACING / scale;
    DivCancel(TARGET_PIXEL_SPACING, scale);
    ScaledBounds(rough, s, scale, TARGET_PIXEL_SPACING);
  }

  lemma DivCancel(a: real, k: real)
    requires k != 0.0
    ensures (a / k) * k == a
  {
  }

  lemma ScaledBounds(lo: real, s: real, k: real, t: real)
    requires k > 0.0 && lo <= s < 2.5 * lo && lo * k == t
    ensures t <= s * k < 2.5 * t
  {
    MulMonotone(lo, s, k);
    MulStrictlyMonotone(s, 2.5 * lo, k);
    assert (2.5 * lo) * k == 2.5 * (lo * k);
  }

  /** At the default scale of 50 the rough step is 1.6 and the spacing is 2. */
  lemma DefaultScaleSpacing()
    ensures GridSpacing(50.0) == 2.0
  {
    MagnitudeUnique(1.6, 0);
  }

  /* ---------------------------------------------------------------------- */
  /* Grid and tick positions                                                 */
  /* ---------------------------------------------------------------------- */

  /** The k-th multiple of the grid spacing. */
  function GridValue(k: int, spacing: real): real
  {
    (k as real) * spacing
  }

  lemma GridValueNext(k: int, spacing: real)
    ensures GridValue(k + 1, spacing) == GridValue(k, spacing) + spacing
  {
    assert ((k + 1) as real) * spacing == (k as real) * spacing + spacing;
  }

  /** Grid values grow strictly with their index. */
  lemma GridValueIncreasing(j: int, k: int, spacing: real)
    requires spacing > 0.0 && j < k
    ensures GridValue(j, spacing) < GridValue(k, spacing)
  {
    MulStrictlyMonotone(j as real, k as real, spacing);
  }

  /** A grid value at most `hi` has an index at most floor(hi / spacing). */
  lemma GridIndexBound(k: int, spacing: real, hi: real)
    requires spacing > 0.0
    ensures GridValue(k, spacing) <= hi <==> k <= (hi / spacing).Floor
  {
    QuotientCompare(hi, spacing, k as real);
    if GridValue(k, spacing) <= hi {
      if (k as real) < hi / spacing { } else { MulMonotone(hi / spacing, k as real, spacing); DivCancel(hi, spacing); }
    } else {
      if (k as real) <= hi / spacing { MulMonotone(k as real, hi / spacing, spacing); DivCancel(hi, spacing); }
    }
  }

  /** `Math.floor(lo / spacing)`: the index of the first grid value visited. */
  function FirstGridIndex(lo: real, spacing: real): int
    requires spacing > 0.0
  {
    (lo / spacing).Floor
  }

  /** The number of grid values from the first one up to `hi`. */
  function GridCount(lo: real, hi: real, spacing: real): nat
    requires spacing > 0.0
  {
    var last := (hi / spacing).Floor;
    var first := FirstGridIndex(lo, spacing);
    if last < first then 0 else last - first + 1
  }

  /** The values the grid and tick loops visit: floor(lo / spacing) * spacing
      and every following multiple of `spacing` that is at most `hi`. */
  function GridRun(lo: real, hi: real, spacing: real): (run: seq<real>)
    requires spacing > 0.0
    ensures |run| == GridCount(lo, hi, spacing)
  {
    var first := FirstGridIndex(lo, spacing);
    seq(GridCount(lo, hi, spacing), i => GridValue(first + i, spacing))
  }

  /** The grid starts at or before `lo` (less than one spacing before it),
      steps by exactly `spacing`, never passes `hi`, and stops at the last
      value that does not pass it. */
  lemma GridRunShape(lo: real, hi: real, spacing: real)
    requires spacing > 0.0
    ensures var run := GridRun(lo, hi, spacing);
            var first := GridValue(FirstGridIndex(lo, spacing), spacing);
            && first <= lo < first + spacing
            && (|run| > 0 ==> run[0] == first)
            && (forall i :: 0 <= i < |run| ==> run[i] <= hi)
            && (forall i :: 0 < i < |run| ==> run[i] == run[i - 1] + spacing)
            && GridValue(FirstGridIndex(lo, spacing) + |run|, spacing) > hi
  {
    var run := GridRun(lo, hi, spacing);
    var k0 := FirstGridIndex(lo, spacing);
    GridIndexBound(k0, spacing, lo);
    GridIndexBound(k0 + 1, spacing, lo);
    GridValueNext(k0, spacing);
    forall i | 0 <= i < |run| ensures run[i] <= hi {
      GridIndexBound(k0 + i, spacing, hi);
    }
    forall i | 0 < i < |run| ensures run[i] == run[i - 1] + spacing {
      GridValueNext(k0 + i - 1, spacing);
    }
    GridIndexBound(k0 + |run|, spacing, hi);
  }

  /** Every multiple of `spacing` between `lo` and `hi` is in the grid. */
  lemma GridRunComplete(lo: real, hi: real, spacing: real, k: int)
    requires spacing > 0.0 && lo <= GridValue(k, spacing) <= hi
    ensures GridValue(k, spacing) in GridRun(lo, hi, spacing)
  {
    var k0 := FirstGridIndex(lo, spacing);
    GridIndexBound(k, spacing, hi);
    if k < k0 {
      GridIndexBound(k0, spacing, lo);
      GridValueIncreasing(k, k0, spacing);
      GridValueNext(k, spacing);
      if k + 1 < k0 { GridValueIncreasing(k + 1, k0, spacing); }
      GridIndexBound(k + 1, spacing, lo);
      assert false;
    }
    assert GridRun(lo, hi, spacing)[k - k0] == GridValue(k, spacing);
  }

  /** The `for (mx = startX; mx <= right; mx += mathSpacing)` loop shared by
      the grid and the axes: it visits exactly `GridRun`. */
  method GridPositions(lo: real, hi: real, spacing: real) returns (run: seq<real>)
    requires spacing > 0.0
    ensures run == GridRun(lo, hi, spacing)
  {
    var first := FirstGridIndex(lo, spacing);
    var mx := (first as real) * spacing;
    run := [];
    while mx <= hi
      invariant |run| <= GridCount(lo, hi, spacing)
      invariant mx == GridValue(first + |run|, spacing)
      invariant run == GridRun(lo, hi, spacing)[..|run|]
      decreases GridCount(lo, hi, spacing) - |run|
    {
      GridIndexBound(first + |run|, spacing, hi);
      GridValueNext(first + |run|, spacing);
      run := run + [mx];
      mx := mx + spacing;
    }
    GridIndexBound(first + |run|, spacing, hi);
  }

  function Abs(x: real): real
  {
    if x < 0.0 then -x else x
  }

  /** A grid value this close to zero gets no tick and no label. */
  predicate NearOrigin(v: real, spacing: real)
  {
    Abs(v) < spacing * 0.01
  }

  /** The values of `run` that get a tick, in order. */
  function SkipOrigin(run: seq<real>, spacing: real): seq<real>
  {
    if run == [] then []
    else
      var last := run[|run| - 1];
      SkipOrigin(run[..|run| - 1], spacing) + (if NearOrigin(last, spacing) then [] else [last])
  }

  /** A value gets a tick exactly when it is a grid value away from the origin. */
  lemma {:induction false} SkipOriginMembers(run: seq<real>, spacing: real, v: real)
    ensures v in SkipOrigin(run, spacing) <==> v in run && !NearOrigin(v, spacing)
  {
    if run != [] {
      var init := run[..|run| - 1];
      SkipOriginMembers(init, spacing, v);
      assert run == init + [run[|run| - 1]];
    }
  }

  /** Over exact arithmetic the only grid value near the origin is 0 itself. */
  lemma NearOriginOnlyZero(k: int, spacing: real)
    requires spacing > 0.0
    ensures NearOrigin(GridValue(k, spacing), spacing) <==> k == 0
  {
    if k >= 1 {
      MulMonotone(1.0, k as real, spacing);
    } else if k <= -1 {
      MulMonotone(k as real, -1.0, spacing);
    }
  }

  /** A sequence of grid values with distinct indices holds at most one
      value near the origin, so the ticks skip at most one grid line. */
  lemma {:induction false} SkipOriginDropsAtMostOne(lo: real, hi: real, spacing: real)
    requires spacing > 0.0
    ensures |GridRun(lo, hi, spacing)| - 1 <= |SkipOrigin(GridRun(lo, hi, spacing), spacing)|
  {
    var run := GridRun(lo, hi, spacing);
    var k0 := FirstGridIndex(lo, spacing);
    forall i | 0 <= i < |run| ensures NearOrigin(run[i], spacing) <==> i == -k0 {
      NearOriginOnlyZero(k0 + i, spacing);
    }
    SkipOriginLength(run, spacing, -k0);
  }

  lemma {:induction false} SkipOriginLength(run: seq<real>, spacing: real, z: int)
    requires forall i :: 0 <= i < |run| ==> (NearOrigin(run[i], spacing) <==> i == z)
    ensures |SkipOrigin(run, spacing)| >= |run| - 1
    ensures z < 0 || z >= |run| ==> |SkipOrigin(run, spacing)| == |run|
  {
    if run != [] {
      var init := run[..|run| - 1];
      SkipOriginLength(init, spacing, z);
    }
  }

  /** The tick loops of `drawAxes`: the grid loop with the values near the
      origin skipped. */
  method TickPositions(lo: real, hi: real, spacing: real) returns (ticks: seq<real>)
    requires spacing > 0.0
    ensures ticks == SkipOrigin(GridRun(lo, hi, spacing), spacing)
  {
    var first := FirstGridIndex(lo, spacing);
    var mx := (first as real) * spacing;
    ticks := [];
    ghost var n := 0;
    while mx <= hi
      invariant n <= GridCount(lo, hi, spacing)
      invariant mx == GridValue(first + n, spacing)
      invariant ticks == SkipOrigin(GridRun(lo, hi, spacing)[..n], spacing)
      decreases GridCount(lo, hi, spacing) - n
    {
      GridIndexBound(first + n, spacing, hi);
      GridValueNext(first + n, spacing);
      ghost var run := GridRun(lo, hi, spacing);
      assert run[..n + 1][..n] == run[..n];
      if !(Abs(mx) < spacing * 0.01) {
        ticks := ticks + [mx];
      }
      mx := mx + spacing;
      n := n + 1;
    }
    GridIndexBound(first + n, spacing, hi);
    assert GridRun(lo, hi, spacing)[..n] == GridRun(lo, hi, spacing);
  }

  /* ---------------------------------------------------------------------- */
  /* Grid and axes layers                                                    */
  /* ---------------------------------------------------------------------- */

  /** A straight line the renderer strokes, in screen pixels. */
  datatype Stroke = Stroke(from: Point, to: Point)

  /* The visible math extent of the canvas: each bound is the math
     coordinate that lands on the matching canvas edge. */

  function Left(vp: Viewport, width: real): (l: real)
    requires vp.scale != 0.0
    ensures MathToScreen(l, vp.centerY, vp, width, 0.0).x == 0.0
  {
    DivCancel(width / 2.0, vp.scale);
    vp.centerX - width / 2.0 / vp.scale
  }

  function Right(vp: Viewport, width: real): (r: real)
    requires vp.scale != 0.0
    ensures MathToScreen(r, vp.centerY, vp, width, 0.0).x == width
  {
    DivCancel(width / 2.0, vp.scale);
    vp.centerX + width / 2.0 / vp.scale
  }

  function Top(vp: Viewport, height: real): (t: real)
    requires vp.scale != 0.0
    ensures MathToScreen(vp.centerX, t, vp, 0.0, height).y == 0.0
  {
    DivCancel(height / 2.0, vp.scale);
    vp.centerY + height / 2.0 / vp.scale
  }

  function Bottom(vp: Viewport, height: real): (b: real)
    requires vp.scale != 0.0
    ensures MathToScreen(vp.centerX, b, vp, 0.0, height).y == height
  {
    DivCancel(height / 2.0, vp.scale);
    vp.centerY - height / 2.0 / vp.scale
  }

  /** A full-height vertical line at screen x. */
  function VerticalLine(sx: real, height: real): Stroke
  {
    Stroke(Point(sx, 0.0), Point(sx, height))
  }

  /** A full-width horizontal line at screen y. */
  function HorizontalLine(sy: real, width: real): Stroke
  {
    Stroke(Point(0.0, sy), Point(width, sy))
  }

  /** The grid layer: one vertical line per x grid value, then one horizontal
      line per y grid value. */
  datatype GridLayer = GridLayer(spacing: real, xs: seq<real>, ys: seq<real>, strokes: seq<Stroke>)

  /** `drawGrid`: the spacing comes from the ladder at 80 pixels; vertical
      lines at every x grid value of the visible extent, horizontal lines at
      every y grid value. */
  method DrawGrid(vp: Viewport, width: real, height: real) returns (grid: GridLayer)
    requires vp.scale > 0.0
    ensures IsGridLayer(grid, vp, width, height)
  {
    var spacing := GridSpacing(vp.scale);
    var xs := GridPositions(Left(vp, width), Right(vp, width), spacing);
    var ys := GridPositions(Bottom(vp, height), Top(vp, height), spacing);
    var vertical := seq(|xs|, i requires 0 <= i < |xs| =>
      VerticalLine(MathToScreen(xs[i], 0.0, vp, width, height).x, height));
    var horizontal := seq(|ys|, j requires 0 <= j < |ys| =>
      HorizontalLine(MathToScreen(0.0, ys[j], vp, width, height).y, width));
    grid := GridLayer(spacing, xs, ys, vertical + horizontal);
  }

  /** On screen the vertical grid lines of any spacing are evenly spaced,
      spacing * scale pixels apart, the first at or left of the canvas's left
      edge and none right of its right edge. */
  lemma VerticalGridOnScreen(vp: Viewport, width: real, height: real, spacing: real, i: int)
    requires vp.scale > 0.0 && spacing > 0.0
    requires 0 <= i < |GridRun(Left(vp, width), Right(vp, width), spacing)|
    ensures var xs := GridRun(Left(vp, width), Right(vp, width), spacing);
            && MathToScreen(xs[i], 0.0, vp, width, height).x <= width
            && (i == 0 ==> MathToScreen(xs[i], 0.0, vp, width, height).x <= 0.0)
            && (i > 0 ==> MathToScreen(xs[i], 0.0, vp, width, height).x
                          == MathToScreen(xs[i - 1], 0.0, vp, width, height).x + spacing * vp.scale)
  {
    var lo, hi := Left(vp, width), Right(vp, width);
    var xs := GridRun(lo, hi, spacing);
    GridRunShape(lo, hi, spacing);
    ScreenXOfExtent(vp, width, height, xs[i], hi);
    if i == 0 {
      ScreenXOfExtent(vp, width, height, xs[0], lo);
    } else {
      assert xs[i] == xs[i - 1] + spacing;
      assert (xs[i] - vp.centerX) * vp.scale == (xs[i - 1] - vp.centerX) * vp.scale + spacing * vp.scale;
    }
  }

  /** Screen x is monotone in math x, and the extent's edges land on the
      canvas edges. */
  lemma ScreenXOfExtent(vp: Viewport, width: real, height: real, x: real, edge: real)
    requires vp.scale > 0.0 && x <= edge
    requires edge == Left(vp, width) || edge == Right(vp, width)
    ensures edge == Left(vp, width) ==> MathToScreen(x, 0.0, vp, width, height).x <= 0.0
    ensures edge == Right(vp, width) ==> MathToScreen(x, 0.0, vp, width, height).x <= width
  {
    MulMonotone(x - vp.centerX, edge - vp.centerX, vp.scale);
    DivCancel(width / 2.0, vp.scale);
    if edge == Left(vp, width) {
      assert (edge - vp.centerX) * vp.scale == -(width / 2.0);
    }
    if edge == Right(vp, width) {
      assert (edge - vp.centerX) * vp.scale == width / 2.0;
    }
  }

  /** `drawAxes`'s visibility rule for the x axis: the origin's screen y is
      on the canvas. */
  predicate XAxisVisible(vp: Viewport, width: real, height: real)
  {
    var origin := MathToScreen(0.0, 0.0, vp, width, height);
    0.0 <= origin.y <= height
  }

  /** The rule for the y axis: the origin's screen x is on the canvas. */
  predicate YAxisVisible(vp: Viewport, width: real, height: real)
  {
    var origin := MathToScreen(0.0, 0.0, vp, width, height);
    0.0 <= origin.x <= width
  }

  /** The x axis is drawn exactly when y = 0 lies in the visible math extent. */
  lemma XAxisVisibleIffInExtent(vp: Viewport, width: real, height: real)
    requires vp.scale > 0.0
    ensures XAxisVisible(vp, width, height) <==> Bottom(vp, height) <= 0.0 <= Top(vp, height)
  {
    var h2 := height / 2.0;
    DivCancel(h2, vp.scale);
    var oy := MathToScreen(0.0, 0.0, vp, width, height).y;
    assert oy == vp.centerY * vp.scale + h2;
    QuotientCompare(-vp.centerY * vp.scale, vp.scale, h2 / vp.scale);
    assert (-vp.centerY * vp.scale) / vp.scale == -vp.centerY;
    QuotientCompare(vp.centerY * vp.scale, vp.scale, h2 / vp.scale);
    assert (vp.centerY * vp.scale) / vp.scale == vp.centerY;
  }

  /** The y axis is drawn exactly when x = 0 lies in the visible math extent. */
  lemma YAxisVisibleIffInExtent(vp: Viewport, width: real, height: real)
    requires vp.scale > 0.0
    ensures YAxisVisible(vp, width, height) <==> Left(vp, width) <= 0.0 <= Right(vp, width)
  {
    var w2 := width / 2.0;
    DivCancel(w2, vp.scale);
    var ox := MathToScreen(0.0, 0.0, vp, width, height).x;
    assert ox == -vp.centerX * vp.scale + w2;
    QuotientCompare(-vp.centerX * vp.scale, vp.scale, w2 / vp.scale);
    assert (-vp.centerX * vp.scale) / vp.scale == -vp.centerX;
    QuotientCompare(vp.centerX * vp.scale, vp.scale, w2 / vp.scale);
    assert (vp.centerX * vp.scale) / vp.scale == vp.centerX;
  }

  function Min(a: real, b: real): real { if a <= b then a else b }
  function Max(a: real, b: real): real { if a >= b then a else b }

  /** Half the length of a tick mark, in pixels. */
  const TICK_SIZE: real := 5.0

  /** The screen row of the x-axis ticks: the axis itself, clamped to stay
      on the canvas and 20 pixels clear of its bottom edge. */
  function TickRow(originY: real, height: real): real
  {
    Max(0.0, Min(height - 20.0, originY))
  }

  /** The screen column of the y-axis ticks: the axis itself, clamped to the
      canvas and 30 pixels clear of its left edge. */
  function TickColumn(originX: real, width: real): real
  {
    Max(30.0, Min(width, originX))
  }

  /** On a canvas at least 20 pixels high, the tick row never leaves the
      canvas, and it is the axis itself while the axis is at least 20 pixels
      above the bottom edge. */
  lemma TickRowOnCanvas(originY: real, height: real)
    requires height >= 20.0
    ensures 0.0 <= TickRow(originY, height) <= height - 20.0
    ensures 0.0 <= originY <= height - 20.0 ==> TickRow(originY, height) == originY
  {
  }

  /** On a canvas at least 30 pixels wide, the tick column never leaves the
      canvas, and it is the axis itself while the axis is at least 30 pixels
      right of the left edge. */
  lemma TickColumnOnCanvas(originX: real, width: real)
    requires width >= 30.0
    ensures 30.0 <= TickColumn(originX, width) <= width
    ensures 30.0 <= originX <= width ==> TickColumn(originX, width) == originX
  {
  }

  /** On a narrower or lower canvas the clamps pin the ticks: the x ticks to
      the top edge, and the y ticks to x = 30, right of a canvas narrower
      than 30 pixels. */
  lemma TicksOnSmallCanvas(originX: real, originY: real, width: real, height: real)
    ensures height < 20.0 ==> TickRow(originY, height) == 0.0
    ensures width < 30.0 ==> TickColumn(originX, width) == 30.0 > width
  {
  }

  /** A tick: its grid value (the label's number), the mark, and the point
      the label is drawn at. */
  datatype Tick = Tick(value: real, mark: Stroke, labelAt: Point)

  /** The tick for grid value `v` on the x axis. */
  function XTick(v: real, vp: Viewport, width: real, height: real): (t: Tick)
    ensures t.value == v
    ensures t.mark.from.x == t.mark.to.x == MathToScreen(v, 0.0, vp, width, height).x
    ensures t.mark.to.y - t.mark.from.y == 2.0 * TICK_SIZE
    ensures t.mark.from.y + TICK_SIZE == TickRow(MathToScreen(0.0, 0.0, vp, width, height).y, height)
    ensures t.labelAt == Point(t.mark.to.x, t.mark.to.y + 2.0)
  {
    var sx := MathToScreen(v, 0.0, vp, width, height).x;
    var ty := TickRow(MathToScreen(0.0, 0.0, vp, width, height).y, height);
    Tick(v, Stroke(Point(sx, ty - TICK_SIZE), Point(sx, ty + TICK_SIZE)), Point(sx, ty + TICK_SIZE + 2.0))
  }

  /** The tick for grid value `v` on the y axis. */
  function YTick(v: real, vp: Viewport, width: real, height: real): (t: Tick)
    ensures t.value == v
    ensures t.mark.from.y == t.mark.to.y == MathToScreen(0.0, v, vp, width, height).y
    ensures t.mark.to.x - t.mark.from.x == 2.0 * TICK_SIZE
    ensures t.mark.from.x + TICK_SIZE == TickColumn(MathToScreen(0.0, 0.0, vp, width, height).x, width)
    ensures t.labelAt == Point(t.mark.from.x - 3.0, t.mark.from.y)
  {
    var sy := MathToScreen(0.0, v, vp, width, height).y;
    var tx := TickColumn(MathToScreen(0.0, 0.0, vp, width, height).x, width);
    Tick(v, Stroke(Point(tx - TICK_SIZE, sy), Point(tx + TICK_SIZE, sy)), Point(tx - TICK_SIZE - 3.0, sy))
  }

  /** The axes layer: the axis lines that are on the canvas, then the ticks. */
  datatype AxesLayer = AxesLayer(lines: seq<Stroke>, xTicks: seq<Tick>, yTicks: seq<Tick>)

  /** What `drawAxes` draws for a viewport and canvas size. */
  ghost predicate IsAxesLayer(axes: AxesLayer, vp: Viewport, width: real, height: real, spacing: real)
    requires vp.scale > 0.0 && spacing > 0.0
  {
    var origin := MathToScreen(0.0, 0.0, vp, width, height);
    var xv := SkipOrigin(GridRun(Left(vp, width), Right(vp, width), spacing), spacing);
    var yv := SkipOrigin(GridRun(Bottom(vp, height), Top(vp, height), spacing), spacing);
    && axes.lines == (if XAxisVisible(vp, width, height) then [HorizontalLine(origin.y, width)] else [])
                   + (if YAxisVisible(vp, width, height) then [VerticalLine(origin.x, height)] else [])
    && |axes.xTicks| == |xv|
    && (forall i :: 0 <= i < |xv| ==> axes.xTicks[i] == XTick(xv[i], vp, width, height))
    && |axes.yTicks| == |yv|
    && (forall i :: 0 <= i < |yv| ==> axes.yTicks[i] == YTick(yv[i], vp, width, height))
  }

  /** `drawAxes`: the x axis when the origin's screen y is on the canvas, the
      y axis when its screen x is, and a labelled tick at every grid value
      except the one at the origin. */
  method DrawAxes(vp: Viewport, width: real, height: real, spacing: real) returns (axes: AxesLayer)
    requires vp.scale > 0.0 && spacing == GridSpacing(vp.scale)
    ensures spacing > 0.0 && IsAxesLayer(axes, vp, width, height, spacing)
  {
    var origin := MathToScreen(0.0, 0.0, vp, width, height);
    var lines: seq<Stroke> := [];
    if origin.y >= 0.0 && origin.y <= height {
      lines := lines + [HorizontalLine(origin.y, width)];
    }
    if origin.x >= 0.0 && origin.x <= width {
      lines := lines + [VerticalLine(origin.x, height)];
    }
    var xv := TickPositions(Left(vp, width), Right(vp, width), spacing);
    var yv := TickPositions(Bottom(vp, height), Top(vp, height), spacing);
    var xTicks := seq(|xv|, i requires 0 <= i < |xv| => XTick(xv[i], vp, width, height));
    var yTicks := seq(|yv|, i requires 0 <= i < |yv| => YTick(yv[i], vp, width, height));
    axes := AxesLayer(lines, xTicks, yTicks);
  }

  /** Every x tick is at a grid value that is not the origin, and every such
      grid value has a tick. */
  lemma XTicksAreGridWithoutOrigin(vp: Viewport, width: real, height: real, spacing: real,
                                   axes: AxesLayer, v: real)
    requires vp.scale > 0.0 && spacing > 0.0 && IsAxesLayer(axes, vp, width, height, spacing)
    ensures (exists i :: 0 <= i < |axes.xTicks| && axes.xTicks[i].value == v)
            <==> v in GridRun(Left(vp, width), Right(vp, width), spacing) && !NearOrigin(v, spacing)
  {
    var xv := SkipOrigin(GridRun(Left(vp, width), Right(vp, width), spacing), spacing);
    SkipOriginMembers(GridRun(Left(vp, width), Right(vp, width), spacing), spacing, v);
    if v in xv {
      var i :| 0 <= i < |xv| && xv[i] == v;
      assert axes.xTicks[i].value == v;
    }
  }

  /** Every y tick is at a grid value that is not the origin, and every such
      grid value has a tick. */
  lemma YTicksAreGridWithoutOrigin(vp: Viewport, width: real, height: real, spacing: real,
                                   axes: AxesLayer, v: real)
    requires vp.scale > 0.0 && spacing > 0.0 && IsAxesLayer(axes, vp, width, height, spacing)
    ensures (exists i :: 0 <= i < |axes.yTicks| && axes.yTicks[i].value == v)
            <==> v in GridRun(Bottom(vp, height), Top(vp, height), spacing) && !NearOrigin(v, spacing)
  {
    var yv := SkipOrigin(GridRun(Bottom(vp, height), Top(vp, height), spacing), spacing);
    SkipOriginMembers(GridRun(Bottom(vp, height), Top(vp, height), spacing), spacing, v);
    if v in yv {
      var i :| 0 <= i < |yv| && yv[i] == v;
      assert axes.yTicks[i].value == v;
    }
  }

  /* ---------------------------------------------------------------------- */
  /* Function sampler                                                        */
  /* ---------------------------------------------------------------------- */

  /** A path command issued to the canvas. */
  datatype PathOp = MoveTo(at: Point) | LineTo(at: Point)

  /** The number of pixel columns the sampler visits: the integers px >= 0
      with px < width. */
  function ColumnCount(width: real): nat
  {
    if width <= 0.0 then 0 else -((-width).Floor)
  }

  lemma ColumnCountIsCeiling(width: real, px: int)
    requires px >= 0
    ensures (px as real) < width <==> px < ColumnCount(width)
  {
  }

  /** What the sampler gets at column px: the screen y of the evaluated
      point, or None where the evaluation adapter returned NaN. */
  function ColumnSample(fn: Evaluator, vp: Viewport, width: real, height: real, px: int): (r: Option<real>)
    requires vp.scale != 0.0
    ensures r.None? <==> SafeEvaluate(fn, ColumnToMathX(px, vp, width)).NaN?
  {
    var mathX := ColumnToMathX(px, vp, width);
    match SafeEvaluate(fn, mathX)
    case Finite(y) => Some(MathToScreen(mathX, y, vp, width, height).y)
    case _ => None
  }

  /** The samples of all columns, left to right. */
  function Samples(fn: Evaluator, vp: Viewport, width: real, height: real): (samples: seq<Option<real>>)
    requires vp.scale != 0.0
    ensures |samples| == ColumnCount(width)
  {
    seq(ColumnCount(width), px => ColumnSample(fn, vp, width, height, px))
  }

  /** The columns with a defined sample, in increasing order. */
  function DefinedColumns(samples: seq<Option<real>>): (cols: seq<int>)
    ensures |cols| <= |samples|
    ensures forall k :: 0 <= k < |cols| ==> k <= cols[k] < |samples| && samples[cols[k]].Some?
  {
    if samples == [] then []
    else
      var init := samples[..|samples| - 1];
      assert forall c :: 0 <= c < |init| ==> init[c] == samples[c];
      DefinedColumns(init) + (if samples[|samples| - 1].Some? then [|samples| - 1] else [])
  }

  /** The defined columns are listed in strictly increasing order. */
  lemma {:induction false} DefinedColumnsIncreasing(samples: seq<Option<real>>, j: int, k: int)
    requires 0 <= j < k < |DefinedColumns(samples)|
    ensures DefinedColumns(samples)[j] < DefinedColumns(samples)[k]
  {
    var init := samples[..|samples| - 1];
    var cols := DefinedColumns(init);
    if k < |cols| {
      DefinedColumnsIncreasing(init, j, k);
    }
  }

  /** Every defined column is listed. */
  lemma {:induction false} DefinedColumnsComplete(samples: seq<Option<real>>, c: int)
    requires 0 <= c < |samples| && samples[c].Some?
    ensures c in DefinedColumns(samples)
  {
    var init := samples[..|samples| - 1];
    if c < |init| {
      DefinedColumnsComplete(init, c);
    }
  }

  /** The sampler's output for the given samples: one point per defined
      column, in column order, at (column, sample). A point starts a new
      segment (MoveTo) exactly when it is the first point, when the column
      before it was undefined, or when it jumps more than the canvas height
      from the previous point; otherwise it extends the segment (LineTo). */
  ghost predicate IsPlot(path: seq<PathOp>, samples: seq<Option<real>>, height: real)
  {
    PointsOnColumns(path, samples) && SegmentStarts(path, samples, height)
  }

  /** One point per defined column, in column order, at (column, sample). */
  ghost predicate PointsOnColumns(path: seq<PathOp>, samples: seq<Option<real>>)
  {
    var cols := DefinedColumns(samples);
    && |path| == |cols|
    && (forall k :: 0 <= k < |path| ==> path[k].at == Point(cols[k] as real, samples[cols[k]].value))
  }

  /** The first point starts a segment; a later point starts one exactly
      when the column before it is undefined or it jumps more than the
      canvas height from the previous point. */
  ghost predicate SegmentStarts(path: seq<PathOp>, samples: seq<Option<real>>, height: real)
  {
    var cols := DefinedColumns(samples);
    && |path| == |cols|
    && (0 < |path| ==> path[0].MoveTo?)
    && (forall k {:trigger path[k]} :: 0 < k < |path| ==>
          (path[k].MoveTo? <==>
             samples[cols[k] - 1].None? || Abs(path[k].at.y - path[k - 1].at.y) > height))
  }

  /** Appending a column extends the defined columns by that column when
      its sample is defined. */
  lemma DefinedColumnsAppend(samples: seq<Option<real>>, x: Option<real>)
    ensures DefinedColumns(samples + [x]) == DefinedColumns(samples) + (if x.Some? then [|samples|] else [])
  {
    assert (samples + [x])[..|samples|] == samples;
  }

  /** One instance of the segment-start rule. */
  lemma SegmentStartAt(path: seq<PathOp>, samples: seq<Option<real>>, height: real, k: int)
    requires SegmentStarts(path, samples, height) && 0 < k < |path|
    ensures var cols := DefinedColumns(samples);
            path[k].MoveTo? <==> samples[cols[k] - 1].None? || Abs(path[k].at.y - path[k - 1].at.y) > height
  {
  }

  /** An undefined column adds no point. */
  lemma AppendUndefinedPoints(path: seq<PathOp>, all: seq<Option<real>>, n: int)
    requires 0 <= n < |all| && all[n].None?
    requires PointsOnColumns(path, all[..n])
    ensures PointsOnColumns(path, all[..n + 1])
  {
    var samples, s' := all[..n], all[..n + 1];
    assert s' == samples + [None];
    DefinedColumnsAppend(samples, None);
    var cols := DefinedColumns(samples);
    assert DefinedColumns(s') == cols + [] == cols;
    forall k | 0 <= k < |path|
      ensures path[k].at == Point(cols[k] as real, s'[cols[k]].value)
    {
      assert s'[cols[k]] == samples[cols[k]];
    }
  }

  /** An undefined column changes no segment start. */
  lemma AppendUndefinedStarts(path: seq<PathOp>, all: seq<Option<real>>, n: int, height: real)
    requires 0 <= n < |all| && all[n].None?
    requires SegmentStarts(path, all[..n], height)
    ensures SegmentStarts(path, all[..n + 1], height)
  {
    var samples, s' := all[..n], all[..n + 1];
    assert s' == samples + [None];
    DefinedColumnsAppend(samples, None);
    var cols := DefinedColumns(samples);
    assert DefinedColumns(s') == cols + [] == cols;
    forall k | 0 < k < |path|
      ensures path[k].MoveTo? <==>
                s'[cols[k] - 1].None? || Abs(path[k].at.y - path[k - 1].at.y) > height
    {
      SegmentStartAt(path, samples, height, k);
      assert s'[cols[k] - 1] == samples[cols[k] - 1];
    }
  }

  /** A defined column adds one point at (column, sample). */
  lemma AppendDefinedPoints(path: seq<PathOp>, all: seq<Option<real>>, n: int, op: PathOp)
    requires 0 <= n < |all| && all[n].Some?
    requires PointsOnColumns(path, all[..n])
    requires op.at == Point(n as real, all[n].value)
    ensures PointsOnColumns(path + [op], all[..n + 1])
  {
    var samples, s' := all[..n], all[..n + 1];
    assert s' == samples + [all[n]];
    DefinedColumnsAppend(samples, all[n]);
    var path' := path + [op];
    var cols, cols' := DefinedColumns(samples), DefinedColumns(s');
    assert cols' == cols + [n];
    forall k | 0 <= k < |path'|
      ensures path'[k].at == Point(cols'[k] as real, s'[cols'[k]].value)
    {
      if k < |path| {
        assert path'[k] == path[k] && cols'[k] == cols[k] && s'[cols[k]] == samples[cols[k]];
      }
    }
  }

  /** The new point starts a segment exactly when `move` says so: nothing
      drawn yet, the previous column undefined, or a jump taller than the
      canvas. */
  lemma AppendDefinedStarts(path: seq<PathOp>, all: seq<Option<real>>, n: int, height: real, move: bool)
    requires 0 <= n < |all| && all[n].Some?
    requires SegmentStarts(path, all[..n], height)
    requires move <==> |path| == 0 || all[n - 1].None? || Abs(all[n].value - path[|path| - 1].at.y) > height
    ensures var p := Point(n as real, all[n].value);
            SegmentStarts(path + [if move then MoveTo(p) else LineTo(p)], all[..n + 1], height)
  {
    var samples, s' := all[..n], all[..n + 1];
    assert s' == samples + [all[n]];
    DefinedColumnsAppend(samples, all[n]);
    var p := Point(n as real, all[n].value);
    var op := if move then MoveTo(p) else LineTo(p);
    var path' := path + [op];
    var cols, cols' := DefinedColumns(samples), DefinedColumns(s');
    assert cols' == cols + [n];
    forall k | 0 < k < |path'|
      ensures path'[k].MoveTo? <==>
                s'[cols'[k] - 1].None? || Abs(path'[k].at.y - path'[k - 1].at.y) > height
    {
      if k < |path| {
        assert path'[k] == path[k] && path'[k - 1] == path[k - 1] && cols'[k] == cols[k];
        SegmentStartAt(path, samples, height, k);
        assert s'[cols[k] - 1] == samples[cols[k] - 1];
      } else {
        assert path'[k] == op && cols'[k] == n && path'[k - 1] == path[|path| - 1];
        assert s'[n - 1] == samples[n - 1];
      }
    }
  }

  /** The path the sampler draws for the first n column samples: a defined
      column adds a point at (column, sample); it starts a new segment when
      nothing is drawn yet, when the previous column is undefined, or when
      the jump from the previous point is taller than the canvas. */
  function PlotUpTo(samples: seq<Option<real>>, n: int, height: real): (path: seq<PathOp>)
    requires 0 <= n <= |samples|
    ensures |path| <= n
    decreases n
  {
    if n == 0 then []
    else
      var i := n - 1;
      var prev := PlotUpTo(samples, i, height);
      match samples[i]
      case None => prev
      case Some(y) =>
        var p := Point(i as real, y);
        var move := prev == [] || samples[i - 1].None? || Abs(y - prev[|prev| - 1].at.y) > height;
        prev + [if move then MoveTo(p) else LineTo(p)]
  }

  /** The path the sampler draws for all column samples. */
  function Plot(samples: seq<Option<real>>, height: real): (path: seq<PathOp>)
    ensures |path| <= |samples|
  {
    PlotUpTo(samples, |samples|, height)
  }

  /** Plotting one more column keeps the plot's characterisation. */
  lemma PlotStep(all: seq<Option<real>>, i: int, height: real)
    requires 0 <= i < |all| && IsPlot(PlotUpTo(all, i, height), all[..i], height)
    ensures IsPlot(PlotUpTo(all, i + 1, height), all[..i + 1], height)
  {
    var prev := PlotUpTo(all, i, height);
    if all[i].None? {
      assert PlotUpTo(all, i + 1, height) == prev;
      AppendUndefinedPoints(prev, all, i);
      AppendUndefinedStarts(prev, all, i, height);
    } else {
      var p := Point(i as real, all[i].value);
      var move := prev == [] || all[i - 1].None? || Abs(all[i].value - prev[|prev| - 1].at.y) > height;
      var op := if move then MoveTo(p) else LineTo(p);
      assert PlotUpTo(all, i + 1, height) == prev + [op];
      AppendDefinedPoints(prev, all, i, op);
      AppendDefinedStarts(prev, all, i, height, move);
    }
  }

  lemma {:induction false} PlotUpToIsPlot(all: seq<Option<real>>, n: int, height: real)
    requires 0 <= n <= |all|
    ensures IsPlot(PlotUpTo(all, n, height), all[..n], height)
    decreases n
  {
    if n == 0 {
      assert all[..n] == [];
    } else {
      PlotUpToIsPlot(all, n - 1, height);
      PlotStep(all, n - 1, height);
    }
  }

  /** `Plot` draws exactly the plot `IsPlot` describes. */
  lemma PlotIsPlot(samples: seq<Option<real>>, height: real)
    ensures IsPlot(Plot(samples, height), samples, height)
  {
    PlotUpToIsPlot(samples, |samples|, height);
    assert samples[..|samples|] == samples;
  }

  /** Column px of the samples, for a column inside the canvas. */
  lemma SampleAt(fn: Evaluator, vp: Viewport, width: real, height: real, px: int)
    requires vp.scale > 0.0 && 0 <= px && (px as real) < width
    ensures var samples := Samples(fn, vp, width, height);
            var mathX := ColumnToMathX(px, vp, width);
            var mathY := SafeEvaluate(fn, mathX);
            && px < |samples|
            && samples[px] == if mathY.NaN? then None else Some(MathToScreen(mathX, mathY.value, vp, width, height).y)
  {
    ColumnCountIsCeiling(width, px);
  }

  /** The sampler's pen state decides the next point as `PlotUpTo` does:
      the pen is up exactly when nothing is drawn yet or the previous column
      is undefined, and when it is down it rests on the last point drawn. */
  lemma PenStep(samples: seq<Option<real>>, n: int, height: real, penDown: bool, lastY: real)
    requires 0 <= n < |samples| && samples[n].Some?
    requires penDown <==> n > 0 && samples[n - 1].Some?
    requires var prev := PlotUpTo(samples, n, height);
             penDown ==> |prev| > 0 && lastY == prev[|prev| - 1].at.y
    ensures var p := Point(n as real, samples[n].value);
            var move := !penDown || Abs(samples[n].value - lastY) > height;
            PlotUpTo(samples, n + 1, height) == PlotUpTo(samples, n, height) + [if move then MoveTo(p) else LineTo(p)]
  {
  }

  /** `drawFunction`: walk the pixel columns left to right, evaluate the
      function at each column's math x, lift the pen on NaN and on jumps
      taller than the canvas, and otherwise continue the line. */
  method DrawFunction(fn: Evaluator, vp: Viewport, width: real, height: real) returns (path: seq<PathOp>)
    requires vp.scale > 0.0
    ensures path == Plot(Samples(fn, vp, width, height), height)
  {
    ghost var samples := Samples(fn, vp, width, height);
    var penDown := false;
    var lastY := 0.0;
    path := [];
    var px: int := 0;
    while (px as real) < width
      invariant 0 <= px <= |samples|
      invariant path == PlotUpTo(samples, px, height)
      invariant penDown <==> px > 0 && samples[px - 1].Some?
      invariant penDown ==> |path| > 0 && lastY == path[|path| - 1].at.y
      decreases |samples| - px
    {
      var mathX := ColumnToMathX(px, vp, width);
      var mathY := SafeEvaluate(fn, mathX);
      SampleAt(fn, vp, width, height, px);
      if mathY.NaN? {
        penDown := false;
      } else {
        var screenY := MathToScreen(mathX, mathY.value, vp, width, height).y;
        PenStep(samples, px, height, penDown, lastY);
        if penDown && Abs(screenY - lastY) > height {
          penDown := false;
        }
        if !penDown {
          path := path + [MoveTo(Point(px as real, screenY))];
          penDown := true;
        } else {
          path := path + [LineTo(Point(px as real, screenY))];
        }
        lastY := screenY;
      }
      px := px + 1;
    }
    ColumnCountIsCeiling(width, px);
  }

  /** Inside a segment consecutive points are in adjacent columns and differ
      by at most the canvas height. */
  lemma LineToContinuesSegment(path: seq<PathOp>, samples: seq<Option<real>>, height: real, k: int)
    requires IsPlot(path, samples, height) && 0 < k < |path| && path[k].LineTo?
    ensures path[k].at.x == path[k - 1].at.x + 1.0
    ensures Abs(path[k].at.y - path[k - 1].at.y) <= height
  {
    var cols := DefinedColumns(samples);
    assert k <= cols[k];
    assert path[k].MoveTo? <==> samples[cols[k] - 1].None? || Abs(path[k].at.y - path[k - 1].at.y) > height;
    var c := cols[k] - 1;
    DefinedColumnsComplete(samples, c);
    var m :| 0 <= m < |cols| && cols[m] == c;
    if m >= k {
      if m > k { DefinedColumnsIncreasing(samples, k, m); }
    } else {
      DefinedColumnsIncreasing(samples, k - 1, k);
      if m < k - 1 { DefinedColumnsIncreasing(samples, m, k - 1); }
    }
  }

  /** A stretch of points with no segment start covers a contiguous range
      of columns. */
  lemma {:induction false} ContiguousRun(path: seq<PathOp>, samples: seq<Option<real>>, height: real, a: int, b: int)
    requires IsPlot(path, samples, height) && 0 <= a <= b < |path|
    requires forall k :: a < k <= b ==> path[k].LineTo?
    ensures DefinedColumns(samples)[b] == DefinedColumns(samples)[a] + (b - a)
    decreases b - a
  {
    if a < b {
      ContiguousRun(path, samples, height, a, b - 1);
      LineToContinuesSegment(path, samples, height, b);
    }
  }

  /** Every column spanned by one segment is defined. */
  lemma SegmentCoversColumns(path: seq<PathOp>, samples: seq<Option<real>>, height: real, a: int, b: int, c: int)
    requires IsPlot(path, samples, height) && 0 <= a <= b < |path|
    requires forall k :: a < k <= b ==> path[k].LineTo?
    requires DefinedColumns(samples)[a] <= c <= DefinedColumns(samples)[b]
    ensures 0 <= c < |samples| && samples[c].Some?
  {
    var cols := DefinedColumns(samples);
    ContiguousRun(path, samples, height, a, b);
    var m := a + (c - cols[a]);
    assert a <= m <= b;
    ContiguousRun(path, samples, height, a, m);
    assert cols[m] == c;
  }

  /** When a column between two defined columns is undefined (a pole, a
      gap in the domain), the pen is lifted: some point after the first and
      no later than the second starts a new segment. */
  lemma UndefinedColumnSplitsCurve(path: seq<PathOp>, samples: seq<Option<real>>, height: real,
                                   i: int, j: int, l: int)
    requires IsPlot(path, samples, height)
    requires 0 <= i < j < l < |samples|
    requires samples[i].Some? && samples[j].None? && samples[l].Some?
    ensures exists k :: 0 < k < |path| && path[k].MoveTo? && (i as real) < path[k].at.x <= (l as real)
  {
    var cols := DefinedColumns(samples);
    DefinedColumnsComplete(samples, i);
    DefinedColumnsComplete(samples, l);
    var ki :| 0 <= ki < |cols| && cols[ki] == i;
    var kl :| 0 <= kl < |cols| && cols[kl] == l;
    if kl <= ki {
      if kl < ki { DefinedColumnsIncreasing(samples, kl, ki); }
      assert false;
    }
    if forall k :: ki < k <= kl ==> path[k].LineTo? {
      SegmentCoversColumns(path, samples, height, ki, kl, j);
      assert false;
    }
    var k :| ki < k <= kl && path[k].MoveTo?;
    if k < kl { DefinedColumnsIncreasing(samples, k, kl); }
    DefinedColumnsIncreasing(samples, ki, k);
  }

  /** A function defined at every column whose consecutive samples never
      differ by more than the canvas height is drawn as one segment through
      every column. */
  lemma ContinuousCurveIsOneSegment(path: seq<PathOp>, samples: seq<Option<real>>, height: real)
    requires IsPlot(path, samples, height) && |samples| > 0
    requires forall c :: 0 <= c < |samples| ==> samples[c].Some?
    requires forall c :: 0 < c < |samples| ==> Abs(samples[c].value - samples[c - 1].value) <= height
    ensures |path| == |samples|
    ensures path[0].MoveTo?
    ensures forall k :: 0 < k < |path| ==> path[k].LineTo? && path[k].at.x == k as real
  {
    AllDefinedColumns(samples);
    var cols := DefinedColumns(samples);
    assert |path| == |samples| > 0;
    forall k | 0 < k < |path|
      ensures path[k].LineTo? && path[k].at.x == k as real
    {
      assert cols[k] == k && cols[k - 1] == k - 1;
      assert path[k].at == Point(k as real, samples[k].value);
      assert path[k - 1].at == Point((k - 1) as real, samples[k - 1].value);
    }
  }

  lemma {:induction false} AllDefinedColumns(samples: seq<Option<real>>)
    requires forall c :: 0 <= c < |samples| ==> samples[c].Some?
    ensures |DefinedColumns(samples)| == |samples|
    ensures forall k :: 0 <= k < |samples| ==> DefinedColumns(samples)[k] == k
  {
    if samples != [] {
      AllDefinedColumns(samples[..|samples| - 1]);
    }
  }

  /* ---------------------------------------------------------------------- */
  /* Frame                                                                   */
  /* ---------------------------------------------------------------------- */

  /** A function as the renderer receives it: compiled, with its colour and
      visibility. */
  datatype CompiledFunction = CompiledFunction(id: string, fn: Evaluator, color: string, visible: bool)

  /** One stroked path in one colour. */
  datatype Curve = Curve(color: string, path: seq<PathOp>)

  /** Everything one `renderGraph` call draws, in drawing order. */
  datatype Frame = Frame(grid: GridLayer, axes: AxesLayer, curves: seq<Curve>)

  /** The functions that are drawn, in list order. */
  function VisibleFunctions(fs: seq<CompiledFunction>): (vis: seq<CompiledFunction>)
    ensures |vis| <= |fs|
    ensures forall k :: 0 <= k < |vis| ==> vis[k].visible
  {
    if fs == [] then []
    else VisibleFunctions(fs[..|fs| - 1]) + (if fs[|fs| - 1].visible then [fs[|fs| - 1]] else [])
  }

  /** Filtering distributes over concatenation, so the drawing order is the
      list order. */
  lemma {:induction false} VisibleFunctionsAppend(a: seq<CompiledFunction>, b: seq<CompiledFunction>)
    ensures VisibleFunctions(a + b) == VisibleFunctions(a) + VisibleFunctions(b)
    decreases |b|
  {
    if b == [] {
      assert a + b == a;
    } else {
      var b' := b[..|b| - 1];
      assert (a + b)[..|a + b| - 1] == a + b';
      assert (a + b)[|a + b| - 1] == b[|b| - 1];
      VisibleFunctionsAppend(a, b');
    }
  }

  /** A function is drawn exactly when it is in the list and visible. */
  lemma {:induction false} VisibleFunctionsMembers(fs: seq<CompiledFunction>, f: CompiledFunction)
    ensures f in VisibleFunctions(fs) <==> f in fs && f.visible
  {
    if fs != [] {
      var init := fs[..|fs| - 1];
      VisibleFunctionsMembers(init, f);
      assert fs == init + [fs[|fs| - 1]];
    }
  }

  /** What `drawGrid` draws for a viewport and canvas size. */
  ghost predicate IsGridLayer(grid: GridLayer, vp: Viewport, width: real, height: real)
    requires vp.scale > 0.0
  {
    && grid.spacing == GridSpacing(vp.scale)
    && grid.xs == GridRun(Left(vp, width), Right(vp, width), grid.spacing)
    && grid.ys == GridRun(Bottom(vp, height), Top(vp, height), grid.spacing)
    && |grid.strokes| == |grid.xs| + |grid.ys|
    && (forall i :: 0 <= i < |grid.xs| ==>
          grid.strokes[i] == VerticalLine(MathToScreen(grid.xs[i], 0.0, vp, width, height).x, height))
    && (forall j :: 0 <= j < |grid.ys| ==>
          grid.strokes[|grid.xs| + j] == HorizontalLine(MathToScreen(0.0, grid.ys[j], vp, width, height).y, width))
  }

  /** `renderGraph`: the grid, then the axes, then one curve per visible
      function in list order, each in its own colour. */
  method RenderGraph(fs: seq<CompiledFunction>, vp: Viewport, width: real, height: real) returns (frame: Frame)
    requires vp.scale > 0.0
    ensures IsGridLayer(frame.grid, vp, width, height)
    ensures IsAxesLayer(frame.axes, vp, width, height, frame.grid.spacing)
    ensures var vis := VisibleFunctions(fs);
            && |frame.curves| == |vis|
            && forall k :: 0 <= k < |vis| ==>
                 frame.curves[k].color == vis[k].color
                 && frame.curves[k].path == Plot(Samples(vis[k].fn, vp, width, height), height)
  {
    var grid := DrawGrid(vp, width, height);
    var axes := DrawAxes(vp, width, height, grid.spacing);
    var curves: seq<Curve> := [];
    var i := 0;
    while i < |fs|
      invariant 0 <= i <= |fs|
      invariant var vis := VisibleFunctions(fs[..i]);
                && |curves| == |vis|
                && forall k :: 0 <= k < |vis| ==>
                     curves[k].color == vis[k].color
                     && curves[k].path == Plot(Samples(vis[k].fn, vp, width, height), height)
    {
      var f := fs[i];
      assert fs[..i + 1] == fs[..i] + [f];
      VisibleFunctionsAppend(fs[..i], [f]);
      if f.visible {
        var path := DrawFunction(f.fn, vp, width, height);
        curves := curves + [Curve(f.color, path)];
      }
      i := i + 1;
    }
    assert fs[..i] == fs;
    frame := Frame(grid, axes, curves);
  }
}
