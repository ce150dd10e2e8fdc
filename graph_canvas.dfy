/** The canvas component's viewport controller: panning by dragging the
    cursor, and zooming with the wheel around the point under the cursor.
    The component's refs become the fields of `PanController`; the emitted
    viewport is the value the component hands to its `onViewportChange`
    callback. */
module GraphCanvas {
  import opened Types
  import opened CanvasRenderer

  /* ---------------------------------------------------------------------- */
  /* Screen to math                                                          */
  /* ---------------------------------------------------------------------- */

  /** The math point drawn at a screen position: the inverse of
      `MathToScreen`, as the wheel handler computes it. */
  function ScreenToMath(screenX: real, screenY: real, vp: Viewport, width: real, height: real): Point
    requires vp.scale != 0.0
  {
    Point(vp.centerX + (screenX - width / 2.0) / vp.scale,
          vp.centerY - (screenY - height / 2.0) / vp.scale)
  }

  /** Mapping a screen position to math space and back gives the same
      screen position. */
  lemma MathToScreenInvertsScreenToMath(screenX: real, screenY: real, vp: Viewport, width: real, height: real)
    requires vp.scale != 0.0
    ensures var m := ScreenToMath(screenX, screenY, vp, width, height);
            MathToScreen(m.x, m.y, vp, width, height) == Point(screenX, screenY)
  {
    var dx := screenX - width / 2.0;
    var dy := screenY - height / 2.0;
    assert (dx / vp.scale) * vp.scale == dx;
    assert -(-(dy / vp.scale)) * vp.scale == dy;
  }

  /** Mapping a math point to the screen and back gives the same math
      point. */
  lemma ScreenToMathInvertsMathToScreen(mathX: real, mathY: real, vp: Viewport, width: real, height: real)
    requires vp.scale != 0.0
    ensures var s := MathToScreen(mathX, mathY, vp, width, height);
            ScreenToMath(s.x, s.y, vp, width, height) == Point(mathX, mathY)
  {
    var a := mathX - vp.centerX;
    var b := mathY - vp.centerY;
    assert (a * vp.scale) / vp.scale == a;
    assert (-b * vp.scale) / vp.scale == -b;
  }

  /* ---------------------------------------------------------------------- */
  /* Panning                                                                 */
  /* ---------------------------------------------------------------------- */

  /** The viewport after the cursor moved by (dx, dy) pixels while
      dragging: the centre moves against the cursor in x and with it in y
      (screen y points down), and the scale stays. */
  function Pan(vp: Viewport, dx: real, dy: real): Viewport
    requires vp.scale != 0.0
  {
    Viewport(vp.centerX - dx / vp.scale, vp.centerY + dy / vp.scale, vp.scale)
  }

  /** Dragging keeps the grabbed point under the cursor: the math point at
      the new cursor position in the panned viewport is the one that was
      at the old cursor position, and the zoom level does not change. */
  lemma PanKeepsGrabbedPoint(vp: Viewport, x0: real, y0: real, x1: real, y1: real, width: real, height: real)
    requires vp.scale != 0.0
    ensures Pan(vp, x1 - x0, y1 - y0).scale == vp.scale
    ensures ScreenToMath(x1, y1, Pan(vp, x1 - x0, y1 - y0), width, height)
            == ScreenToMath(x0, y0, vp, width, height)
  {
    var s := vp.scale;
    DivSub(x1 - width / 2.0, x1 - x0, s);
    DivSub(y1 - y0, y1 - height / 2.0, s);
    assert (x1 - width / 2.0) - (x1 - x0) == x0 - width / 2.0;
    assert (y1 - y0) - (y1 - height / 2.0) == -(y0 - height / 2.0);
  }

  lemma DivSub(a: real, b: real, s: real)
    requires s != 0.0
    ensures a / s - b / s == (a - b) / s
  {
  }

  /** At the default zoom of 50 pixels per unit, dragging 100 pixels to the
      right moves the centre two units to the left. */
  lemma PanExample()
    ensures Pan(Viewport(0.0, 0.0, 50.0), 100.0, 0.0) == Viewport(-2.0, 0.0, 50.0)
  {
  }

  /** The sampler's column-to-math formula is the x part of the wheel
      handler's screen-to-math map, at the column's screen x. */
  lemma ColumnToMathXIsScreenToMath(px: int, vp: Viewport, width: real, screenY: real, height: real)
    requires vp.scale != 0.0
    ensures ColumnToMathX(px, vp, width) == ScreenToMath(px as real, screenY, vp, width, height).x
  {
  }

  /** Two pans in a row are one pan by the summed displacement. */
  lemma PanCompose(vp: Viewport, dx1: real, dy1: real, dx2: real, dy2: real)
    requires vp.scale != 0.0
    ensures Pan(Pan(vp, dx1, dy1), dx2, dy2) == Pan(vp, dx1 + dx2, dy1 + dy2)
  {
    var s := vp.scale;
    assert dx1 / s + dx2 / s == (dx1 + dx2) / s;
    assert dy1 / s + dy2 / s == (dy1 + dy2) / s;
  }

  /** The viewport after a drag that started at (x0, y0) and passed through
      `points`, each move panning the viewport the previous move produced
      by the distance from the previous cursor position. */
  function Drag(vp: Viewport, x0: real, y0: real, points: seq<Point>): (r: Viewport)
    requires vp.scale != 0.0
    ensures r.scale == vp.scale
    decreases |points|
  {
    if points == [] then vp
    else Drag(Pan(vp, points[0].x - x0, points[0].y - y0), points[0].x, points[0].y, points[1..])
  }

  /** A drag through any intermediate positions moves the centre by the
      total displacement divided by the scale, as if the cursor had jumped
      straight to its final position. */
  lemma {:induction false} DragTelescopes(vp: Viewport, x0: real, y0: real, points: seq<Point>)
    requires vp.scale != 0.0 && |points| > 0
    ensures var last := points[|points| - 1];
            Drag(vp, x0, y0, points) == Pan(vp, last.x - x0, last.y - y0)
    decreases |points|
  {
    var p := points[0];
    var next := Pan(vp, p.x - x0, p.y - y0);
    if |points| > 1 {
      DragTelescopes(next, p.x, p.y, points[1..]);
      var last := points[|points| - 1];
      PanCompose(vp, p.x - x0, p.y - y0, last.x - p.x, last.y - p.y);
      assert (p.x - x0) + (last.x - p.x) == last.x - x0;
      assert (p.y - y0) + (last.y - p.y) == last.y - y0;
    }
  }

  /** A whole drag driven through the controller: press at (x0, y0), then
      one move per position, each move given the viewport the previous one
      emitted. The final viewport is `Drag` of the positions. */
  method DragSession(c: PanController, vp: Viewport, x0: real, y0: real, points: seq<Point>)
    returns (final: Viewport)
    requires vp.scale != 0.0
    modifies c
    ensures final == Drag(vp, x0, y0, points)
    ensures c.dragging
  {
    c.MouseDown(x0, y0);
    final := vp;
    var i := 0;
    while i < |points|
      invariant 0 <= i <= |points|
      invariant c.dragging && final.scale == vp.scale
      invariant Drag(vp, x0, y0, points) == Drag(final, c.lastX, c.lastY, points[i..])
    {
      assert points[i..][1..] == points[i + 1..];
      var emitted := c.MouseMove(points[i].x, points[i].y, final);
      final := emitted.value;
      i := i + 1;
    }
  }

  /** The cursor state the component keeps between mouse events: whether
      a drag is in progress and where the cursor was last seen. */
  class PanController {
    var dragging: bool
    var lastX: real
    var lastY: real

    /** Not dragging, last position at the origin, as the refs start. */
    constructor()
      ensures !dragging && lastX == 0.0 && lastY == 0.0
    {
      dragging := false;
      lastX := 0.0;
      lastY := 0.0;
    }

    /** `handleMouseDown`: start a drag at the cursor. */
    method MouseDown(x: real, y: real)
      modifies this
      ensures dragging && lastX == x && lastY == y
    {
      dragging := true;
      lastX := x;
      lastY := y;
    }

    /** `handleMouseMove`: outside a drag nothing happens; during a drag the
        viewport is panned by the cursor's displacement since the last
        event, and the cursor position is recorded. */
    method MouseMove(x: real, y: real, vp: Viewport) returns (emitted: Option<Viewport>)
      requires vp.scale != 0.0
      modifies this
      ensures !old(dragging) ==> emitted.None? && unchanged(this)
      ensures old(dragging) ==> && emitted == Some(Pan(vp, x - old(lastX), y - old(lastY)))
                                && dragging && lastX == x && lastY == y
    {
      if !dragging {
        return None;
      }
      var dx := x - lastX;
      var dy := y - lastY;
      lastX := x;
      lastY := y;
      emitted := Some(Pan(vp, dx, dy));
    }

    /** `handleMouseUp`: end the drag; the last position is kept. */
    method MouseUp()
      modifies this
      ensures !dragging && lastX == old(lastX) && lastY == old(lastY)
    {
      dragging := false;
    }

    /** Leaving the canvas ends the drag exactly as releasing the button
        does. */
    method MouseLeave()
      modifies this
      ensures !dragging && lastX == old(lastX) && lastY == old(lastY)
    {
      MouseUp();
    }
  }

  /* ---------------------------------------------------------------------- */
  /* Zooming                                                                 */
  /* ---------------------------------------------------------------------- */

  const MIN_SCALE := 1.0
  const MAX_SCALE := 1000000.0

  /** Scrolling down zooms out by 10%, anything else zooms in by 10%. */
  function ZoomFactor(deltaY: real): real
  {
    if deltaY > 0.0 then 0.9 else 1.1
  }

  /** `Math.max(1, Math.min(1e6, s))`. */
  function ClampScale(s: real): (r: real)
    ensures MIN_SCALE <= r <= MAX_SCALE
    ensures MIN_SCALE <= s <= MAX_SCALE ==> r == s
    ensures s < MIN_SCALE ==> r == MIN_SCALE
    ensures s > MAX_SCALE ==> r == MAX_SCALE
  {
    Max(MIN_SCALE, Min(MAX_SCALE, s))
  }

  /** `handleWheel`: scale by the zoom factor, clamped, and move the centre
      so that the math point under the cursor stays under the cursor. */
  function Zoom(vp: Viewport, mouseX: real, mouseY: real, deltaY: real, width: real, height: real): (r: Viewport)
    requires vp.scale != 0.0
    ensures MIN_SCALE <= r.scale <= MAX_SCALE
    ensures r.scale == ClampScale(vp.scale * ZoomFactor(deltaY))
    ensures ScreenToMath(mouseX, mouseY, r, width, height) == ScreenToMath(mouseX, mouseY, vp, width, height)
  {
    var anchor := ScreenToMath(mouseX, mouseY, vp, width, height);
    var newScale := ClampScale(vp.scale * ZoomFactor(deltaY));
    Viewport(anchor.x - (mouseX - width / 2.0) / newScale,
             anchor.y + (mouseY - height / 2.0) / newScale,
             newScale)
  }

  /** After zooming, the anchored math point is drawn exactly at the
      cursor. */
  lemma ZoomAnchorStaysUnderCursor(vp: Viewport, mouseX: real, mouseY: real, deltaY: real, width: real, height: real)
    requires vp.scale != 0.0
    ensures var anchor := ScreenToMath(mouseX, mouseY, vp, width, height);
            var r := Zoom(vp, mouseX, mouseY, deltaY, width, height);
            MathToScreen(anchor.x, anchor.y, r, width, height) == Point(mouseX, mouseY)
  {
    var r := Zoom(vp, mouseX, mouseY, deltaY, width, height);
    MathToScreenInvertsScreenToMath(mouseX, mouseY, r, width, height);
  }

  /** Scrolling down never zooms in and scrolling up never zooms out, for a
      viewport already inside the clamp range; away from the bounds the
      scale changes by exactly the zoom factor. */
  lemma ZoomDirection(vp: Viewport, mouseX: real, mouseY: real, deltaY: real, width: real, height: real)
    requires MIN_SCALE <= vp.scale <= MAX_SCALE
    ensures var r := Zoom(vp, mouseX, mouseY, deltaY, width, height);
            && (deltaY > 0.0 ==> r.scale <= vp.scale)
            && (deltaY <= 0.0 ==> r.scale >= vp.scale)
            && (MIN_SCALE <= vp.scale * ZoomFactor(deltaY) <= MAX_SCALE ==>
                  r.scale == vp.scale * ZoomFactor(deltaY))
  {
  }

  /** The viewports the controller can produce: every zoom lands in the
      clamp range and every pan keeps the scale, so starting from a scale in
      range the scale never leaves it. */
  predicate ScaleInRange(vp: Viewport)
  {
    MIN_SCALE <= vp.scale <= MAX_SCALE
  }

  lemma ViewportUpdatesKeepScaleInRange(vp: Viewport, dx: real, dy: real,
                                        mouseX: real, mouseY: real, deltaY: real, width: real, height: real)
    requires ScaleInRange(vp)
    ensures ScaleInRange(Pan(vp, dx, dy))
    ensures ScaleInRange(Zoom(vp, mouseX, mouseY, deltaY, width, height))
  {
  }
}
