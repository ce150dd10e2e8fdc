# Graphing calculator: plotting engine, viewport controller and function list

This project models the core of a browser graphing calculator in Dafny. The
calculator has four parts, and each is one module here:

- **`MathEval`** (`math_eval.dfy`) is the adapter to the expression library.
  `TryCompile` turns an expression text into a compiled function or an error
  text. A blank text is rejected. Otherwise the text is compiled and evaluated
  once at x = 0. `SafeEvaluate` returns a finite number or NaN. The library is
  abstract. `compile` is a parameter from text to an outcome, and a compiled
  function is a map from x to an evaluation outcome: it throws, returns a
  non-number, or returns a number. That number may be finite, NaN or an
  infinity.
- **`CanvasRenderer`** (`canvas_renderer.dfy`) is the canvas renderer. It
  covers:
  - the math-to-screen transform;
  - the "nice" grid spacing, with its power-of-ten ladder;
  - the grid-line and tick loops, including the rule that skips the origin;
  - axis visibility;
  - the per-column sampler, which lifts the pen at undefined points and at
    jumps taller than the canvas;
  - the frame that draws only the visible functions.

  Drawing is modelled as the strokes, ticks and paths that would be handed to
  the 2D context. The sampler `DrawFunction` is proved equal to a recursive
  specification `Plot`. `Plot` is proved to satisfy the characterisation
  `IsPlot`: one point per defined column, in order, and a new segment exactly
  at the first point, after an undefined column, or after a jump taller than
  the canvas.
- **`GraphCanvas`** (`graph_canvas.dfy`) is the canvas component's viewport
  controller. The pan handlers become the class `PanController`, whose fields
  are the component's refs (`dragging`, last cursor position). Each mouse
  event is a method. The viewport a move hands to `onViewportChange` is the
  method's result. Wheel zoom is the function `Zoom`, with the scale clamp and
  the anchor point that stays under the cursor.
- **`App`** (`app.dfy`) holds the application state:
  - the palette, the default viewport and the id counter (`makeId`);
  - the list operations: add, remove, update expression, update colour,
    toggle visibility;
  - the two derivations recomputed on every change. `compiled` is the list the
    canvas draws. `functionsWithErrors` is the list the sidebar shows.

  The list operations are pure functions over `seq<PlottedFunction>`, as the
  source's state updaters are. The class `Calculator` holds the counter and
  the list. It keeps the invariant that ids are distinct and were all issued
  by the counter.

JavaScript numbers are Dafny `real`s, and the library's non-finite results are
kept apart in the datatype `Float`. `Math.log10` and `Math.pow` in the grid
spacing are replaced by `Magnitude`, the unique n with 10^n <= x < 10^(n+1),
and `Pow10`.

## Model

| member | source | states |
|---|---|---|
| MathEval.Trim | src/utils/mathEval.ts:4 | `expr.trim()`, as `TrimEnd` of `TrimStart`: the contracts of those two keep a suffix and then a prefix that do not start or end with JavaScript whitespace, and `TrimEmptyIffBlank` shows the result is empty exactly when the text is blank |
| MathEval.TrimEmptyIffBlank | src/utils/mathEval.ts:4 | `expr.trim()` is empty exactly when every character of `expr` is JavaScript whitespace |
| MathEval.TryCompile | src/utils/mathEval.ts:3-15 | the result carries exactly one of a compiled function and an error text |
| MathEval.TryCompileBlank | src/utils/mathEval.ts:4-6 | a blank expression gives no function and the error "Empty expression", whatever the library would do with it |
| MathEval.TryCompileReportsExceptions | src/utils/mathEval.ts:7-14 | for a non-blank expression, an exception from `compile` or from the trial evaluation at x = 0 gives no function and that exception's message as the error |
| MathEval.TryCompileSucceeds | src/utils/mathEval.ts:7-11 | a function is returned exactly when the expression is not blank, compiles, and the trial evaluation at x = 0 does not throw; the function is the compiled expression itself |
| MathEval.CompiledFunctionSurvivedTrial | src/utils/mathEval.ts:10-11 | a returned function evaluates at x = 0 without throwing |
| MathEval.SafeEvaluate | src/utils/mathEval.ts:17-27 | the result is finite or NaN; it is finite exactly when the evaluation returned a finite number, and then it is that number |
| CanvasRenderer.MathToScreen | src/utils/canvasRenderer.ts:6-16 | the transform; its properties are carried by `CenterMapsToCanvasCenter`, `ScreenYDecreasing`, the two inversion lemmas of `GraphCanvas`, and the screen-edge contracts of `Left`, `Right`, `Top` and `Bottom` |
| CanvasRenderer.ColumnToMathX | src/utils/canvasRenderer.ts:173 | the math x of pixel column px; `ColumnRoundTrip` shows it is drawn back at screen x = px, and `GraphCanvas.ColumnToMathXIsScreenToMath` shows it is the x part of the wheel handler's screen-to-math map |
| CanvasRenderer.CenterMapsToCanvasCenter | src/utils/canvasRenderer.ts:13-14 | the viewport centre is drawn at the centre of the canvas |
| CanvasRenderer.ColumnRoundTrip | src/utils/canvasRenderer.ts:173 | the math x the sampler computes for column px is drawn back at screen x = px |
| CanvasRenderer.ScreenYDecreasing | src/utils/canvasRenderer.ts:14 | for a positive scale, a larger math y is drawn higher on the screen (smaller screen y) |
| CanvasRenderer.Pow10 | src/utils/canvasRenderer.ts:20 | `Math.pow(10, n)` for an integer n, always positive; `Pow10Increasing` shows it is strictly increasing in n |
| CanvasRenderer.Magnitude | src/utils/canvasRenderer.ts:20 | the exponent n of the largest power of ten not above x: 10^n <= x < 10^(n+1) |
| CanvasRenderer.MagnitudeUnique | src/utils/canvasRenderer.ts:20 | that exponent is unique, so `Magnitude` is floor(log10 x) |
| CanvasRenderer.NiceStep | src/utils/canvasRenderer.ts:19-26 | the step is 1, 2, 5 or 10 times the magnitude; it is at least the rough step; it is the smallest of those four that is; it is below 2.5 times the rough step |
| CanvasRenderer.NiceStepIsNice | src/utils/canvasRenderer.ts:19-26 | the step is 1, 2 or 5 times a power of ten |
| CanvasRenderer.GridSpacing | src/utils/canvasRenderer.ts:35-36 | the grid spacing for a scale; `GridSpacingOnScreen` and `DefaultScaleSpacing` carry its properties |
| CanvasRenderer.GridSpacingOnScreen | src/utils/canvasRenderer.ts:35-36 | grid lines are positive math units apart, and at least 80 but under 200 pixels apart on screen |
| CanvasRenderer.DefaultScaleSpacing | src/utils/canvasRenderer.ts:35-36 | at 50 pixels per unit the grid spacing is 2 |
| CanvasRenderer.FirstGridIndex | src/utils/canvasRenderer.ts:48 | `Math.floor(left / mathSpacing)`, the index of the first value visited; `GridRunShape` places that value at most one spacing below `left` |
| CanvasRenderer.GridRun | src/utils/canvasRenderer.ts:48-49 | the values the grid and tick loops visit, one per grid index from `FirstGridIndex` up to `right`; `GridRunShape`, `GridRunComplete` and `GridPositions` carry its properties |
| CanvasRenderer.GridRunShape | src/utils/canvasRenderer.ts:48-49 | the grid values start at floor(left / spacing) * spacing, which is at most `left` and within one spacing of it; consecutive values are one spacing apart; all are at most `right`; the next one would exceed it |
| CanvasRenderer.GridRunComplete | src/utils/canvasRenderer.ts:48-49 | every multiple of the spacing between `left` and `right` is a grid value |
| CanvasRenderer.GridPositions | src/utils/canvasRenderer.ts:48-53 | the `mx += spacing` loop visits exactly the grid values, in increasing order |
| CanvasRenderer.NearOrigin | src/utils/canvasRenderer.ts:112 | the test `Math.abs(mx) < mathSpacing * 0.01`; `NearOriginOnlyZero` shows only zero passes it among the grid values |
| CanvasRenderer.SkipOrigin | src/utils/canvasRenderer.ts:110-112 | the run without the values `NearOrigin` drops, in order; `SkipOriginMembers` and `SkipOriginDropsAtMostOne` carry its properties |
| CanvasRenderer.SkipOriginMembers | src/utils/canvasRenderer.ts:112 | a value survives the origin skip exactly when it is in the run and not within 1% of a spacing from zero |
| CanvasRenderer.NearOriginOnlyZero | src/utils/canvasRenderer.ts:112 | among the multiples of the spacing, only zero is skipped |
| CanvasRenderer.SkipOriginDropsAtMostOne | src/utils/canvasRenderer.ts:110-112 | the origin skip removes at most one tick |
| CanvasRenderer.TickPositions | src/utils/canvasRenderer.ts:110-112 | the tick loop with its `continue` yields the grid values without the origin, in order |
| CanvasRenderer.DrawGrid | src/utils/canvasRenderer.ts:28-64 | the grid layer uses the nice spacing for 80 pixels; it draws one full-height line per grid x from `left` to `right`, then one full-width line per grid y from `bottom` to `top` |
| CanvasRenderer.Left | src/utils/canvasRenderer.ts:38 | the left bound of the visible extent is the math x drawn at screen x = 0 |
| CanvasRenderer.Right | src/utils/canvasRenderer.ts:39 | the right bound is the math x drawn at screen x = width |
| CanvasRenderer.Top | src/utils/canvasRenderer.ts:40 | the top bound is the math y drawn at screen y = 0 |
| CanvasRenderer.Bottom | src/utils/canvasRenderer.ts:41 | the bottom bound is the math y drawn at screen y = height |
| CanvasRenderer.VerticalGridOnScreen | src/utils/canvasRenderer.ts:48-52 | the first vertical line is at or left of the canvas's left edge, every line is at or left of its right edge, and consecutive lines are spacing * scale pixels apart |
| CanvasRenderer.XAxisVisible | src/utils/canvasRenderer.ts:83 | the origin's screen y is on the canvas; `XAxisVisibleIffInExtent` states what that means in math terms |
| CanvasRenderer.YAxisVisible | src/utils/canvasRenderer.ts:89 | the origin's screen x is on the canvas; `YAxisVisibleIffInExtent` states what that means in math terms |
| CanvasRenderer.XAxisVisibleIffInExtent | src/utils/canvasRenderer.ts:83 | the x axis is drawn exactly when y = 0 lies between the visible bottom and top |
| CanvasRenderer.YAxisVisibleIffInExtent | src/utils/canvasRenderer.ts:89 | the y axis is drawn exactly when x = 0 lies between the visible left and right |
| CanvasRenderer.TickRow | src/utils/canvasRenderer.ts:114 | the clamped row of the x ticks; `TickRowOnCanvas` carries its bounds |
| CanvasRenderer.TickColumn | src/utils/canvasRenderer.ts:134 | the clamped column of the y ticks; `TickColumnOnCanvas` carries its bounds |
| CanvasRenderer.XTick | src/utils/canvasRenderer.ts:113-124 | the tick keeps its value; its mark is vertical, 10 pixels long, at the value's screen x and centred on the tick row; the label sits 2 pixels below the mark |
| CanvasRenderer.YTick | src/utils/canvasRenderer.ts:133-144 | the tick keeps its value; its mark is horizontal, 10 pixels long, at the value's screen y and centred on the tick column; the label sits 3 pixels left of the mark |
| CanvasRenderer.TickRowOnCanvas | src/utils/canvasRenderer.ts:114 | on a canvas at least 20 pixels high, x ticks sit on a row between 0 and height - 20, which is the axis row whenever the axis row is in that band |
| CanvasRenderer.TicksOnSmallCanvas | src/utils/canvasRenderer.ts:114-134 | on a canvas lower than 20 pixels the x ticks sit on the top edge; on one narrower than 30 pixels the y ticks sit at x = 30, off the canvas |
| CanvasRenderer.TickColumnOnCanvas | src/utils/canvasRenderer.ts:134 | on a canvas at least 30 pixels wide, y ticks sit in a column between 30 and width, which is the axis column whenever the axis column is in that band |
| CanvasRenderer.DrawAxes | src/utils/canvasRenderer.ts:66-146 | the axes layer draws each visible axis line; it draws an x tick for every grid x except the origin, and a y tick for every grid y except the origin; each tick has its mark and label position |
| CanvasRenderer.XTicksAreGridWithoutOrigin | src/utils/canvasRenderer.ts:110-125 | an x tick is drawn at v exactly when v is a visible grid value other than the origin |
| CanvasRenderer.YTicksAreGridWithoutOrigin | src/utils/canvasRenderer.ts:130-145 | a y tick is drawn at v exactly when v is a visible grid value other than the origin |
| CanvasRenderer.ColumnCountIsCeiling | src/utils/canvasRenderer.ts:171 | the loop `px < width` visits exactly the columns 0 .. ColumnCount(width) - 1 |
| CanvasRenderer.ColumnSample | src/utils/canvasRenderer.ts:173-181 | a column has no sample exactly when the evaluation adapter returns NaN at the column's math x |
| CanvasRenderer.Samples | src/utils/canvasRenderer.ts:171-181 | one sample per visited column |
| CanvasRenderer.Plot | src/utils/canvasRenderer.ts:168-196 | the sampler draws at most one point per column |
| CanvasRenderer.PlotIsPlot | src/utils/canvasRenderer.ts:168-196 | the path's points are exactly the defined columns, in order, at (column, screen y). A point starts a segment exactly when it is the first point, when the column before it was undefined, or when it jumps more than the canvas height from the previous point |
| CanvasRenderer.DrawFunction | src/utils/canvasRenderer.ts:156-199 | the loop with its pen state draws exactly `Plot` of the column samples |
| CanvasRenderer.LineToContinuesSegment | src/utils/canvasRenderer.ts:184-193 | a continued line joins adjacent columns and never spans more than the canvas height |
| CanvasRenderer.UndefinedColumnSplitsCurve | src/utils/canvasRenderer.ts:176-179 | an undefined column between two defined ones forces a new segment to start after the first and no later than the second |
| CanvasRenderer.ContinuousCurveIsOneSegment | src/utils/canvasRenderer.ts:184-193 | if every column is defined and no jump exceeds the canvas height, the path is one segment through every column |
| CanvasRenderer.VisibleFunctions | src/utils/canvasRenderer.ts:225-229 | only visible functions are drawn, and no more than were given |
| CanvasRenderer.VisibleFunctionsMembers | src/utils/canvasRenderer.ts:226 | a function is drawn exactly when it is in the list and visible |
| CanvasRenderer.VisibleFunctionsAppend | src/utils/canvasRenderer.ts:225-229 | the filter distributes over concatenation, so drawing order follows list order |
| CanvasRenderer.RenderGraph | src/utils/canvasRenderer.ts:208-230 | a frame is the grid layer, then the axes layer with the same spacing, then one curve per visible function in list order, in its colour, drawn as `Plot` of its samples |
| GraphCanvas.ScreenToMath | src/components/GraphCanvas.tsx:103-104 | the wheel handler's screen-to-math map; the two inversion lemmas below carry its properties |
| GraphCanvas.MathToScreenInvertsScreenToMath | src/components/GraphCanvas.tsx:103-104 | the math point the wheel handler computes for a screen position is drawn back at that position |
| GraphCanvas.ScreenToMathInvertsMathToScreen | src/components/GraphCanvas.tsx:103-104 | mapping a math point to the screen and back gives the same point |
| GraphCanvas.ColumnToMathXIsScreenToMath | src/components/GraphCanvas.tsx:103 | the sampler's column formula agrees with the x part of the wheel handler's map |
| GraphCanvas.Pan | src/components/GraphCanvas.tsx:76-80 | the viewport after a move by (dx, dy) pixels; `PanKeepsGrabbedPoint`, `PanExample` and `PanCompose` carry its properties |
| GraphCanvas.PanKeepsGrabbedPoint | src/components/GraphCanvas.tsx:71-80 | after a move, the math point under the cursor is the one that was under it before the move; the scale is unchanged |
| GraphCanvas.PanExample | src/components/GraphCanvas.tsx:76-80 | dragging 100 pixels right at 50 pixels per unit moves the centre 2 units left |
| GraphCanvas.PanCompose | src/components/GraphCanvas.tsx:76-80 | two pans are one pan by the summed displacement |
| GraphCanvas.Drag | src/components/GraphCanvas.tsx:69-81 | a sequence of moves never changes the scale |
| GraphCanvas.DragTelescopes | src/components/GraphCanvas.tsx:69-81 | a drag through any intermediate positions equals one pan from the start to the final position |
| GraphCanvas.DragSession | src/components/GraphCanvas.tsx:64-81 | pressing at a position and then moving through a list of positions, each move given the viewport the previous one emitted, ends at `Drag` of those positions, still dragging |
| GraphCanvas.PanController.constructor | src/components/GraphCanvas.tsx:16-17 | not dragging, last position (0, 0) |
| GraphCanvas.PanController.MouseDown | src/components/GraphCanvas.tsx:64-67 | starts a drag at the cursor |
| GraphCanvas.PanController.MouseMove | src/components/GraphCanvas.tsx:69-81 | outside a drag, nothing is emitted and no field changes; during a drag, it emits the viewport panned by the displacement since the last event and records the new cursor position |
| GraphCanvas.PanController.MouseUp | src/components/GraphCanvas.tsx:83-85 | ends the drag and keeps the last position |
| GraphCanvas.PanController.MouseLeave | src/components/GraphCanvas.tsx:132 | leaving the canvas ends the drag exactly as releasing the button does |
| GraphCanvas.ZoomFactor | src/components/GraphCanvas.tsx:107 | 0.9 for a positive `deltaY`, 1.1 otherwise; `ZoomDirection` carries its effect on the scale |
| GraphCanvas.ClampScale | src/components/GraphCanvas.tsx:108 | the scale lands in [1, 1e6], is unchanged inside that range, and is the nearer bound outside it |
| GraphCanvas.Zoom | src/components/GraphCanvas.tsx:92-119 | the new scale is the old scale times the zoom factor, clamped to [1, 1e6]; the math point under the cursor is the same before and after |
| GraphCanvas.ZoomAnchorStaysUnderCursor | src/components/GraphCanvas.tsx:103-112 | the anchored math point is drawn exactly at the cursor after the zoom |
| GraphCanvas.ZoomDirection | src/components/GraphCanvas.tsx:107-108 | scrolling down never zooms in and scrolling up never zooms out; away from the clamp bounds the scale changes by exactly 0.9 or 1.1 |
| GraphCanvas.ViewportUpdatesKeepScaleInRange | src/components/GraphCanvas.tsx:76-118 | pans and zooms keep the scale inside [1, 1e6] |
| App.DefaultViewportIsReachable | src/App.tsx:20-24 | the start-up viewport's scale is inside the zoom range, and its grid lines are 2 units apart |
| App.DecimalString | src/App.tsx:17 | `String(n)` is a non-empty string of decimal digits, which starts with '0' only for n = 0 (no leading zero) |
| App.DecimalRoundTrip | src/App.tsx:17 | reading back `String(n)` gives n |
| App.DecimalStringInjective | src/App.tsx:17 | different counter values give different ids |
| App.NewEntry | src/App.tsx:66-72 | the entry `addFunction` appends; `AddFunction` and `NewEntryErrorMatchesCompile` state its fields and that its stored error is what compiling "" reports |
| App.AddFunction | src/App.tsx:63-74 | the old entries are kept and one entry is appended: the given id, an empty expression, visible, the colour `PALETTE[length % 8]` and the error "Empty expression" |
| App.NewEntryErrorMatchesCompile | src/App.tsx:71 | the new entry's error is what compiling its empty expression reports |
| App.AddFreshKeepsIdsDistinct | src/App.tsx:63-74 | adding under a fresh id keeps ids distinct |
| App.RemoveFunction | src/App.tsx:76-78 | the result is no longer than the list and no entry keeps the removed id |
| App.RemoveFunctionMembers | src/App.tsx:77 | an entry survives exactly when it was in the list and has another id |
| App.RemoveFunctionAppend | src/App.tsx:77 | the filter distributes over concatenation, so survivors keep their order |
| App.RemoveAbsentId | src/App.tsx:77 | removing an id no entry has changes nothing |
| App.RemoveFunctionAt | src/App.tsx:77 | with distinct ids, removing entry i's id removes exactly entry i |
| App.RemoveKeepsIdsDistinct | src/App.tsx:77 | removal keeps ids distinct |
| App.UpdateExpression | src/App.tsx:80-84 | same length; entries with the id get the new expression; every other field and every other entry is unchanged |
| App.UpdateColor | src/App.tsx:86-90 | same length; entries with the id get the new colour; every other field and every other entry is unchanged |
| App.ToggleVisibility | src/App.tsx:92-96 | same length; entries with the id flip their visibility; every other field and every other entry is unchanged |
| App.ToggleTwiceRestores | src/App.tsx:92-96 | toggling the same id twice restores the list |
| App.LastUpdateWins | src/App.tsx:80-90 | of two edits of the same id's expression or colour, only the second shows |
| App.EditAbsentId | src/App.tsx:80-96 | edits and toggles of an id no entry has change nothing |
| App.SameIdsKeepDistinct | src/App.tsx:80-96 | the edits keep ids position by position, and so keep them distinct |
| App.FunctionsWithErrors | src/App.tsx:56-61 | every entry is kept with its fields, and its error becomes the error `tryCompile` reports for its expression |
| App.FunctionsWithErrorsIdempotent | src/App.tsx:56-61 | annotating an annotated list changes nothing |
| App.Compiled | src/App.tsx:39-53 | at most one compiled record per entry |
| App.CompileFunctions | src/App.tsx:39-53 | the compile-and-push loop produces exactly `Compiled` |
| App.CompiledComplete | src/App.tsx:41-50 | every entry that compiles has its record (id, compiled function, colour, visibility) in the result |
| App.CompiledSource | src/App.tsx:41-50 | every record in the result is the record of an entry that compiles |
| App.CompiledAppend | src/App.tsx:41-50 | compiling distributes over concatenation, so records follow list order |
| App.RenderedIffCompiles | src/App.tsx:39-53 | with distinct ids, an entry's id reaches the canvas exactly when its expression compiles |
| App.ErrorFreeIffRendered | src/App.tsx:39-61 | with distinct ids, the sidebar shows an entry without an error exactly when the canvas receives a function with its id |
| App.Calculator.constructor | src/App.tsx:27-35 | the list starts with the single entry "1": "x^2", the first palette colour, visible, no error; the counter stands at 2 |
| App.Calculator.MakeId | src/App.tsx:16-18 | the id is the decimal string of the counter, which then advances; the id was never issued before and denotes a larger number than every earlier id |
| App.Calculator.Render | src/App.tsx:26-35 | a render evaluates the initial list again, so the counter advances by one and its id is discarded; the list is unchanged and the invariant is kept |
| App.Calculator.Add | src/App.tsx:63-74 | the list becomes `AddFunction` of it under the next id, and ids stay distinct and issued |
| App.Calculator.Remove | src/App.tsx:76-78 | the list becomes `RemoveFunction` of it, and the invariant is kept |
| App.Calculator.SetExpression | src/App.tsx:80-84 | the list becomes `UpdateExpression` of it, and the invariant is kept |
| App.Calculator.SetColor | src/App.tsx:86-90 | the list becomes `UpdateColor` of it, and the invariant is kept |
| App.Calculator.Toggle | src/App.tsx:92-96 | the list becomes `ToggleVisibility` of it, and the invariant is kept |

## Left out

- `formatLabel` (canvasRenderer.ts 148-154) is not modelled. It converts floating-point numbers to text with `toExponential` and `toPrecision`. Ticks keep their value and their label's anchor point, not the label text.
- Canvas styling is not modelled: colours, line widths, fonts, text alignment, `clearRect`/`fillRect` and `fillText` itself.
- Pixel snapping (`Math.round(s) + 0.5`) is left out. Strokes are at exact screen coordinates.
- IEEE-754 rounding is not modelled. Numbers are exact reals, and `Math.log10`/`Math.pow` are replaced by the exact `Magnitude`/`Pow10`. The id counter `nextId` is an unbounded `nat`, so the model does not capture that `nextId++` stops advancing at 2^53, where `makeId` would start repeating ids.
- The grid loop's `mx += spacing` is modelled as the exact value k * spacing. The model does not capture floating-point drift in that accumulation.
- The expression library's parser and evaluator are an abstract `compile` parameter. It is assumed deterministic: compiling the same text twice gives the same outcome, and evaluating a compiled function twice at the same x does too. An expression using the library's `random()` can break this: `compiled` and `functionsWithErrors` run their own trial evaluations (src/App.tsx:42, :58), so they could disagree, which `ErrorFreeIffRendered` rules out for the model.
- React is not modelled: `useState`, `useMemo`, `useCallback`, refs and re-rendering. `Calculator` stands for the state `App` keeps, and the emitted viewport stands for the call to `onViewportChange`.
- The viewport's own state (`setViewport`) is not a field of `Calculator`. The viewport is the argument and result of the controller's operations.
- The canvas component's `draw` callback, its `ResizeObserver`, `devicePixelRatio`, canvas sizing, and the guard against a zero-sized canvas are I/O around the renderer and are not modelled.
- `getBoundingClientRect` and `preventDefault` in the wheel handler are not modelled. `Zoom` takes the cursor position relative to the canvas.
- The presentation components (sidebar, function row, expression input, keypad) are outside the model.
- GraphCanvas.ZoomFactor works on reals, so a NaN `deltaY` is not represented. In JavaScript, NaN takes the zoom-in branch.
- GraphCanvas.Pan requires a nonzero scale, where the source would divide by zero. Every viewport the application can reach has a scale in [1, 1e6]; see `DefaultViewportIsReachable` and `ViewportUpdatesKeepScaleInRange`.
- GraphCanvas.Zoom requires a nonzero scale, for the same reason as `Pan`.
- GraphCanvas.PanController.MouseMove requires a nonzero scale, for the same reason as `Pan`.
- GraphCanvas.ScreenToMath requires a nonzero scale, for the same reason as `Pan`.
- CanvasRenderer.RenderGraph requires a positive scale, and so do `DrawGrid`, `DrawAxes` and `DrawFunction`. This covers every reachable viewport, as above.
- GraphCanvas.DragTelescopes assumes the parent applies each emitted viewport before the next mouse event arrives. The handler reads the latest viewport from a ref that is updated on re-render.
- The counter `nextId` is module-level in the source, so it is shared by every mount of `App`. The model makes it a field of the single `Calculator`.
- React decides when `App` renders, and every render runs `makeId` once for the discarded initial list (`Calculator.Render`). The model does not fix how many renders fall between two edits. So ids increase and are never reused, but they are not consecutive. Development-mode double invocation of renders and updaters is one more such call and is not modelled separately.
