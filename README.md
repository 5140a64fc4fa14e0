# Freehand drawing surface: a Dafny model

This project models the core of a browser drawing page (`script.js`). The page
captures pointer input, keeps the strokes drawn so far, and supports undo and redo.
It draws onto a fixed 900×600 canvas over a plain, lined or grid background. It can
also re-render every stroke in a smoothed form ("optimize handwriting").

The model has four modules:

- `Strokes` (`strokes.dfy`): the point record a pointer event produces (`Point`,
  `CreatePoint`, modelling `createPoint`, script.js:50-58) and strokes as sequences of points.
- `Canvas` (`canvas.dfy`): the 2D context as an ordered log of commands (`Cmd`):
  clear, fill, style and width settings, global alpha, path construction (`MoveTo`,
  `LineTo`, `QuadTo`) and `Stroke`. Beside the log are three readings of it:
  - `Vertices` and `Controls` give the path geometry;
  - `Run` gives the context state the log leaves behind (stroke colour, line width, alpha);
  - `Painted` gives the state in effect at each `Stroke` command, which is how that stroke looks.
- `Render` (`render.dfy`): the renderers. Each one has a specification function that
  returns the log it issues (`StrokeCmds`, `SmoothCmds`, `BackgroundCmds`,
  `RedrawAllCmds`, `OptimizeCmds`, `RedrawTempCmds`). Each also has a method with the
  source's loops, proved to issue exactly that log. Lemmas state what the logs draw.
- `Session` (`session.dfy`): the page's module-level state, as the class
  `DrawingSession`. Its fields mirror `drawing`, `strokes`, `currentStroke`, `history`,
  `redoStack`, `brushType`, `color` and `size`. A ghost field `pen` tracks the context
  state. Each event handler is a method. It is tied to a transition function on the
  `State` datatype (`PointerDownStep`, `UndoStep`, …). The undo and redo properties
  are lemmas about those functions.

Undo snapshots are plain values. The source copies the stroke list through
`JSON.stringify`/`JSON.parse`, and Dafny sequences are values, so the copy is exact.
The canvas style that `redrawTemp`, `undo`, `redo` and `optimizeHandwriting` read from
the page becomes a `style` parameter. The tool values come in as method parameters.
The page's first `drawBackground("plain")` (script.js:200) is the log that the
`DrawingSession` constructor runs through `pen`.

Behaviour that the proofs make explicit:

- `smoothStroke` never sets the global alpha. Between events the alpha is always 1
  (`Valid()`), so smoothed strokes of three or more points are painted opaque,
  whatever their brush (`Render.OptimizePaint`).
- Background rules are drawn with the line width of the last stroke drawn before them.
  The model records this in `Run` but states nothing about it.
- `pointerup` neither checks `drawing` nor clears `currentStroke`, so a second
  `pointerup` with no `pointerdown` in between appends the same stroke again
  (`Session.PointerUpCommits`). A committed stroke is therefore not guaranteed to be
  committed once.
- A point records its position and the tool settings only; `createPoint` stores no
  timestamp, and `Point` has no such field.

## Model

| member | source | states |
|---|---|---|
| `Render.BrushAlpha` | script.js:90-92 | opacity is 0.3 exactly for "marker", 0.6 exactly for "pencil", 1 for every other brush |
| `Render.DrawStroke` | script.js:75-96 | the loop issues exactly the drawStroke log |
| `Render.DrawStrokeGeometry` | script.js:75-83 | nothing is drawn below two points; otherwise MoveTo the first point then LineTo every later point in order, so the vertices are the stroke's coordinates and there are no curves |
| `Render.DrawStrokePaint` | script.js:85-95 | the single stroke is painted with the first point's colour and size and its brush opacity; alpha is 1 afterwards |
| `Render.SmoothStroke` | script.js:108-131 | the loop issues exactly the smoothStroke log |
| `Render.CurvesAt` | script.js:117-121 | the k-th curve bends towards inner point k and ends at the midpoint of points k and k+1 |
| `Render.SmoothStrokeGeometry` | script.js:108-124 | below three points it is drawStroke; otherwise the log is, position by position, BeginPath, MoveTo the first point, for each i from 1 to n-3 a QuadTo with control point i ending at the midpoint of points i and i+1, then LineTo the last point; so the vertices are first point, inner midpoints, last point and the control points are the 2nd to (n-2)th points |
| `Render.SmoothThreePoints` | script.js:117-124 | with three points only the first and last points are vertices and no curve is drawn |
| `Render.SmoothStrokePaint` | script.js:126-130 | the stroke is painted with the first point's colour, 90% of its size and the alpha already in effect, which is left unchanged |
| `Render.SmoothPaintOne` | script.js:108-131 | starting at opacity 1, a smoothed stroke paints at opacity 1 and 90% width, a two-point stroke with its brush opacity, and opacity is 1 afterwards |
| `Render.DrawRules` | script.js:175-179 | a `t = 40; t < limit; t += 40` loop issues one four-command rule per visited position, in order |
| `Render.DrawBackground` | script.js:168-197 | the method issues exactly the drawBackground log |
| `Render.TicksShape` | script.js:184 | the loop visits start, start+40, … below the limit: ⌈(limit-start)/40⌉ positions |
| `Render.HorizontalRules` | script.js:175-180 | the horizontal rules are the 14 lines y = 40, 80, …, 560 across the full width |
| `Render.VerticalRules` | script.js:184-189 | the vertical rules are the 22 lines x = 40, …, 880 across the full height |
| `Render.BackgroundLines` | script.js:174-196 | "lined" draws the 14 horizontals and no vertical; "grid" draws the 22 verticals then the 14 horizontals; any other style draws no rule |
| `Render.RulesCmdsShape` | script.js:176-179 | each rule is exactly BeginPath, MoveTo(start), LineTo(end), Stroke, in rule order |
| `Render.BackgroundPaint` | script.js:169-172 | the whole surface is filled white first; every rule is stroked in the rule grey with the alpha in effect, which is left unchanged |
| `Render.RedrawAll` | script.js:68-73 | the method issues exactly the redrawAll log |
| `Render.StrokesGeometry` | script.js:72 | redrawing traces the coordinates of every stroke of two or more points, in list order; shorter strokes add nothing |
| `Render.StrokesPaint` | script.js:72 | each drawable stroke is painted once with its own recorded colour, size and brush opacity, whatever was in effect; alpha 1 before means alpha 1 after |
| `Render.RedrawAllPaint` | script.js:68-73 | starting at alpha 1: clear first, background rules in grey at alpha 1, then the strokes' own settings; alpha 1 at the end |
| `Render.OptimizeHandwriting` | script.js:101-106 | the method issues exactly the optimizeHandwriting log |
| `Render.OptimizePaint` | script.js:101-106 | starting at alpha 1: clear first, background, then smoothed strokes at alpha 1 and 90% width, two-point strokes with their brush opacity; alpha 1 at the end |
| `Render.RedrawTemp` | script.js:63-66 | the method issues a full redraw followed by the stroke in progress |
| `Strokes.CreatePoint` | script.js:50-58 | the record sits at the event's position and carries the colour, size and brush passed in |
| `Session.PointerDownStep` | script.js:28-34 | pointerdown starts a gesture with a one-point stroke, keeps the strokes, adds one snapshot and empties the redo stack |
| `Session.PointerMoveStep` | script.js:36-41 | pointermove changes nothing but the stroke in progress, which it extends by one point exactly when a gesture is on, keeping its earlier points |
| `Session.PointerUpStep` | script.js:43-48 | pointerup ends the gesture, keeps the stroke in progress and both stacks, and extends the committed strokes by one exactly when the stroke in progress has points, keeping the earlier ones |
| `Session.SaveStateStep` | script.js:136-139 | saveState leaves the gesture flag and the stroke in progress alone |
| `Session.UndoStep` | script.js:141-146 | undo keeps the total number of snapshots and leaves the gesture alone |
| `Session.RedoStep` | script.js:148-153 | redo keeps the total number of snapshots and leaves the gesture alone |
| `Session.SaveStateSnapshot` | script.js:136-139 | saveState pushes a copy of the strokes, keeps them, clears the redo stack; undo right after gives back the same strokes and history |
| `Session.EmptyStacksAreNoops` | script.js:141-153 | undo with no history and redo with an empty redo stack change no state at all |
| `Session.UndoMovesOneSnapshot` | script.js:141-146 | undo restores the top snapshot, pops it, and pushes the old strokes onto the redo stack |
| `Session.RedoMovesOneSnapshot` | script.js:148-153 | redo restores the top redo snapshot, pops it, and pushes the old strokes onto the history |
| `Session.UndoThenRedo` | script.js:141-153 | undo followed by redo restores strokes, history and redo stack exactly |
| `Session.RedoThenUndo` | script.js:141-153 | redo followed by undo restores strokes, history and redo stack exactly |
| `Session.UndosThenRedos` | script.js:141-153 | k undos followed by k redos come back to the same state whenever the history holds k snapshots |
| `Session.StepStackSizes` | script.js:136-153 | every event but pointerdown keeps the number of snapshots; pointerdown adds one to the history and empties the redo stack |
| `Session.PointerDownStartsGesture` | script.js:28-34 | pointerdown sets the gesture flag, snapshots the pre-gesture strokes, clears the redo stack (so redo is a no-op), and the stroke is exactly one point with the current colour, size and brush |
| `Session.PointerMoveExtends` | script.js:36-41 | outside a gesture pointermove changes nothing; during one it appends exactly one point and changes nothing else |
| `Session.PointerUpCommits` | script.js:43-48 | pointerup appends the stroke in progress exactly when it is non-empty, ends the gesture, keeps the stroke; a second pointerup appends it again |
| `Session.MovesAppend` | script.js:36-41 | during a gesture a run of moves appends its points in order and changes nothing else |
| `Session.GestureCommitsOneStroke` | script.js:28-48 | a full gesture commits one stroke with the down point and every move point in order, one new snapshot, an empty redo stack; undo removes the stroke and redo restores the state exactly |
| `Session.ThreePointGesture` | script.js:28-48 | down at (10,10), moves to (20,10) and (20,20), up: one new three-point stroke; undo removes it, redo restores it |
| `Session.NewGestureDiscardsRedo` | script.js:136-139 | after an undo, a new gesture makes redo a no-op |
| `Session.StepConsistent` | script.js:28-48 | every event preserves the invariant: a gesture's stroke has its first point, and no committed or snapshotted stroke is empty |
| `Session.ReplayConsistent` | script.js:28-153 | any sequence of events preserves that invariant |
| `Session.RedrawTempAlpha` | script.js:63-66 | redrawTemp ends at alpha 1 when it starts at alpha 1 |
| `Session.DrawingSession.constructor` | script.js:7-17 | the initial state: not drawing, no strokes, empty stacks, pen, "#111", size 3; the plain background has been drawn |
| `Session.DrawingSession.SetBrushType` | script.js:20 | only the brush type changes |
| `Session.DrawingSession.SetColor` | script.js:21 | only the colour changes |
| `Session.DrawingSession.SetSize` | script.js:22 | only the size changes |
| `Session.DrawingSession.SaveState` | script.js:136-139 | the new state is saveState's transition of the old one |
| `Session.DrawingSession.PointerDown` | script.js:28-34 | the new state is pointerdown's transition; the invariant is kept |
| `Session.DrawingSession.PointerMove` | script.js:36-41 | the new state is pointermove's transition; during a gesture it issues the redrawTemp log, otherwise nothing; alpha stays 1 |
| `Session.DrawingSession.PointerUp` | script.js:43-48 | the new state is pointerup's transition; the invariant is kept |
| `Session.DrawingSession.Undo` | script.js:141-146 | the new state is undo's transition; it redraws the restored strokes only when there was history; alpha stays 1 |
| `Session.DrawingSession.Redo` | script.js:148-153 | the new state is redo's transition; it redraws the restored strokes only when there was a redo snapshot; alpha stays 1 |
| `Session.DrawingSession.ChangeStyle` | script.js:23 | a background-style change issues a full redraw of the current strokes; alpha stays 1 |
| `Session.DrawingSession.OptimizeHandwriting` | script.js:101-106 | issues the optimizeHandwriting log for the current strokes; state unchanged; alpha stays 1 |

## Left out

- DOM element lookups and the wiring of the UI controls (script.js:1-2, 19-23). Tool values and the canvas style are method parameters.
- `saveImage` (script.js:158-163): it exports through the browser's `toDataURL` and a link click, which is outside the model.
- Rasterisation: the model is the ordered command log and never pixels. `lineCap`, `lineJoin` and `fillStyle` appear in the log but not in `Pen`.
- `JSON.stringify`/`JSON.parse` internals: the pair is treated as an exact copy of the stroke list. The stroke that `pointerup` pushes is the same array object as `currentStroke`. The next `pointerdown` always replaces `currentStroke` with a fresh array, so this aliasing is never observable, and the model uses values.
- Event-loop dispatch: each event is one sequential method call.
- Floating point: coordinates are integers, and midpoints and the smoothed width `size * 0.9` are exact reals, not IEEE doubles. `size` arrives from the page as a string and is coerced implicitly; the model takes it as an `int`.
- Render.BackgroundPaint: does not state the line width of the rule lines. drawBackground never sets it, so it inherits whatever the last stroke left.
- Render.SmoothStrokePaint: does not state a brush-dependent alpha, because smoothStroke never sets `globalAlpha`. It states that the alpha already in effect is used.
- Undo and redo work on stroke lists only; `script.js` keeps no raster snapshots of the canvas, and neither does the model.
- Canvas.Apply: every `SetStrokeStyle`, `SetLineWidth` and `SetAlpha` is assumed to take effect. A browser ignores a line width that is zero, negative or NaN, and a colour string it cannot parse. So for a point size of 0 or less, or an unparsable colour, the width or colour that Render.DrawStrokePaint, Render.SmoothStrokePaint, Render.StrokesPaint and Render.OptimizePaint claim is not what a browser paints with; it keeps the previous value.
