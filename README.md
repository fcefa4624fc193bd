# Stroke model of the paint widget

`PaintWidget` in paintmaxxing is a freehand drawing surface. A left-button drag
records a stroke as a list of integer points. The strokes are drawn as line
segments between consecutive points. Ctrl+Z and Ctrl+Y undo and redo whole
stroke-list snapshots. A resize rescales every point of the visible strokes.
The repository holds two copies of this widget: `app.py` keeps the strokes in
`lines`; `src/app.py` keeps them in `lines_buffer` and rebuilds the list with a
comprehension on resize.

The Dafny project has these modules:

- `Strokes` (strokes.dfy): points, strokes and segments. `Segments` lists what a
  paint pass draws. `DrawLines` is the nested paint loop, proved equal to `Segments`.
- `Scaling` (scaling.dfy): the resize map. `ScaleCoord` is `int(v * new / current)`
  in exact rational arithmetic, truncated toward zero.
- `StrokeCanvas` (canvas.dfy): the widget state as a value (`Canvas`: strokes,
  drawing flag, undo stack, redo stack) and one function per handler. Handlers
  that can raise a Python exception return an `Outcome`: either `Done` with the new
  state or `Raised` with the error. Both such handlers raise before they change
  anything.
- `EventTrace` (traces.dfy): event sequences (`Run`) and the properties that span
  several events.
- `App` (app.dfy) and `SrcApp` (src_app.dfy): one class per source file, with the
  four fields and one method per handler. Each method is proved to move the state
  exactly as the matching `StrokeCanvas` function says. So both files implement
  the same state machine, including the two different resize implementations.
  The `repaint` out-parameters say when the handler calls `update()`.

Points to note about the code:

- The undo snapshot is taken when a stroke is finished, on left release. So the
  first undo after a release pops the snapshot just pushed and the visible strokes
  do not change (`StrokeCanvas.UndoAfterRelease`).
- A left release pushes a snapshot even when no press came before it.
- Snapshots are not rescaled on resize. An undo after a resize brings back the old
  coordinates (`StrokeCanvas.UndoAfterResize`).
- `mouseMoveEvent` takes `lines[-1]` without a guard. It raises `IndexError` when
  the drag flag is set over an empty stroke list. A release without a press,
  followed by press, undo and move, reaches that state from a fresh widget
  (`EventTrace.MoveAfterUndoMidDragRaises`).
- `resizeEvent` divides by the widget's current width and height without a guard.
  The model raises `ZeroDivisionError` there and keeps the state as it was.
- `list.copy()` is shallow (see "Left out").

## Model

| member | source | states |
|---|---|---|
| `App.PaintWidget.constructor` | app.py:17-20 | A new widget has no strokes, is not drawing, and has empty undo and redo stacks. |
| `App.PaintWidget.MousePressEvent` | app.py:34-37 | The new state is `Press` of the old one; repaint is asked for exactly on a left press. |
| `App.PaintWidget.MouseMoveEvent` | app.py:44-46 | The outcome is `Move` of the old state; a raise changes nothing; repaint is asked for exactly when drawing and nothing raised. |
| `App.PaintWidget.MouseReleaseEvent` | app.py:53-56 | The new state is `Release` of the old one. |
| `App.PaintWidget.PaintEvent` | app.py:66-68 | The segments drawn are exactly `Segments` of the stroke list. |
| `App.PaintWidget.Undo` | app.py:76-79 | The new state is `StrokeCanvas.Undo` of the old one; repaint is asked for exactly when the undo stack was non-empty. |
| `App.PaintWidget.Redo` | app.py:85-88 | The new state is `StrokeCanvas.Redo` of the old one; repaint is asked for exactly when the redo stack was non-empty. |
| `App.PaintWidget.ResizeEvent` | app.py:95-99 | The index loop that replaces each stroke in place yields exactly `Resize` of the old state; a zero current dimension raises and changes nothing. |
| `SrcApp.PaintWidget.constructor` | src/app.py:17-20 | A new widget has an empty `linesBuffer`, is not drawing, and has empty stacks. |
| `SrcApp.PaintWidget.MousePressEvent` | src/app.py:34-37 | The new state is `Press` of the old one, on `linesBuffer`; repaint exactly on a left press. |
| `SrcApp.PaintWidget.MouseMoveEvent` | src/app.py:44-46 | The outcome is `Move` of the old state, on `linesBuffer`; a raise changes nothing. |
| `SrcApp.PaintWidget.MouseReleaseEvent` | src/app.py:53-56 | The new state is `Release` of the old one, on `linesBuffer`. |
| `SrcApp.PaintWidget.PaintEvent` | src/app.py:66-68 | The segments drawn are exactly `Segments` of `linesBuffer`. |
| `SrcApp.PaintWidget.Undo` | src/app.py:76-79 | The new state is `StrokeCanvas.Undo` of the old one, on `linesBuffer`. |
| `SrcApp.PaintWidget.Redo` | src/app.py:85-88 | The new state is `StrokeCanvas.Redo` of the old one, on `linesBuffer`. |
| `SrcApp.PaintWidget.ResizeEvent` | src/app.py:95-101 | Assigning the comprehension's fresh list yields exactly `Resize` of the old state; a zero current dimension raises and changes nothing. |
| `StrokeCanvas.Press` | app.py:34-36 | A left press appends exactly `[pos]`, keeps the earlier strokes and both stacks, and sets drawing. Any other button changes nothing. |
| `StrokeCanvas.Move` | app.py:44-45 | While drawing, `pos` goes onto the last stroke only; the stroke count, the other strokes, the flag and both stacks stay. Not drawing: nothing changes. It raises `IndexError` exactly when drawing over an empty stroke list. |
| `StrokeCanvas.Release` | app.py:53-56 | A left release clears drawing, keeps the strokes, pushes a copy of them (one more entry, the new top equal to the strokes), and empties the redo stack. Any other button changes nothing. |
| `StrokeCanvas.Undo` | app.py:76-78 | An empty undo stack changes nothing. Otherwise the old strokes go on top of the redo stack, the popped top becomes the strokes, and the undo stack loses its top. The flag and the sum of the stack sizes are kept. |
| `StrokeCanvas.Redo` | app.py:85-87 | The mirror of `Undo`: an empty redo stack changes nothing; otherwise the old strokes go onto the undo stack and the popped redo top is loaded. The flag and the stack-size sum are kept. |
| `StrokeCanvas.Resize` | app.py:95-99 | A zero current width or height raises `ZeroDivisionError`, and only then. Otherwise the stroke count and each stroke's length are kept, every point goes through the same `ScalePoint` map, and the flag and both stacks are untouched. |
| `StrokeCanvas.UndoThenRedo` | app.py:72-88 | With a non-empty undo stack, undo then redo restores strokes, flag and both stacks. |
| `StrokeCanvas.RedoThenUndo` | src/app.py:72-88 | With a non-empty redo stack, redo then undo restores strokes, flag and both stacks. |
| `StrokeCanvas.UndoAfterRelease` | app.py:53-78 | Right after a left release, undo leaves the strokes and the earlier undo stack as they were and puts the strokes alone on the redo stack. |
| `StrokeCanvas.RedoAfterRelease` | src/app.py:53-88 | After a left release the redo stack is empty, so redo does nothing. |
| `StrokeCanvas.ResizeToCurrentSize` | app.py:95-99 | A resize whose reported size equals the widget's current size leaves the whole state unchanged. |
| `StrokeCanvas.UndoAfterResize` | src/app.py:76-101 | Snapshots are not rescaled: undo after a resize loads the unscaled top snapshot. |
| `Strokes.StrokeSegments` | app.py:67-68 | One stroke yields `max(len - 1, 0)` segments, the i-th from `line[i]` to `line[i + 1]`. |
| `Strokes.Segments` | app.py:66-68 | The definition of what the paint loop enumerates: each stroke's `StrokeSegments`, stroke after stroke. Its contract states that every segment joins two consecutive points of one stroke; its count and order are stated by `SegmentCount` and `SegmentsAt`. |
| `Strokes.SegmentCount` | src/app.py:66-68 | The total segment count is the sum over strokes of `max(len - 1, 0)`. |
| `Strokes.SegmentsAppend` | src/app.py:66-68 | One more stroke appends exactly its own segments after those already drawn. |
| `Strokes.SegmentsAt` | app.py:66-68 | Pair i of stroke s is drawn at position (pairs of the strokes before s) + i: strokes in order, pairs in order within each. |
| `Strokes.DrawLines` | app.py:66-68 | The nested loop over strokes and `range(len(line) - 1)` draws exactly `Segments`. |
| `Scaling.ScaleCoord` | app.py:99 | The result is the exact product `v * new / current` truncated toward zero: it lies less than one step from the product, on the side of zero. |
| `Scaling.ScalePoint` | app.py:99 | The definition of the per-point `QPoint(int(p.x() * width_scale), int(p.y() * height_scale))`. Its contract states that x depends only on the width ratio and y only on the height ratio, each through `ScaleCoord`, and that the point is unchanged when the two sizes agree. The rounding itself is stated by `ScaleCoord`. |
| `Scaling.ScaleStroke` | app.py:99 | The inner comprehension keeps the stroke's length and maps each point through `ScalePoint`. |
| `Scaling.ScaleLines` | src/app.py:98-101 | The rebuilt list has the same number of strokes, the same length per stroke, and every point goes through the same map. |
| `Scaling.ScaleCoordUnit` | app.py:95-99 | A ratio of one leaves a coordinate unchanged. |
| `Scaling.ScaleLinesUnit` | src/app.py:95-101 | Scaling to the current size gives back the same stroke list. |
| `Scaling.HalvingExample` | app.py:95-99 | Resizing 800x600 to 400x300 maps (100, 100) to (50, 50). |
| `EventTrace.UndoRedoRoundTrip` | app.py:72-88 | k undos then k redos restore the whole state whenever the undo stack holds at least k snapshots. |
| `EventTrace.IgnoredEventsChangeNothing` | app.py:34-56 | When no drag is in progress, presses and releases of other buttons and moves leave the state exactly as it was: no new stroke, no snapshot. |
| `EventTrace.IgnoredEventsAddNothing` | app.py:34-56 | Even during a drag, presses and releases of other buttons and moves keep the stroke count and both stacks: no new stroke, no new snapshot. |
| `EventTrace.DrawingKeepsHistory` | src/app.py:34-46 | Presses and moves never change a stored snapshot; the stroke count only grows and the strokes before the last stay the same. |
| `EventTrace.StrokeCapture` | app.py:34-56 | Press (10, 10), move (20, 10), release gives one stroke `[(10,10), (20,10)]`, one snapshot and an empty redo stack. |
| `EventTrace.MoveAfterUndoMidDragRaises` | app.py:44-78 | From a fresh widget, release, press, undo and move raise `IndexError`. |

## Left out

- Qt plumbing is not modelled: the shortcut wiring, the application bootstrap and
  the initial `resize(800, 600)`, the painter and pen set-up, and `super().resizeEvent`.
  `update()` appears only as the `repaint` out-parameters.
- Pixels, pen width and colour are not modelled. Painting is modelled as the list of
  segments it draws.
- `Scaling.ScaleCoord`: models `int(p.x() * width_scale)` with exact rational
  arithmetic. The source uses Python floats, so float rounding can differ by one in
  rare cases. That rounding is not modelled.
- Coordinates are unbounded integers. QPoint's 32-bit range and any overflow on a
  large upscale are not modelled.
- The scale factors are parameters: the size the resize event reports and the
  widget's current size. The model does not derive them from the toolkit. Inside
  a resize event, Qt already reports the new size as the widget's size, so the two
  are usually equal; `StrokeCanvas.ResizeToCurrentSize` covers that case.
- Shallow copies: `list.copy()` shares the inner stroke lists with the stored
  snapshots. The model's sequences are values, so snapshots are fully isolated.
  The two agree except when undo or redo fires during a drag. In the source, later
  moves then also extend the shared last stroke inside stored snapshots; in the
  model they do not.
- What happens after an exception escapes a handler is not modelled. `EventTrace.Run`
  stops at the first raise, because PyQt5 (from 5.5 on) aborts the process on an
  exception that escapes an event handler.
