/**
 * The state of the paint widget as a value, and one function per event handler.
 * Stacks are Python lists used through append and pop: the top is the last element.
 * A handler that raises does so before it touches any field, so a raise leaves the
 * state as it was; `Outcome` tells the two apart.
 */
module StrokeCanvas {
  import opened Strokes
  import opened Scaling

  /** A copy of the stroke list, as stored on the undo and redo stacks. */
  type Snapshot = seq<Stroke>

  /** The button a press or release event reports; only the left one draws. */
  datatype Button = LeftButton | RightButton | MiddleButton | ExtraButton(index: nat)

  /** The Python exceptions the handlers can raise. */
  datatype Error = IndexError | ZeroDivisionError

  datatype Option<T> = None | Some(value: T)

  /** Visible strokes, the drag flag, and the two history stacks. */
  datatype Canvas = Canvas(lines: Snapshot, drawing: bool, undoStack: seq<Snapshot>, redoStack: seq<Snapshot>)

  /** What a handler that can raise leaves behind. */
  datatype Outcome = Done(canvas: Canvas) | Raised(error: Error)

  /** The state right after construction: no strokes, not drawing, empty history. */
  const Initial: Canvas := Canvas([], false, [], [])

  /** Left press: a new one-point stroke at the end, and the drag begins. */
  function Press(c: Canvas, button: Button, pos: Point): (r: Canvas)
    ensures button == LeftButton ==>
              |r.lines| == |c.lines| + 1 && r.lines[..|c.lines|] == c.lines &&
              r.lines[|c.lines|] == [pos] && r.drawing
    ensures button == LeftButton ==> r.undoStack == c.undoStack && r.redoStack == c.redoStack
    ensures button != LeftButton ==> r == c
  {
    if button == LeftButton then c.(lines := c.lines + [[pos]], drawing := true) else c
  }

  /**
   * Move: while drawing, the position is appended to the last stroke only. The last
   * stroke is taken without a check, so drawing over an empty list raises IndexError.
   */
  function Move(c: Canvas, pos: Point): (r: Outcome)
    ensures r.Raised? <==> c.drawing && c.lines == []
    ensures r.Raised? ==> r.error == IndexError
    ensures !c.drawing ==> r == Done(c)
    ensures r.Done? && c.drawing ==>
              var d := r.canvas;
              |d.lines| == |c.lines| &&
              (forall i :: 0 <= i < |c.lines| - 1 ==> d.lines[i] == c.lines[i]) &&
              d.lines[|c.lines| - 1] == c.lines[|c.lines| - 1] + [pos] &&
              d.drawing && d.undoStack == c.undoStack && d.redoStack == c.redoStack
  {
    if !c.drawing then Done(c)
    else if c.lines == [] then Raised(IndexError)
    else
      var last := |c.lines| - 1;
      Done(c.(lines := c.lines[last := c.lines[last] + [pos]]))
  }

  /**
   * Left release: the drag ends, a copy of the stroke list as it is now (the stroke
   * just finished included) goes on the undo stack, and redo history is dropped.
   * This happens whether or not a press came first.
   */
  function Release(c: Canvas, button: Button): (r: Canvas)
    ensures button == LeftButton ==>
              !r.drawing && r.lines == c.lines &&
              |r.undoStack| == |c.undoStack| + 1 && r.undoStack[..|c.undoStack|] == c.undoStack &&
              r.undoStack[|c.undoStack|] == c.lines && r.redoStack == []
    ensures button != LeftButton ==> r == c
  {
    if button == LeftButton then
      c.(drawing := false, undoStack := c.undoStack + [c.lines], redoStack := [])
    else c
  }

  /**
   * Undo: with history, the current strokes go on the redo stack and the top of the
   * undo stack becomes the current strokes; with none, nothing happens.
   */
  function Undo(c: Canvas): (r: Canvas)
    ensures c.undoStack == [] ==> r == c
    ensures c.undoStack != [] ==>
              r.lines == c.undoStack[|c.undoStack| - 1] &&
              r.undoStack == c.undoStack[..|c.undoStack| - 1] &&
              r.redoStack == c.redoStack + [c.lines]
    ensures r.drawing == c.drawing
    ensures |r.undoStack| + |r.redoStack| == |c.undoStack| + |c.redoStack|
  {
    if c.undoStack == [] then c
    else
      var top := |c.undoStack| - 1;
      c.(lines := c.undoStack[top], undoStack := c.undoStack[..top], redoStack := c.redoStack + [c.lines])
  }

  /** Redo: the mirror image of Undo, between the redo and the undo stack. */
  function Redo(c: Canvas): (r: Canvas)
    ensures c.redoStack == [] ==> r == c
    ensures c.redoStack != [] ==>
              r.lines == c.redoStack[|c.redoStack| - 1] &&
              r.redoStack == c.redoStack[..|c.redoStack| - 1] &&
              r.undoStack == c.undoStack + [c.lines]
    ensures r.drawing == c.drawing
    ensures |r.undoStack| + |r.redoStack| == |c.undoStack| + |c.redoStack|
  {
    if c.redoStack == [] then c
    else
      var top := |c.redoStack| - 1;
      c.(lines := c.redoStack[top], redoStack := c.redoStack[..top], undoStack := c.undoStack + [c.lines])
  }

  /**
   * Resize: both scale factors are computed first, so a zero current width or height
   * raises ZeroDivisionError before anything changes; otherwise every point of the
   * current strokes is mapped, and the stored snapshots keep their old coordinates.
   */
  function Resize(c: Canvas, target: Size, current: Size): (r: Outcome)
    ensures r.Raised? <==> !Scalable(current)
    ensures r.Raised? ==> r.error == ZeroDivisionError
    ensures r.Done? ==>
              var d := r.canvas;
              |d.lines| == |c.lines| &&
              (forall i :: 0 <= i < |c.lines| ==> |d.lines[i]| == |c.lines[i]|) &&
              (forall i, j :: 0 <= i < |c.lines| && 0 <= j < |c.lines[i]| ==>
                 d.lines[i][j] == ScalePoint(c.lines[i][j], target, current)) &&
              d.drawing == c.drawing && d.undoStack == c.undoStack && d.redoStack == c.redoStack
  {
    if !Scalable(current) then Raised(ZeroDivisionError)
    else Done(c.(lines := ScaleLines(c.lines, target, current)))
  }

  /** Undo followed by redo puts every field back. */
  lemma UndoThenRedo(c: Canvas)
    requires c.undoStack != []
    ensures Redo(Undo(c)) == c
  {
  }

  /** Redo followed by undo puts every field back. */
  lemma RedoThenUndo(c: Canvas)
    requires c.redoStack != []
    ensures Undo(Redo(c)) == c
  {
  }

  /**
   * The snapshot is taken after the stroke is finished, so the first undo after a
   * left release pops that same snapshot and the visible strokes stay as they are.
   */
  lemma UndoAfterRelease(c: Canvas)
    ensures Undo(Release(c, LeftButton)).lines == c.lines
    ensures Undo(Release(c, LeftButton)).undoStack == c.undoStack
    ensures Undo(Release(c, LeftButton)).redoStack == [c.lines]
  {
  }

  /** A finished stroke empties the redo stack, so a redo right after it does nothing. */
  lemma RedoAfterRelease(c: Canvas)
    ensures Redo(Release(c, LeftButton)) == Release(c, LeftButton)
  {
  }

  /** An event that reports the widget's current size leaves the strokes unchanged. */
  lemma ResizeToCurrentSize(c: Canvas, size: Size)
    requires Scalable(size)
    ensures Resize(c, size, size) == Done(c)
  {
    ScaleLinesUnit(c.lines, size);
  }

  /**
   * Snapshots are not rescaled: an undo after a resize restores the coordinates the
   * strokes had before the resize.
   */
  lemma UndoAfterResize(c: Canvas, target: Size, current: Size)
    requires Scalable(current) && c.undoStack != []
    ensures Undo(Resize(c, target, current).canvas).lines == c.undoStack[|c.undoStack| - 1]
  {
  }
}
