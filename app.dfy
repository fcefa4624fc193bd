/**
 * The paint widget of app.py: the stroke list lives in `lines`, and resizing rewrites
 * the strokes one index at a time.
 */
module App {
  import opened Strokes
  import opened Scaling
  import opened StrokeCanvas

  class PaintWidget {
    var lines: seq<Stroke>
    var drawing: bool
    var undoStack: seq<Snapshot>
    var redoStack: seq<Snapshot>

    /** The four fields as one value. */
    function State(): Canvas
      reads this
    {
      Canvas(lines, drawing, undoStack, redoStack)
    }

    constructor ()
      ensures State() == Initial
    {
      lines := [];
      drawing := false;
      undoStack := [];
      redoStack := [];
    }

    /** `repaint` stands for the call to update(). */
    method MousePressEvent(button: Button, pos: Point) returns (repaint: bool)
      modifies this
      ensures State() == Press(old(State()), button, pos)
      ensures repaint <==> button == LeftButton
    {
      repaint := false;
      if button == LeftButton {
        lines := lines + [[pos]];
        drawing := true;
        repaint := true;
      }
    }

    method MouseMoveEvent(pos: Point) returns (raised: Option<Error>, repaint: bool)
      modifies this
      ensures Move(old(State()), pos) == (if raised.Some? then Raised(raised.value) else Done(State()))
      ensures raised.Some? ==> State() == old(State())
      ensures repaint <==> old(drawing) && raised.None?
    {
      raised, repaint := None, false;
      if drawing {
        if lines == [] {
          raised := Some(IndexError);
          return;
        }
        var last := |lines| - 1;
        lines := lines[last := lines[last] + [pos]];
        repaint := true;
      }
    }

    /** The release handler does not ask for a repaint. */
    method MouseReleaseEvent(button: Button)
      modifies this
      ensures State() == Release(old(State()), button)
    {
      if button == LeftButton {
        drawing := false;
        undoStack := undoStack + [lines];
        redoStack := [];
      }
    }

    method PaintEvent() returns (segs: seq<Segment>)
      ensures segs == Segments(lines)
    {
      segs := DrawLines(lines);
    }

    method Undo() returns (repaint: bool)
      modifies this
      ensures State() == StrokeCanvas.Undo(old(State()))
      ensures repaint <==> old(undoStack) != []
    {
      repaint := false;
      if undoStack != [] {
        redoStack := redoStack + [lines];
        lines := undoStack[|undoStack| - 1];
        undoStack := undoStack[..|undoStack| - 1];
        repaint := true;
      }
    }

    method Redo() returns (repaint: bool)
      modifies this
      ensures State() == StrokeCanvas.Redo(old(State()))
      ensures repaint <==> old(redoStack) != []
    {
      repaint := false;
      if redoStack != [] {
        undoStack := undoStack + [lines];
        lines := redoStack[|redoStack| - 1];
        redoStack := redoStack[..|redoStack| - 1];
        repaint := true;
      }
    }

    /**
     * `target` is the size the resize event reports, `current` the widget's own size.
     * Each stroke is replaced in place by its scaled copy, index by index.
     */
    method ResizeEvent(target: Size, current: Size) returns (raised: Option<Error>)
      modifies this
      ensures Resize(old(State()), target, current) ==
                (if raised.Some? then Raised(raised.value) else Done(State()))
      ensures raised.Some? ==> State() == old(State())
    {
      if !Scalable(current) {
        return Some(ZeroDivisionError);
      }
      raised := None;
      ghost var before := lines;
      var i := 0;
      while i < |lines|
        invariant 0 <= i <= |lines| == |before|
        invariant forall k :: 0 <= k < i ==> lines[k] == ScaleStroke(before[k], target, current)
        invariant forall k :: i <= k < |lines| ==> lines[k] == before[k]
        invariant drawing == old(drawing) && undoStack == old(undoStack) && redoStack == old(redoStack)
      {
        lines := lines[i := ScaleStroke(lines[i], target, current)];
        i := i + 1;
      }
      assert lines == ScaleLines(before, target, current);
    }
  }
}
