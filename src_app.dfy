/**
 * The paint widget of src/app.py: the same handlers as in app.py, over a stroke list
 * named `linesBuffer`; resizing rebuilds the whole list with a nested comprehension.
 */
module SrcApp {
  import opened Strokes
  import opened Scaling
  import opened StrokeCanvas

  class PaintWidget {
    var linesBuffer: seq<Stroke>
    var drawing: bool
    var undoStack: seq<Snapshot>
    var redoStack: seq<Snapshot>

    /** The four fields as one value. */
    function State(): Canvas
      reads this
    {
      Canvas(linesBuffer, drawing, undoStack, redoStack)
    }

    constructor ()
      ensures State() == Initial
    {
      linesBuffer := [];
      drawing := false;
      undoStack := [];
      redoStack := [];
    }

    /** `repaint` stands for the call to update(). */
    method MousePressEvent(button: Button, pos: Point) returns (repaint: bool)
      modifies this
      ensures State() == Press(old(State()), button, pos)
      ensures repaint <==> button == LeftButton
    {
      repaint := false;
      if button == LeftButton {
        linesBuffer := linesBuffer + [[pos]];
        drawing := true;
        repaint := true;
      }
    }

    method MouseMoveEvent(pos: Point) returns (raised: Option<Error>, repaint: bool)
      modifies this
      ensures Move(old(State()), pos) == (if raised.Some? then Raised(raised.value) else Done(State()))
      ensures raised.Some? ==> State() == old(State())
      ensures repaint <==> old(drawing) && raised.None?
    {
      raised, repaint := None, false;
      if drawing {
        if linesBuffer == [] {
          raised := Some(IndexError);
          return;
        }
        var last := |linesBuffer| - 1;
        linesBuffer := linesBuffer[last := linesBuffer[last] + [pos]];
        repaint := true;
      }
    }

    /** The release handler does not ask for a repaint. */
    method MouseReleaseEvent(button: Button)
      modifies this
      ensures State() == Release(old(State()), button)
    {
      if button == LeftButton {
        drawing := false;
        undoStack := undoStack + [linesBuffer];
        redoStack := [];
      }
    }

    method PaintEvent() returns (segs: seq<Segment>)
      ensures segs == Segments(linesBuffer)
    {
      segs := DrawLines(linesBuffer);
    }

    method Undo() returns (repaint: bool)
      modifies this
      ensures State() == StrokeCanvas.Undo(old(State()))
      ensures repaint <==> old(undoStack) != []
    {
      repaint := false;
      if undoStack != [] {
        redoStack := redoStack + [linesBuffer];
        linesBuffer := undoStack[|undoStack| - 1];
        undoStack := undoStack[..|undoStack| - 1];
        repaint := true;
      }
    }

    method Redo() returns (repaint: bool)
      modifies this
      ensures State() == StrokeCanvas.Redo(old(State()))
      ensures repaint <==> old(redoStack) != []
    {
      repaint := false;
      if redoStack != [] {
        undoStack := undoStack + [linesBuffer];
        linesBuffer := redoStack[|redoStack| - 1];
        redoStack := redoStack[..|redoStack| - 1];
        repaint := true;
      }
    }

    /**
     * `target` is the size the resize event reports, `current` the widget's own size.
     * A fresh stroke list is built and assigned to the field.
     */
    method ResizeEvent(target: Size, current: Size) returns (raised: Option<Error>)
      modifies this
      ensures Resize(old(State()), target, current) ==
                (if raised.Some? then Raised(raised.value) else Done(State()))
      ensures raised.Some? ==> State() == old(State())
    {
      if !Scalable(current) {
        return Some(ZeroDivisionError);
      }
      raised := None;
      linesBuffer := ScaleLines(linesBuffer, target, current);
    }
  }
}
