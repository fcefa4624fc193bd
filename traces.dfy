/**
 * Sequences of widget events: the events Qt delivers to the handlers and the two
 * shortcuts. A handler that raises ends the run (PyQt5 aborts on an exception that
 * escapes a reimplemented event handler).
 */
module EventTrace {
  import opened Strokes
  import opened Scaling
  import opened StrokeCanvas

  datatype Event =
    | MousePress(button: Button, pos: Point)
    | MouseMove(pos: Point)
    | MouseRelease(button: Button)
    | UndoShortcut
    | RedoShortcut
    | Resized(target: Size, current: Size)

  /** One event, dispatched to its handler. */
  function Step(c: Canvas, e: Event): Outcome {
    match e
    case MousePress(b, p) => Done(Press(c, b, p))
    case MouseMove(p) => Move(c, p)
    case MouseRelease(b) => Done(Release(c, b))
    case UndoShortcut => Done(Undo(c))
    case RedoShortcut => Done(Redo(c))
    case Resized(t, s) => Resize(c, t, s)
  }

  /** The events in order, stopping at the first one that raises. */
  function Run(c: Canvas, events: seq<Event>): Outcome
    decreases |events|
  {
    if events == [] then Done(c)
    else
      match Step(c, events[0])
      case Raised(err) => Raised(err)
      case Done(d) => Run(d, events[1..])
  }

  /** k copies of one event. */
  function Repeat(e: Event, k: nat): (r: seq<Event>)
    ensures |r| == k
    ensures forall i :: 0 <= i < k ==> r[i] == e
  {
    if k == 0 then [] else [e] + Repeat(e, k - 1)
  }

  /** Running two traces back to back is running the second from where the first ends. */
  lemma {:induction false} RunConcat(c: Canvas, first: seq<Event>, second: seq<Event>)
    ensures Run(c, first + second) ==
              match Run(c, first)
              case Raised(err) => Raised(err)
              case Done(d) => Run(d, second)
    decreases first
  {
    if first == [] {
      assert first + second == second;
    } else {
      assert (first + second)[0] == first[0];
      assert (first + second)[1..] == first[1..] + second;
      match Step(c, first[0])
      case Raised(err) =>
      case Done(d) => RunConcat(d, first[1..], second);
    }
  }

  /**
   * k undos followed by k redos restore strokes, flag and both stacks, as long as the
   * undo stack holds at least k snapshots.
   */
  lemma {:induction false} UndoRedoRoundTrip(c: Canvas, k: nat)
    requires k <= |c.undoStack|
    ensures Run(c, Repeat(UndoShortcut, k) + Repeat(RedoShortcut, k)) == Done(c)
    decreases k
  {
    if k > 0 {
      var inner := Repeat(UndoShortcut, k - 1) + Repeat(RedoShortcut, k - 1);
      assert Repeat(RedoShortcut, k) == Repeat(RedoShortcut, k - 1) + [RedoShortcut];
      assert Repeat(UndoShortcut, k) + Repeat(RedoShortcut, k) == [UndoShortcut] + inner + [RedoShortcut];
      var u := Undo(c);
      UndoRedoRoundTrip(u, k - 1);
      RunConcat(c, [UndoShortcut], inner + [RedoShortcut]);
      RunConcat(u, inner, [RedoShortcut]);
      assert ([UndoShortcut] + inner + [RedoShortcut]) == [UndoShortcut] + (inner + [RedoShortcut]);
      UndoThenRedo(c);
    }
  }

  /** An event the handlers ignore when no drag is in progress. */
  predicate Ignored(e: Event) {
    || (e.MousePress? && e.button != LeftButton)
    || (e.MouseRelease? && e.button != LeftButton)
    || e.MouseMove?
  }

  /**
   * Gestures with any button but the left one, and moves while not drawing, produce
   * no stroke and no snapshot: the state is exactly as before.
   */
  lemma {:induction false} IgnoredEventsChangeNothing(c: Canvas, events: seq<Event>)
    requires !c.drawing
    requires forall i :: 0 <= i < |events| ==> Ignored(events[i])
    ensures Run(c, events) == Done(c)
  {
    if events != [] {
      assert Ignored(events[0]);
      assert Step(c, events[0]) == Done(c);
      IgnoredEventsChangeNothing(c, events[1..]);
    }
  }

  /**
   * Even in the middle of a drag, presses and releases of other buttons and moves add
   * no stroke and take no snapshot: the stroke count and both stacks stay as they were.
   */
  lemma {:induction false} IgnoredEventsAddNothing(c: Canvas, events: seq<Event>)
    requires forall i :: 0 <= i < |events| ==> Ignored(events[i])
    ensures Run(c, events).Done? ==>
              var d := Run(c, events).canvas;
              |d.lines| == |c.lines| && d.undoStack == c.undoStack && d.redoStack == c.redoStack
    decreases events
  {
    if events != [] {
      assert Ignored(events[0]);
      match Step(c, events[0])
      case Raised(err) =>
      case Done(d) =>
        assert |d.lines| == |c.lines| && d.undoStack == c.undoStack && d.redoStack == c.redoStack;
        IgnoredEventsAddNothing(d, events[1..]);
    }
  }

  /** An event that only draws: a press or a move. */
  predicate Drawing(e: Event) {
    e.MousePress? || e.MouseMove?
  }

  /**
   * Presses and moves never touch the history: stored snapshots stay as they were, the
   * stroke count only grows, and every stroke before the last one is left alone.
   */
  lemma {:induction false} DrawingKeepsHistory(c: Canvas, events: seq<Event>)
    requires forall i :: 0 <= i < |events| ==> Drawing(events[i])
    ensures Run(c, events).Done? ==>
              var d := Run(c, events).canvas;
              d.undoStack == c.undoStack && d.redoStack == c.redoStack &&
              |d.lines| >= |c.lines| &&
              forall i :: 0 <= i < |c.lines| - 1 ==> d.lines[i] == c.lines[i]
    decreases events
  {
    if events != [] {
      assert Drawing(events[0]);
      match Step(c, events[0])
      case Raised(err) =>
      case Done(d) =>
        assert d.undoStack == c.undoStack && d.redoStack == c.redoStack;
        assert |d.lines| >= |c.lines|;
        assert forall i :: 0 <= i < |c.lines| - 1 ==> d.lines[i] == c.lines[i];
        DrawingKeepsHistory(d, events[1..]);
    }
  }

  /** Press at (10, 10), move to (20, 10), release: one two-point stroke and one snapshot. */
  lemma StrokeCapture()
    ensures
      var s := [Point(10, 10), Point(20, 10)];
      Run(Initial, [MousePress(LeftButton, Point(10, 10)), MouseMove(Point(20, 10)), MouseRelease(LeftButton)])
        == Done(Canvas([s], false, [[s]], []))
  {
    var s := [Point(10, 10), Point(20, 10)];
    var pressed := Canvas([[Point(10, 10)]], true, [], []);
    var moved := Canvas([s], true, [], []);
    var events := [MousePress(LeftButton, Point(10, 10)), MouseMove(Point(20, 10)), MouseRelease(LeftButton)];
    assert [Point(10, 10)] + [Point(20, 10)] == s;
    assert Move(pressed, Point(20, 10)) == Done(moved);
    assert Run(moved, events[2..]) == Done(Canvas([s], false, [[s]], []));
    assert Run(pressed, events[1..]) == Run(moved, events[2..]);
  }

  /**
   * A release without a press stores an empty snapshot; undoing back to it in the middle
   * of the next drag leaves the drag flag set over an empty stroke list, and the next
   * move raises.
   */
  lemma MoveAfterUndoMidDragRaises(p: Point, q: Point)
    ensures Run(Initial, [MouseRelease(LeftButton), MousePress(LeftButton, p), UndoShortcut, MouseMove(q)])
              == Raised(IndexError)
  {
    var events := [MouseRelease(LeftButton), MousePress(LeftButton, p), UndoShortcut, MouseMove(q)];
    var released := Canvas([], false, [[]], []);
    var pressed := Canvas([[p]], true, [[]], []);
    var undone := Canvas([], true, [], [[[p]]]);
    assert Run(undone, events[3..]) == Raised(IndexError);
    assert Run(pressed, events[2..]) == Run(undone, events[3..]);
    assert Run(released, events[1..]) == Run(pressed, events[2..]);
  }
}
