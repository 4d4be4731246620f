/**
 * Drag-to-pan: the mouse handlers of `PDFView` as pure state transitions.
 *
 * Mouse-down records where, inside the canvas, the pointer grabbed it; each
 * move while the button is held places the canvas so that this grab point
 * stays under the pointer. Coordinates are integers and nothing is clamped.
 */
module Panning {
  import opened Common

  /** The drag part of a viewer's state. */
  datatype Drag = Drag(
    isClick: bool,       // _isClick (its initial `null` behaves as false)
    ol: int,             // _ol: pointer x minus canvas offsetLeft at mouse-down
    ot: int,             // _ot: pointer y minus canvas offsetTop at mouse-down
    left: Option<int>,   // canvas style.left in px, unset until the first drag
    top: Option<int>)    // canvas style.top in px, unset until the first drag

  /** Before any mouse event. `_ol` and `_ot` start as `null`, which JavaScript subtraction reads as 0. */
  function Released(): Drag {
    Drag(false, 0, 0, None, None)
  }

  /** `handleMouseDown` at client point (x, y) on a canvas whose offset is (offsetLeft, offsetTop). */
  function MouseDown(d: Drag, x: int, y: int, offsetLeft: int, offsetTop: int): Drag {
    d.(isClick := true, ol := x - offsetLeft, ot := y - offsetTop)
  }

  /** `handleMouseMove` to client point (x, y). */
  function MouseMove(d: Drag, x: int, y: int): Drag {
    if d.isClick then d.(left := Some(x - d.ol), top := Some(y - d.ot)) else d
  }

  /** `handleMouseUp`. */
  function MouseUp(d: Drag): Drag {
    d.(isClick := false)
  }

  /** Several moves, in order. */
  function MoveAll(d: Drag, points: seq<(int, int)>): Drag
    decreases |points|
  {
    if points == [] then d else MoveAll(MouseMove(d, points[0].0, points[0].1), points[1..])
  }

  /** Without the button held, moves change nothing. */
  lemma MoveWithoutClickIsInert(d: Drag, x: int, y: int)
    requires !d.isClick
    ensures MouseMove(d, x, y) == d
  {
  }

  /** A move by (dx, dy) from the grab point puts the canvas at its offset plus (dx, dy). */
  lemma DragTranslates(d: Drag, x: int, y: int, offsetLeft: int, offsetTop: int, dx: int, dy: int)
    ensures var m := MouseMove(MouseDown(d, x, y, offsetLeft, offsetTop), x + dx, y + dy);
            m.left == Some(offsetLeft + dx) && m.top == Some(offsetTop + dy) && m.isClick
  {
  }

  /** After mouse-up, the canvas stays where it is, whatever moves follow. */
  lemma {:induction false} NoPanAfterMouseUp(d: Drag, points: seq<(int, int)>)
    ensures MoveAll(MouseUp(d), points) == MouseUp(d)
    decreases |points|
  {
    if points != [] {
      NoPanAfterMouseUp(d, points[1..]);
    }
  }

  /** Before the first mouse-down, no sequence of moves pans the canvas. */
  lemma {:induction false} NoPanBeforeMouseDown(points: seq<(int, int)>)
    ensures MoveAll(Released(), points) == Released()
  {
    assert MouseUp(Released()) == Released();
    NoPanAfterMouseUp(Released(), points);
  }

  /**
   * A drag is path independent: after mouse-down at (x, y) and any moves, the
   * canvas sits at its offset translated by the last move's displacement.
   */
  lemma {:induction false} DragFollowsLastPoint(d: Drag, x: int, y: int, offsetLeft: int, offsetTop: int,
                                                points: seq<(int, int)>)
    requires |points| > 0
    ensures var m := MoveAll(MouseDown(d, x, y, offsetLeft, offsetTop), points);
            && m.isClick && m.ol == x - offsetLeft && m.ot == y - offsetTop
            && m.left == Some(offsetLeft + (Last(points).0 - x))
            && m.top == Some(offsetTop + (Last(points).1 - y))
    decreases |points|
  {
    var down := MouseDown(d, x, y, offsetLeft, offsetTop);
    if |points| > 1 {
      DragFollowsLastPoint(MouseMove(down, points[0].0, points[0].1), x, y, offsetLeft, offsetTop, points[1..]);
      assert MouseDown(MouseMove(down, points[0].0, points[0].1), x, y, offsetLeft, offsetTop)
          == MouseMove(down, points[0].0, points[0].1);
    }
  }
}
