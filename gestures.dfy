/**
 * Whole pointer gestures and toolbar actions as a user performs them,
 * proved from the handlers' contracts alone.
 */
module Gestures {
  import opened Options
  import opened Strokes
  import opened ContentScript

  /**
   * Press, `|moves|` moves and a release in draw mode add exactly one stroke
   * with the press point followed by every move point, and persist the
   * whole collection.
   */
  method DrawGesture(d: Doodle, down: Point, moves: seq<Point>, color: string, size: int)
    returns (threw: bool)
    requires d.Valid() && d.canvas && d.ctx && d.drawEnabled
    modifies d`drawing, d`currentStroke, d`strokes, d`storage, d`painted
    ensures d.Valid() && !threw
    ensures d.strokes == old(d.strokes) + [Stroke(color, size, [down] + moves)]
    ensures |d.strokes[|d.strokes| - 1].points| == |moves| + 1
    ensures d.storage == old(d.storage)[d.key := Array(d.strokes)]
    ensures StoredStrokes(d.storage, d.key) == d.strokes
    ensures !d.drawing && d.currentStroke == None
  {
    d.PointerDown(down, color, size);
    var i := 0;
    assert [down] + moves[..0] == [down];
    while i < |moves|
      invariant 0 <= i <= |moves|
      invariant d.Valid() && d.drawing
      invariant d.currentStroke == Some(Stroke(color, size, [down] + moves[..i]))
      invariant d.strokes == old(d.strokes) && d.storage == old(d.storage)
    {
      d.PointerMove(moves[i]);
      assert [down] + moves[..i + 1] == [down] + moves[..i] + [moves[i]];
      i := i + 1;
    }
    assert moves[..i] == moves;
    threw := d.PointerUp();
  }

  /** In type mode the same gesture changes neither the strokes nor storage nor the canvas. */
  method TypeModeGesture(d: Doodle, down: Point, moves: seq<Point>, color: string, size: int)
    returns (threw: bool)
    requires d.Valid() && d.canvas && d.ctx && !d.drawEnabled && !d.drawing
    modifies d`drawing, d`currentStroke, d`strokes, d`storage, d`painted
    ensures d.Valid() && !threw && !d.drawing
    ensures d.strokes == old(d.strokes) && d.storage == old(d.storage) && d.painted == old(d.painted)
  {
    d.PointerDown(down, color, size);
    var i := 0;
    while i < |moves|
      invariant 0 <= i <= |moves|
      invariant d.Valid() && !d.drawing
      invariant d.strokes == old(d.strokes) && d.storage == old(d.storage) && d.painted == old(d.painted)
    {
      d.PointerMove(moves[i]);
      i := i + 1;
    }
    threw := d.PointerUp();
  }

  /** Clearing and then loading again gives the empty collection. */
  method ClearThenReload(d: Doodle)
    requires d.Valid()
    modifies d`strokes, d`storage, d`painted
    ensures d.strokes == [] && d.painted == []
  {
    d.Clear();
    d.LoadStrokes();
  }
}
