/**
 * Strokes and what redrawing paints (content_script.js, redrawAll).
 *
 * The canvas is abstracted to the sequence of path commands issued since it
 * was last cleared. `Render` is the command list `redrawAll` issues for a
 * stroke collection; `Paint` is an independent reading of a command list:
 * the polylines that each `stroke()` call puts on the canvas.
 */
module Strokes {

  /** A point in the content coordinates of the drawing surface. */
  datatype Point = Point(x: real, y: real)

  /** One freehand gesture: colour, line width and the points in drawing order. */
  datatype Stroke = Stroke(color: string, size: int, points: seq<Point>)

  /** The 2D-context calls the content script makes on the drawing surface. */
  datatype DrawCmd =
    | BeginPath
    | MoveTo(p: Point)
    | LineTo(p: Point)
    | ClosePath
    | StrokePath(color: string, size: int)  // `stroke()` with the strokeStyle and lineWidth then in effect

  /** One `lineTo` per point, in order. */
  function LineTos(pts: seq<Point>): seq<DrawCmd>
  {
    seq(|pts|, k requires 0 <= k < |pts| => LineTo(pts[k]))
  }

  /** The commands that draw one non-empty stroke. */
  function StrokeCommands(t: Stroke): seq<DrawCmd>
    requires |t.points| > 0
  {
    [BeginPath, MoveTo(t.points[0])] + LineTos(t.points[1..]) + [StrokePath(t.color, t.size)]
  }

  /** The commands `redrawAll` issues after clearing: every non-empty stroke in order. */
  function Render(s: seq<Stroke>): seq<DrawCmd>
  {
    if s == [] then []
    else (if |s[0].points| == 0 then [] else StrokeCommands(s[0])) + Render(s[1..])
  }

  /** The strokes with at least one point, in their original order. */
  function Drawn(s: seq<Stroke>): (d: seq<Stroke>)
    ensures |d| <= |s|
    ensures forall t :: t in d ==> t in s && |t.points| > 0
    ensures forall t :: t in s && |t.points| > 0 ==> t in d
  {
    if s == [] then []
    else (if |s[0].points| == 0 then [] else [s[0]]) + Drawn(s[1..])
  }

  /**
   * The polylines a command list paints, starting from the current path
   * `path`. A path here is the subpath being built: `beginPath` empties it,
   * `moveTo` starts it anew, `lineTo` extends it, `closePath` returns to its
   * first point, and `stroke()` paints it with the style in effect.
   */
  function Paint(cmds: seq<DrawCmd>, path: seq<Point>): seq<Stroke>
  {
    if cmds == [] then []
    else match cmds[0]
      case BeginPath => Paint(cmds[1..], [])
      case MoveTo(p) => Paint(cmds[1..], [p])
      case LineTo(p) => Paint(cmds[1..], path + [p])
      case ClosePath => Paint(cmds[1..], if path == [] then [] else path + [path[0]])
      case StrokePath(c, w) => [Stroke(c, w, path)] + Paint(cmds[1..], path)
  }

  /** Appending a stroke appends its commands: what each iteration of the redraw loop adds. */
  lemma {:induction false} RenderAppend(s: seq<Stroke>, t: Stroke)
    ensures Render(s + [t]) == Render(s) + (if |t.points| == 0 then [] else StrokeCommands(t))
  {
    if s == [] {
      assert [t][1..] == [];
    } else {
      assert (s + [t])[1..] == s[1..] + [t];
      RenderAppend(s[1..], t);
    }
  }

  /** A run of `lineTo` calls extends the current path by exactly those points. */
  lemma {:induction false} PaintLineTos(pts: seq<Point>, rest: seq<DrawCmd>, path: seq<Point>)
    ensures Paint(LineTos(pts) + rest, path) == Paint(rest, path + pts)
  {
    if pts == [] {
      assert LineTos(pts) + rest == rest;
      assert path + pts == path;
    } else {
      var cmds := LineTos(pts) + rest;
      assert cmds[0] == LineTo(pts[0]);
      assert cmds[1..] == LineTos(pts[1..]) + rest;
      PaintLineTos(pts[1..], rest, path + [pts[0]]);
      assert path + [pts[0]] + pts[1..] == path + pts;
    }
  }

  /** The commands of one stroke paint exactly that stroke and leave its points as the path. */
  lemma PaintStroke(t: Stroke, rest: seq<DrawCmd>, path: seq<Point>)
    requires |t.points| > 0
    ensures Paint(StrokeCommands(t) + rest, path) == [t] + Paint(rest, t.points)
  {
    var pts := t.points;
    var tail := [StrokePath(t.color, t.size)] + rest;
    var cmds := StrokeCommands(t) + rest;
    assert cmds == [BeginPath, MoveTo(pts[0])] + (LineTos(pts[1..]) + tail);
    assert cmds[1..] == [MoveTo(pts[0])] + (LineTos(pts[1..]) + tail);
    assert cmds[1..][1..] == LineTos(pts[1..]) + tail;
    PaintLineTos(pts[1..], tail, [pts[0]]);
    assert [pts[0]] + pts[1..] == pts;
    assert tail[1..] == rest;
  }

  /**
   * Redrawing paints exactly the non-empty strokes, in stored order, each
   * with its own colour, width and points; strokes with no points paint
   * nothing.
   */
  lemma {:induction false} PaintRender(s: seq<Stroke>, path: seq<Point>)
    ensures Paint(Render(s), path) == Drawn(s)
  {
    if s != [] {
      if |s[0].points| == 0 {
        assert Render(s) == Render(s[1..]);
        PaintRender(s[1..], path);
      } else {
        PaintStroke(s[0], Render(s[1..]), path);
        PaintRender(s[1..], s[0].points);
      }
    }
  }
}
