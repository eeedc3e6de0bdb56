/** The part of the browser's 2D drawing context the hook uses, reduced to what
    can be observed without pixels: the list of line segments stroked since the
    surface was last cleared, the pen (stroke style and line width) and the
    path under construction. */
module Canvas2D {
  import opened Types

  /** One stroked line segment, with the pen it was stroked with. */
  datatype Segment = Segment(color: string, width: int, from: Point, to: Point)

  /** What stroking the path `pts` adds to the surface: one segment per pair of
      consecutive points. Defined one `lineTo` at a time, the way a path grows. */
  function Polyline(color: string, width: int, pts: seq<Point>): seq<Segment>
  {
    if |pts| < 2 then []
    else Polyline(color, width, pts[..|pts| - 1]) + [Segment(color, width, pts[|pts| - 2], pts[|pts| - 1])]
  }

  /** A path of n points strokes max(n - 1, 0) segments, the i-th from point i
      to point i + 1, all with the same pen. */
  lemma {:induction false} PolylineAt(color: string, width: int, pts: seq<Point>)
    ensures |Polyline(color, width, pts)| == if |pts| < 2 then 0 else |pts| - 1
    ensures forall i :: 0 <= i < |Polyline(color, width, pts)| ==>
      Polyline(color, width, pts)[i] == Segment(color, width, pts[i], pts[i + 1])
  {
    if |pts| >= 2 {
      var init := pts[..|pts| - 1];
      PolylineAt(color, width, init);
      assert forall i :: 0 <= i < |init| ==> init[i] == pts[i];
    }
  }

  /** Extending a non-empty path by one point strokes exactly one more segment,
      from the old last point to the new one. */
  lemma {:induction false} PolylineSnoc(color: string, width: int, pts: seq<Point>, q: Point)
    requires |pts| > 0
    ensures Polyline(color, width, pts + [q])
         == Polyline(color, width, pts) + [Segment(color, width, pts[|pts| - 1], q)]
  {
  }

  /** The drawing context of one canvas. */
  class Context {
    /** Segments stroked since the last `clearRect`, in stroke order. */
    var segments: seq<Segment>
    var strokeStyle: string
    var lineWidth: int
    /** The current subpath. Every path the hook builds starts with
        `beginPath` and a single `moveTo`, so one subpath is enough. */
    var path: seq<Point>

    /** A fresh context: blank surface, the default black pen of width 1. */
    constructor ()
      ensures segments == [] && path == []
      ensures strokeStyle == "#000000" && lineWidth == 1
    {
      segments, path := [], [];
      strokeStyle, lineWidth := "#000000", 1;
    }

    /** Clears the whole visible rectangle; the pen and path are kept. */
    method ClearRect()
      modifies this`segments
      ensures segments == []
    {
      segments := [];
    }

    method BeginPath()
      modifies this`path
      ensures path == []
    {
      path := [];
    }

    method MoveTo(p: Point)
      modifies this`path
      ensures path == [p]
    {
      path := [p];
    }

    /** Extends the subpath; on an empty path this starts it at `p`. */
    method LineTo(p: Point)
      modifies this`path
      ensures path == old(path) + [p]
    {
      path := path + [p];
    }

    /** Strokes the current path with the current pen. */
    method Stroke()
      modifies this`segments
      ensures segments == old(segments) + Polyline(strokeStyle, lineWidth, path)
    {
      segments := segments + Polyline(strokeStyle, lineWidth, path);
    }

    /** Closes the subpath; a new one starts at its first point. Nothing is
        stroked, and the hook never strokes a path after closing it. */
    method ClosePath()
      modifies this`path
      ensures path == if old(path) == [] then [] else [old(path)[0]]
    {
      path := if path == [] then [] else [path[0]];
    }
  }
}
