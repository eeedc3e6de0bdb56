/** The `useCanvas` hook: toolbar settings, the stroke in progress, the loading
    flag, the connection status and the drawing context, updated in place by the
    hook's callbacks. Network calls are replaced by their inputs (the fetched
    rows, the subscription status) and their outputs (the outbox). */
module UseCanvas {
  import opened Types
  import opened Canvas2D
  import opened Render
  import opened Session

  /** What the history query returned: rows, no data and no error, or an error. */
  datatype Fetch = Rows(rows: seq<DrawEvent>) | NoData | Failed

  class CanvasHook {
    var selectedTool: Tool
    var brushSize: int
    var brushColor: string
    var isDrawing: bool
    var currentStroke: seq<Point>
    var isLoadingState: bool
    var connectionStatus: ConnectionStatus
    /** The drawing context, absent until the canvas is set up. */
    var ctx: Context?
    /** Every record handed to a sender, in call order (not log order): strokes
        through the debounced sender, clear commands by a direct insert. */
    var outbox: seq<DrawEvent>

    /** A gesture is in progress exactly when the stroke holds points. */
    ghost predicate Valid()
      reads this
    {
      isDrawing == (|currentStroke| > 0)
    }

    function CurrentSettings(): Settings
      reads this
    {
      Settings(selectedTool, brushColor, brushSize)
    }

    /** The session as the pure state machine sees it. */
    ghost function Snapshot(): State
      reads this, ctx
    {
      State(isDrawing, currentStroke, if ctx == null then [] else ctx.segments, outbox)
    }

    /** The hook's initial state: brush, size 5, black, idle, loading, disconnected. */
    constructor ()
      ensures Valid()
      ensures selectedTool == Brush && brushSize == 5 && brushColor == "#000000"
      ensures !isDrawing && currentStroke == []
      ensures isLoadingState && connectionStatus == Disconnected
      ensures ctx == null && outbox == []
    {
      selectedTool, brushSize, brushColor := Brush, 5, "#000000";
      isDrawing, currentStroke := false, [];
      isLoadingState, connectionStatus := true, Disconnected;
      ctx, outbox := null, [];
    }

    method SetSelectedTool(tool: Tool)
      modifies this`selectedTool
      ensures selectedTool == tool
    {
      selectedTool := tool;
    }

    method SetBrushSize(size: int)
      modifies this`brushSize
      ensures brushSize == size
    {
      brushSize := size;
    }

    method SetBrushColor(color: string)
      modifies this`brushColor
      ensures brushColor == color
    {
      brushColor := color;
    }

    /** Canvas setup keeps the context it obtained. */
    method AttachContext(c: Context)
      modifies this`ctx
      ensures ctx == c
    {
      ctx := c;
    }

    /** The render step for one record, live or replayed. Without a context
        nothing happens. A clear wipes the surface and keeps the pen. A draw sets
        the pen, even for fewer than two points, and strokes its polyline. */
    method HandleRealtimeUpdate(e: DrawEvent)
      modifies ctx
      ensures ctx != null ==> ctx.segments == Apply(old(ctx.segments), e)
      ensures ctx != null && e.eventType == Clear ==>
        ctx.strokeStyle == old(ctx.strokeStyle) && ctx.lineWidth == old(ctx.lineWidth) && ctx.path == old(ctx.path)
      ensures ctx != null && e.eventType == Draw ==>
        && ctx.strokeStyle == StrokeStyle(e.properties.tool, e.properties.color)
        && ctx.lineWidth == e.properties.size
        && ctx.path == if |e.properties.points| < 2 then old(ctx.path) else [e.properties.points[0]]
    {
      if ctx == null {
        return;
      }
      var c := ctx;
      if e.eventType == Clear {
        c.ClearRect();
        return;
      }
      var points := e.properties.points;
      c.strokeStyle := StrokeStyle(e.properties.tool, e.properties.color);
      c.lineWidth := e.properties.size;
      if |points| < 2 {
        return;
      }
      c.BeginPath();
      c.MoveTo(points[0]);
      var i := 1;
      while i < |points|
        invariant 1 <= i <= |points|
        invariant c.path == points[..i]
        invariant c.segments == old(c.segments)
        invariant c.strokeStyle == StrokeStyle(e.properties.tool, e.properties.color)
        invariant c.lineWidth == e.properties.size
      {
        c.LineTo(points[i]);
        i := i + 1;
      }
      assert points[..i] == points;
      c.Stroke();
      c.ClosePath();
    }

    /** First half of loading the canvas state, before the history query. */
    method BeginLoad()
      modifies this`isLoadingState
      ensures isLoadingState
    {
      isLoadingState := true;
    }

    /** Second half, once the query has answered. With rows and a context the
        surface is cleared and the rows are applied in order, so it ends as their
        fold from blank; on an error, on no data or without a context the surface
        is left as it was. Loading ends in every case. */
    method FinishLoad(fetch: Fetch)
      modifies this`isLoadingState, ctx
      ensures !isLoadingState
      ensures ctx != null && fetch.Rows? ==> ctx.segments == Replay(fetch.rows, [])
      ensures ctx != null && !fetch.Rows? ==> ctx.segments == old(ctx.segments)
    {
      if fetch.Rows? && ctx != null {
        var rows := fetch.rows;
        var c := ctx;
        c.ClearRect();
        var i := 0;
        while i < |rows|
          invariant 0 <= i <= |rows|
          invariant ctx == c
          invariant c.segments == Replay(rows[..i], [])
        {
          HandleRealtimeUpdate(rows[i]);
          ReplaySnoc(rows[..i], rows[i], []);
          assert rows[..i + 1] == rows[..i] + [rows[i]];
          i := i + 1;
        }
        assert rows[..i] == rows;
      }
      isLoadingState := false;
    }

    /** The subscription's status callback. */
    method OnSubscribeStatus(status: string)
      modifies this`connectionStatus
      ensures connectionStatus == StatusAfter(status)
    {
      if status == "SUBSCRIBED" {
        connectionStatus := Connected;
      } else {
        connectionStatus := Error;
      }
    }

    /** Teardown of the canvas effect: the stroke in progress is dropped and the
        status goes back to disconnected. */
    method Teardown()
      modifies this`isDrawing, this`currentStroke, this`connectionStatus
      ensures Valid()
      ensures Snapshot() == Session.Teardown(old(Snapshot()))
      ensures connectionStatus == Disconnected
    {
      isDrawing := false;
      currentStroke := [];
      connectionStatus := Disconnected;
    }

    method HandleDrawStart(p: Point)
      requires Valid()
      modifies this`isDrawing, this`currentStroke
      ensures Valid()
      ensures Snapshot() == DrawStart(old(Snapshot()), p)
    {
      isDrawing := true;
      currentStroke := [p];
    }

    /** The segment is computed from the stroke as it was before the point is
        appended; the pen is set whenever there is a context and a gesture. */
    method HandleDrawMove(p: Point)
      requires Valid()
      modifies this`currentStroke, ctx
      ensures Valid()
      ensures Snapshot() == DrawMove(old(Snapshot()), CurrentSettings(), ctx != null, p)
      ensures ctx != null && old(isDrawing) ==>
        ctx.strokeStyle == StrokeStyle(selectedTool, brushColor) && ctx.lineWidth == brushSize && ctx.path == [old(currentStroke)[|old(currentStroke)| - 1]]
      ensures ctx != null && !old(isDrawing) ==>
        ctx.strokeStyle == old(ctx.strokeStyle) && ctx.lineWidth == old(ctx.lineWidth) && ctx.path == old(ctx.path)
    {
      if !isDrawing {
        return;
      }
      var previous := currentStroke;
      currentStroke := currentStroke + [p];
      if ctx != null {
        var c := ctx;
        c.strokeStyle := StrokeStyle(selectedTool, brushColor);
        c.lineWidth := brushSize;
        if |previous| > 0 {
          c.BeginPath();
          c.MoveTo(previous[|previous| - 1]);
          c.LineTo(p);
          c.Stroke();
          c.ClosePath();
        }
      }
    }

    method HandleDrawEnd()
      requires Valid()
      modifies this`isDrawing, this`currentStroke, this`outbox
      ensures Valid()
      ensures Snapshot() == DrawEnd(old(Snapshot()), CurrentSettings())
    {
      if !isDrawing || |currentStroke| == 0 {
        return;
      }
      isDrawing := false;
      var drawEvent := StrokeEvent(CurrentSettings(), currentStroke);
      outbox := outbox + [drawEvent];
      currentStroke := [];
    }

    /** The clear command only hands its record to a direct insert; the local surface
        is cleared when the record comes back through the subscription. */
    method ClearCanvas()
      modifies this`outbox
      ensures outbox == old(outbox) + [ClearEvent()]
    {
      outbox := outbox + [ClearEvent()];
    }
  }
}
