/** The local drawing session as a pure state machine: the stroke in progress,
    what it has drawn on the local surface and the records handed to the senders.
    Class UseCanvas.CanvasHook is proved against these transitions. */
module Session {
  import opened Types
  import opened Canvas2D
  import opened Render

  /** The toolbar settings the hook holds. */
  datatype Settings = Settings(tool: Tool, color: string, size: int)

  /** The record a finished stroke becomes: its points with the current settings. */
  function StrokeEvent(s: Settings, stroke: seq<Point>): DrawEvent
  {
    DrawEvent(Draw, Properties(s.tool, s.color, s.size, stroke))
  }

  /** The fixed record of the clear command. */
  function ClearEvent(): DrawEvent
  {
    DrawEvent(Clear, Properties(Brush, "", 0, []))
  }

  /** Whether a gesture is in progress, its points so far, the local surface and
      the records handed to the senders, in call order. */
  datatype State = State(isDrawing: bool, stroke: seq<Point>, drawn: seq<Segment>, outbox: seq<DrawEvent>)

  /** A gesture is in progress exactly when the stroke holds points. */
  predicate Consistent(st: State)
  {
    st.isDrawing == (|st.stroke| > 0)
  }

  /** The segment one move draws: from the stroke's last point to the new one. */
  function MoveSegment(s: Settings, stroke: seq<Point>, p: Point): Segment
    requires |stroke| > 0
  {
    Segment(StrokeStyle(s.tool, s.color), s.size, stroke[|stroke| - 1], p)
  }

  /** Gesture start: a new stroke of one point; nothing is drawn. */
  function DrawStart(st: State, p: Point): State
  {
    st.(isDrawing := true, stroke := [p])
  }

  /** Gesture move: ignored when idle; otherwise the point joins the stroke and,
      when there is a drawing context, one segment is drawn. */
  function DrawMove(st: State, s: Settings, hasContext: bool, p: Point): State
  {
    if !st.isDrawing then st
    else st.(stroke := st.stroke + [p],
             drawn := if hasContext && |st.stroke| > 0 then st.drawn + [MoveSegment(s, st.stroke, p)] else st.drawn)
  }

  /** Gesture end: ignored when idle or when the stroke is empty; otherwise the
      stroke is handed to the debounced sender as one record and the session goes idle. */
  function DrawEnd(st: State, s: Settings): State
  {
    if !st.isDrawing || |st.stroke| == 0 then st
    else st.(isDrawing := false, stroke := [], outbox := st.outbox + [StrokeEvent(s, st.stroke)])
  }

  /** A run of moves with unchanged settings. */
  function DrawMoves(st: State, s: Settings, hasContext: bool, qs: seq<Point>): State
    decreases |qs|
  {
    if qs == [] then st else DrawMoves(DrawMove(st, s, hasContext, qs[0]), s, hasContext, qs[1..])
  }

  /** Teardown: the stroke in progress is dropped. */
  function Teardown(st: State): State
  {
    st.(isDrawing := false, stroke := [])
  }

  /** Every transition keeps a gesture in progress exactly when the stroke holds points. */
  lemma ConsistentPreserved(st: State, s: Settings, hasContext: bool, p: Point)
    requires Consistent(st)
    ensures Consistent(DrawStart(st, p))
    ensures Consistent(DrawMove(st, s, hasContext, p))
    ensures Consistent(DrawEnd(st, s))
    ensures Consistent(Teardown(st))
  {
  }

  /** While idle a move changes nothing; while drawing it appends the point and
      draws exactly one segment from the previous last point when there is a
      context, none when there is not. Nothing is handed to the sender. */
  lemma DrawMoveEffect(st: State, s: Settings, hasContext: bool, p: Point)
    requires Consistent(st)
    ensures var r := DrawMove(st, s, hasContext, p);
      && (!st.isDrawing ==> r == st)
      && (st.isDrawing ==>
            && r.isDrawing && r.stroke == st.stroke + [p] && r.outbox == st.outbox
            && r.drawn == st.drawn + (if hasContext then [Segment(StrokeStyle(s.tool, s.color), s.size, st.stroke[|st.stroke| - 1], p)] else []))
  {
  }

  /** Ending a gesture in a consistent state emits nothing when idle and exactly
      one draw record, holding the whole stroke and the current settings, when
      drawing; the surface is not touched. */
  lemma DrawEndEffect(st: State, s: Settings)
    requires Consistent(st)
    ensures var r := DrawEnd(st, s);
      && (!st.isDrawing ==> r == st)
      && (st.isDrawing ==>
            && !r.isDrawing && r.stroke == [] && r.drawn == st.drawn
            && |r.outbox| == |st.outbox| + 1 && r.outbox[..|st.outbox|] == st.outbox
            && r.outbox[|st.outbox|] == DrawEvent(Draw, Properties(s.tool, s.color, s.size, st.stroke)))
  {
  }

  /** Moves during a gesture extend the stroke and, with a context, keep the
      local surface equal to what stroking the whole stroke would draw. */
  lemma {:induction false} DrawMovesExtend(st: State, s: Settings, hasContext: bool, qs: seq<Point>, base: seq<Segment>)
    requires st.isDrawing && |st.stroke| > 0
    requires hasContext ==> st.drawn == base + Polyline(StrokeStyle(s.tool, s.color), s.size, st.stroke)
    ensures var r := DrawMoves(st, s, hasContext, qs);
      && r.isDrawing && r.stroke == st.stroke + qs && r.outbox == st.outbox
      && (hasContext ==> r.drawn == base + Polyline(StrokeStyle(s.tool, s.color), s.size, st.stroke + qs))
      && (!hasContext ==> r.drawn == st.drawn)
    decreases |qs|
  {
    if qs == [] {
      assert st.stroke + qs == st.stroke;
    } else {
      var next := DrawMove(st, s, hasContext, qs[0]);
      PolylineSnoc(StrokeStyle(s.tool, s.color), s.size, st.stroke, qs[0]);
      DrawMovesExtend(next, s, hasContext, qs[1..], base);
      assert next.stroke + qs[1..] == st.stroke + qs;
    }
  }

  /** A whole gesture (start at p, moves through qs, end) with unchanged settings
      hands exactly one record to the debounced sender, holding all |qs| + 1 points, and the
      segments it drew incrementally are exactly those that applying that record
      to the surface as it was would add. Without a context nothing is drawn but
      the record is the same. */
  lemma {:induction false} GestureDrawsItsEvent(st: State, s: Settings, hasContext: bool, p: Point, qs: seq<Point>)
    ensures var r := DrawEnd(DrawMoves(DrawStart(st, p), s, hasContext, qs), s);
      && !r.isDrawing && r.stroke == []
      && r.outbox == st.outbox + [StrokeEvent(s, [p] + qs)]
      && |StrokeEvent(s, [p] + qs).properties.points| == |qs| + 1
      && r.drawn == (if hasContext then Apply(st.drawn, StrokeEvent(s, [p] + qs)) else st.drawn)
  {
    var started := DrawStart(st, p);
    DrawMovesExtend(started, s, hasContext, qs, st.drawn);
    if |[p] + qs| < 2 {
      assert Polyline(StrokeStyle(s.tool, s.color), s.size, [p] + qs) == [];
    }
  }

  /** The status a subscription acknowledgement or failure leaves: connected on
      "SUBSCRIBED", error on any other status. */
  datatype ConnectionStatus = Connected | Disconnected | Error

  function StatusAfter(status: string): ConnectionStatus
  {
    if status == "SUBSCRIBED" then Connected else Error
  }

  /** A subscription callback never reports disconnected, and reports connected
      exactly on acknowledgement. */
  lemma StatusAfterCallback(status: string)
    ensures StatusAfter(status) == Connected <==> status == "SUBSCRIBED"
    ensures StatusAfter(status) == Error <==> status != "SUBSCRIBED"
    ensures StatusAfter(status) != Disconnected
  {
  }

  /** The clear command's record has the clear tag, the brush tool, an empty
      colour, size 0 and no points, and it empties any surface it is applied to. */
  lemma ClearEventEmpties(surface: seq<Segment>, rest: seq<DrawEvent>)
    ensures ClearEvent().eventType == Clear
    ensures ClearEvent().properties == Properties(Brush, "", 0, [])
    ensures Apply(surface, ClearEvent()) == []
    ensures Replay([ClearEvent()] + rest, surface) == Replay(rest, [])
  {
  }
}
