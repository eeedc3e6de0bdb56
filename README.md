# Real-time canvas: drawing session and event replay

This project models the core of a collaborative drawing canvas, the `useCanvas`
hook. Clients draw freehand strokes. Each finished stroke becomes one `draw`
record, and the clear command becomes one `clear` record. Records go to an
append-only event log. Every client renders records as they arrive live, and a
client that joins late rebuilds the canvas by replaying the log in
`sequence_number` order.

The model has five modules:

- `Types` holds the records: `Point`, the `brush`/`eraser` tool, and `DrawEvent`,
  tagged `draw` or `clear`, with tool, colour, size and points.
- `Canvas2D` stands for the browser's 2D drawing context. Pixels are not
  modelled. The surface is the list of `Segment(colour, width, from, to)`
  stroked since the last `clearRect`. The context also holds its pen
  (`strokeStyle`, `lineWidth`) and the path being built. `Polyline` is what
  stroking a path adds.
- `Render` gives the render step (`Apply`) and the replay fold (`Replay`) as
  functions on the surface, with their laws.
- `Session` gives the stroke session as a pure state machine (`DrawStart`,
  `DrawMove`, `DrawEnd`) over the flag, the stroke, the local surface and the
  outbox of records handed to the senders. It also gives the clear record and the
  connection-status rule.
- `UseCanvas.CanvasHook` is the hook itself, a class whose fields are the hook's
  state. Each callback is a method. The contract of each session and render
  method ties its new state to the functions above; the setters, `AttachContext`
  and `BeginLoad` assign their field. `HandleRealtimeUpdate` keeps the hook's
  `lineTo` loop. `FinishLoad` keeps its `forEach` loop.

Coordinates are integers, because the core only copies them. The store is
replaced by inputs and outputs. A fetch result (`Rows`, `NoData`, `Failed`) is
an input to `FinishLoad`, and a subscription status string is an input to
`OnSubscribeStatus`. Every insert becomes an append to the `outbox` field.
`loadCanvasState` is split at its `await` into `BeginLoad`, which raises the
loading flag, and `FinishLoad`, which handles the query's answer.

The central facts proved:

- A `draw` record with n ≥ 2 points appends exactly n−1 segments in index
  order. Their colour is white for the eraser and the record's colour
  otherwise, and their width is the record's size. A shorter record draws
  nothing, and a `clear` record empties the surface.
- Replay leaves the surface equal to the fold of `Apply` from blank. That fold
  equals the fold over the records after the last `clear`. Records that arrive
  live after a replay extend the same fold.
- Consider a gesture (start, k moves, end) with unchanged settings. It hands
  exactly one record to the debounced sender, and that record holds all k+1 points. With a
  context, the segments drawn one move at a time are exactly those that applying
  that record would add.
- The hook keeps `isDrawing == (|currentStroke| > 0)`. So while a gesture is in
  progress, the empty-stroke test in `handleDrawEnd` never fires.

Behaviour of the code that a reader might not expect:

- A failed history query leaves the surface as it was. The code does not clear
  the surface before the query succeeds.
- `clearCanvas` only inserts its record. The local surface clears only when that
  record comes back through the subscription.
- Teardown does not cancel the debounced sender.
- Records from the subscription are cast to `DrawEvent` and never decoded, so
  there is no malformed-record path.
- The subscription starts before the history query. A record inserted after
  the query's timestamp can arrive live before the query answers. It is drawn,
  then wiped by the `clearRect` before the replay, and the `created_at` filter
  keeps it out of the replayed rows, so it is lost until the next reload.
  `BeginLoad`, `HandleRealtimeUpdate(e)`, `FinishLoad(Rows([]))` ends with an
  empty surface.

## Model

| member | source | states |
|---|---|---|
| Canvas2D.PolylineAt | hooks/useCanvas.ts:62-69 | a path of n points strokes max(n−1, 0) segments, the i-th from point i to point i+1, all with the same pen |
| Canvas2D.PolylineSnoc | hooks/useCanvas.ts:194-199 | adding one point to a non-empty path strokes exactly one more segment, from the old last point to the new one |
| Canvas2D.Context.constructor | hooks/useCanvas.ts:134 | a new context has a blank surface, an empty path and the default black pen of width 1 |
| Canvas2D.Context.ClearRect | hooks/useCanvas.ts:51 | clearing empties the surface and keeps the pen and the path |
| Canvas2D.Context.BeginPath | hooks/useCanvas.ts:62 | starting a path empties it |
| Canvas2D.Context.MoveTo | hooks/useCanvas.ts:63 | the path becomes the single point given |
| Canvas2D.Context.LineTo | hooks/useCanvas.ts:66 | the path grows by the point given |
| Canvas2D.Context.Stroke | hooks/useCanvas.ts:69 | the surface grows by the polyline of the path, drawn with the current pen |
| Canvas2D.Context.ClosePath | hooks/useCanvas.ts:70 | closing strokes nothing; a new path starts at the first point |
| Render.ApplyClear | hooks/useCanvas.ts:50-52 | a clear record empties any surface |
| Render.ApplyShortDraw | hooks/useCanvas.ts:55-60 | a draw record with fewer than 2 points leaves the surface unchanged |
| Render.ApplyDraw | hooks/useCanvas.ts:57-69 | a draw record with n ≥ 2 points keeps the surface and appends exactly n−1 segments from points[i] to points[i+1] in order, in white for the eraser or the record's colour, with the record's size as width |
| Render.ReplayConcat | hooks/useCanvas.ts:89-94 | replaying xs then ys equals replaying xs + ys, so live records after a replay extend the same fold |
| Render.ReplaySnoc | hooks/useCanvas.ts:92-94 | replaying one more record applies it to the replayed surface |
| Render.AfterLastClearIsSuffix | hooks/useCanvas.ts:50-52 | the records after the last clear form a suffix of the log that holds no clear and is preceded by one exactly when the log has one |
| Render.ReplayAfterLastClear | hooks/useCanvas.ts:89-94 | replay from any surface equals replay of the records after the last clear, from blank if the log holds a clear and from that surface otherwise |
| Render.ReplayFromBlank | hooks/useCanvas.ts:86-94 | the canvas rebuilt from blank is the fold of the records after the last clear |
| Render.ReplayOrder | hooks/useCanvas.ts:92-94 | clear then draw shows only the stroke; draw then clear shows a blank surface |
| Session.ConsistentPreserved | hooks/useCanvas.ts:178-222 | start, move, end and teardown keep "drawing exactly when the stroke holds points" |
| Session.DrawMoveEffect | hooks/useCanvas.ts:183-204 | a move while idle changes nothing; while drawing it appends the point, draws exactly one segment from the previous last point with the current pen if there is a context and none if not, and emits nothing |
| Session.DrawEndEffect | hooks/useCanvas.ts:206-222 | an end while idle changes nothing; while drawing it emits exactly one draw record with the whole stroke and the current tool, colour and size, goes idle with an empty stroke and leaves the surface alone |
| Session.DrawMovesExtend | hooks/useCanvas.ts:183-204 | moves during a gesture extend the stroke by their points and keep the local surface equal to the stroke's polyline on top of what was there |
| Session.GestureDrawsItsEvent | hooks/useCanvas.ts:178-222 | start plus k moves plus end emits exactly one record with all k+1 points, and the segments drawn incrementally equal what applying that record would add |
| Session.StatusAfterCallback | hooks/useCanvas.ts:154-160 | the status callback yields connected exactly on "SUBSCRIBED", error on every other status, never disconnected |
| Session.ClearEventEmpties | hooks/useCanvas.ts:240-248 | the clear record has tag clear, tool brush, colour "", size 0 and no points; applying it empties any surface, and replay forgets everything before it |
| UseCanvas.CanvasHook.constructor | hooks/useCanvas.ts:10-22 | initial state: brush, size 5, colour #000000, idle with an empty stroke, loading, disconnected, no context, nothing sent |
| UseCanvas.CanvasHook.SetSelectedTool | hooks/useCanvas.ts:10 | sets the tool |
| UseCanvas.CanvasHook.SetBrushSize | hooks/useCanvas.ts:11 | sets the brush size |
| UseCanvas.CanvasHook.SetBrushColor | hooks/useCanvas.ts:12 | sets the brush colour |
| UseCanvas.CanvasHook.AttachContext | hooks/useCanvas.ts:134-140 | canvas setup keeps the context it obtained |
| UseCanvas.CanvasHook.HandleRealtimeUpdate | hooks/useCanvas.ts:44-71 | without a context nothing changes; otherwise the surface becomes Apply(old surface, record); a clear keeps the pen; a draw sets the pen even when it has fewer than 2 points |
| UseCanvas.CanvasHook.BeginLoad | hooks/useCanvas.ts:75 | loading becomes true before the query |
| UseCanvas.CanvasHook.FinishLoad | hooks/useCanvas.ts:76-100 | with rows and a context the surface ends as Replay(rows, blank); on error, no data or no context it is unchanged; loading is false in every case |
| UseCanvas.CanvasHook.OnSubscribeStatus | hooks/useCanvas.ts:154-160 | the status becomes connected on "SUBSCRIBED" and error otherwise |
| UseCanvas.CanvasHook.Teardown | hooks/useCanvas.ts:165-170 | drawing stops, the stroke is emptied and the status is disconnected |
| UseCanvas.CanvasHook.HandleDrawStart | hooks/useCanvas.ts:178-181 | drawing starts with the stroke [p] and nothing is drawn |
| UseCanvas.CanvasHook.HandleDrawMove | hooks/useCanvas.ts:183-204 | the new state is DrawMove of the old one: the segment runs from the stroke's last point before the append to p, drawn with the current settings |
| UseCanvas.CanvasHook.HandleDrawEnd | hooks/useCanvas.ts:206-222 | the new state is DrawEnd of the old one: exactly one record with the whole stroke is sent, and the session goes idle |
| UseCanvas.CanvasHook.ClearCanvas | hooks/useCanvas.ts:239-259 | the clear record is appended to the outbox and the local surface is not touched |

## Left out

- Store calls: the insert, the ordered history query with its `created_at` filter, the subscription and `unsubscribe` are network I/O. They are modelled as inputs (the fetch result, the status string) and as appends to the outbox. Errors that are only logged have no effect on the state.
- The debounced sender's timing: a lodash debounce of 100 ms sends only the last call in its window, so two strokes that end within 100 ms of each other lose the first. The model records every call in the outbox and does not claim that every outbox entry reaches the store. The outbox is in call order, not log order. A stroke that ends less than 100 ms before a clear command is inserted after the clear, so it survives that clear on every client and on replay.
- Window resizing, canvas dimensions and devicePixelRatio scaling are floating point and DOM plumbing. So is the bitmap reset that follows a resize.
- Pointer-coordinate computation in `handlePointerEvent` uses a DOM rectangle and float subtraction. Points arrive already computed.
- Render.ApplyDraw, UseCanvas.CanvasHook.HandleRealtimeUpdate and UseCanvas.CanvasHook.HandleDrawMove: the model assumes that every stroke size is positive and every colour parses as a CSS colour. A browser ignores a `lineWidth` of zero, a negative or non-finite width, and a `strokeStyle` that does not parse, and it keeps the previous pen. The model instead records segments with that width or colour. The hook's own records never reach this case. The toolbar sends sizes from a 1 to 50 slider and `#rrggbb` values from a colour input, and clear records never set the pen. CSS colour parsing is not modelled.
- Pixel-level rendering (round caps and joins, anti-aliasing, transparency of `clearRect`) is not modelled. The surface is a list of segments, and a path has a single subpath.
- React's deferred state and stale closures are not modelled. Each callback sees the state that the previous callback left. This is what happens when every pointer event is followed by a re-render.
- Records delivered by the subscription are `HandleRealtimeUpdate` calls. The delivery order and the echo of a client's own records are the store's concern.
- The loading cursor side effect and the presentation components are UI rendering only. The 1 to 50 brush-size range exists only as an HTML slider attribute.
- The optional `isNewStroke` field of the record type is never read, so it is not modelled.
