/** The records the drawing core exchanges with the event log and renders.
    Coordinates are canvas-local pixels; the core only copies them, so they are
    integers here. */
module Types {

  datatype Point = Point(x: int, y: int)

  /** The two drawing tools. */
  datatype Tool = Brush | Eraser

  /** The tag of a log record: a finished stroke or a clear command. */
  datatype EventType = Draw | Clear

  /** The payload every record carries; a clear record fills it with
      placeholder values. */
  datatype Properties = Properties(tool: Tool, color: string, size: int, points: seq<Point>)

  /** One record of the append-only event log. */
  datatype DrawEvent = DrawEvent(eventType: EventType, properties: Properties)
}
