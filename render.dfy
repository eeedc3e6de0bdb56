/** The render step and the replay fold, as functions on the surface (the list
    of stroked segments). The hook's methods in module UseCanvas are proved
    against these. */
module Render {
  import opened Types
  import opened Canvas2D

  /** The pen colour of a stroke: the eraser paints white, the brush its colour. */
  function StrokeStyle(tool: Tool, color: string): string
  {
    if tool == Eraser then "white" else color
  }

  /** Applying one log record to the surface: a clear wipes it, a draw record
      with at least two points strokes its polyline, a shorter one adds nothing. */
  function Apply(surface: seq<Segment>, e: DrawEvent): seq<Segment>
  {
    if e.eventType == Clear then []
    else if |e.properties.points| < 2 then surface
    else surface + Polyline(StrokeStyle(e.properties.tool, e.properties.color), e.properties.size, e.properties.points)
  }

  /** Applying the records one by one, in log order. */
  function Replay(events: seq<DrawEvent>, surface: seq<Segment>): seq<Segment>
    decreases |events|
  {
    if events == [] then surface else Replay(events[1..], Apply(surface, events[0]))
  }

  /** A clear record empties the surface, whatever it held. */
  lemma ApplyClear(surface: seq<Segment>, e: DrawEvent)
    requires e.eventType == Clear
    ensures Apply(surface, e) == []
  {
  }

  /** A draw record with fewer than two points leaves the surface as it was. */
  lemma ApplyShortDraw(surface: seq<Segment>, e: DrawEvent)
    requires e.eventType == Draw && |e.properties.points| < 2
    ensures Apply(surface, e) == surface
  {
  }

  /** A draw record with n >= 2 points keeps what was there and appends exactly
      n - 1 segments, the i-th from point i to point i + 1, in the eraser's
      white or the record's colour and with the record's size as width. */
  lemma ApplyDraw(surface: seq<Segment>, e: DrawEvent)
    requires e.eventType == Draw && |e.properties.points| >= 2
    ensures var r, pts := Apply(surface, e), e.properties.points;
      && |r| == |surface| + |pts| - 1
      && r[..|surface|] == surface
      && forall i :: 0 <= i < |pts| - 1 ==>
           r[|surface| + i] == Segment(StrokeStyle(e.properties.tool, e.properties.color), e.properties.size, pts[i], pts[i + 1])
  {
    PolylineAt(StrokeStyle(e.properties.tool, e.properties.color), e.properties.size, e.properties.points);
  }

  /** Replaying two runs of records one after the other is replaying their
      concatenation: records that arrive live after a replay extend the fold. */
  lemma {:induction false} ReplayConcat(xs: seq<DrawEvent>, ys: seq<DrawEvent>, surface: seq<Segment>)
    ensures Replay(xs + ys, surface) == Replay(ys, Replay(xs, surface))
    decreases |xs|
  {
    if xs == [] {
      assert xs + ys == ys;
    } else {
      assert (xs + ys)[1..] == xs[1..] + ys;
      ReplayConcat(xs[1..], ys, Apply(surface, xs[0]));
    }
  }

  /** Replaying one more record applies it to the replayed surface. */
  lemma ReplaySnoc(xs: seq<DrawEvent>, e: DrawEvent, surface: seq<Segment>)
    ensures Replay(xs + [e], surface) == Apply(Replay(xs, surface), e)
  {
    ReplayConcat(xs, [e], surface);
  }

  /** The records after the last clear record of the log (all of it if it has none). */
  function AfterLastClear(events: seq<DrawEvent>): seq<DrawEvent>
    decreases |events|
  {
    if events == [] then []
    else if events[|events| - 1].eventType == Clear then []
    else AfterLastClear(events[..|events| - 1]) + [events[|events| - 1]]
  }

  predicate HasClear(events: seq<DrawEvent>)
  {
    exists i :: 0 <= i < |events| && events[i].eventType == Clear
  }

  /** AfterLastClear is the suffix of the log that holds no clear record and is
      preceded by one, or by nothing. */
  lemma {:induction false} AfterLastClearIsSuffix(events: seq<DrawEvent>)
    ensures var k := |events| - |AfterLastClear(events)|;
      && |AfterLastClear(events)| <= |events|
      && AfterLastClear(events) == events[k..]
      && (forall i :: k <= i < |events| ==> events[i].eventType == Draw)
      && (k > 0 <==> HasClear(events))
      && (k > 0 ==> events[k - 1].eventType == Clear)
    decreases |events|
  {
    if events != [] {
      var init, last := events[..|events| - 1], events[|events| - 1];
      assert events == init + [last];
      if last.eventType == Clear {
        assert HasClear(events);
      } else {
        AfterLastClearIsSuffix(init);
        if HasClear(events) {
          var j :| 0 <= j < |events| && events[j].eventType == Clear;
          assert j < |init| && init[j] == events[j];
        }
        if HasClear(init) {
          var j :| 0 <= j < |init| && init[j].eventType == Clear;
          assert events[j] == init[j];
        }
      }
    }
  }

  /** Replay from any surface equals replaying only the records after the last
      clear, from blank when the log holds a clear and from that surface when it
      does not. */
  lemma {:induction false} ReplayAfterLastClear(events: seq<DrawEvent>, surface: seq<Segment>)
    ensures Replay(events, surface) == Replay(AfterLastClear(events), if HasClear(events) then [] else surface)
    decreases |events|
  {
    if events != [] {
      var init, last := events[..|events| - 1], events[|events| - 1];
      assert events == init + [last];
      ReplaySnoc(init, last, surface);
      if last.eventType == Clear {
        assert HasClear(events);
      } else {
        ReplayAfterLastClear(init, surface);
        ReplaySnoc(AfterLastClear(init), last, if HasClear(init) then [] else surface);
        assert HasClear(events) == HasClear(init) by {
          if HasClear(events) {
            var j :| 0 <= j < |events| && events[j].eventType == Clear;
            assert j < |init| && init[j] == events[j];
          }
          if HasClear(init) {
            var j :| 0 <= j < |init| && init[j].eventType == Clear;
            assert events[j] == init[j];
          }
        }
      }
    }
  }

  /** The canvas a fresh client rebuilds from a log is the fold of the records
      after the last clear, from blank. */
  lemma ReplayFromBlank(events: seq<DrawEvent>)
    ensures Replay(events, []) == Replay(AfterLastClear(events), [])
  {
    ReplayAfterLastClear(events, []);
  }

  /** Order matters: a clear then a stroke shows the stroke; a stroke then a
      clear shows nothing. */
  lemma ReplayOrder(a: DrawEvent, c: DrawEvent, surface: seq<Segment>)
    requires a.eventType == Draw && c.eventType == Clear
    ensures Replay([c, a], surface) == Apply([], a)
    ensures Replay([a, c], surface) == []
  {
    assert [c, a][1..] == [a] && [a][1..] == [];
    assert Replay([c, a], surface) == Replay([a], []);
    assert Replay([a], []) == Replay([], Apply([], a));
    assert [a, c][1..] == [c] && [c][1..] == [];
    assert Replay([a, c], surface) == Replay([c], Apply(surface, a));
  }
}
