/** The drawing canvas: a two-state stroke machine over a persistent pixel buffer.
    The buffer is kept abstract as the log of line segments painted into it
    since the canvas was created or last cleared; the empty log is the all-zero buffer. */
module Drawing {
  import opened Wrappers
  import opened Landmarks
  import opened Palette

  datatype Tools = PEN | ERASER

  /** One straight line painted into the buffer: end points, colour, thickness. */
  datatype Segment = Segment(from: Point, to: Point, colour: Bgr, thickness: int)

  const PenThickness := 15
  const EraserThickness := 125

  /** What a canvas holds, as one value: the stroke state, the tool, the colour
      and the painted buffer. */
  datatype CanvasState = CanvasState(drawing: bool, anchor: Option<Point>, tool: Tools, colour: Colours, painted: seq<Segment>)

  /** A stroke is in progress exactly when there is an anchor to continue from. */
  predicate StrokeConsistent(s: CanvasState)
  {
    s.drawing <==> s.anchor.Some?
  }

  const Initial := CanvasState(false, None, PEN, RED, [])

  /** The segment the current tool paints from the anchor to `p`: the selected
      colour at pen thickness, or the background colour at eraser thickness. */
  function Stroke(tool: Tools, colour: Colours, from: Point, to: Point): Segment
  {
    match tool
    case PEN => Segment(from, to, Value(colour), PenThickness)
    case ERASER => Segment(from, to, Black, EraserThickness)
  }

  /** `draw(p)`: while a stroke is in progress, paint from the anchor to `p` and
      move the anchor to `p`; otherwise nothing. */
  function Drawn(s: CanvasState, p: Point): CanvasState
  {
    if !s.drawing || s.anchor.None? then s
    else s.(painted := s.painted + [Stroke(s.tool, s.colour, s.anchor.value, p)], anchor := Some(p))
  }

  /** `start_drawing(p)`. */
  function Started(s: CanvasState, p: Point): CanvasState
  {
    s.(drawing := true, anchor := Some(p))
  }

  /** `stop_drawing()`. */
  function Stopped(s: CanvasState): CanvasState
  {
    s.(drawing := false, anchor := None)
  }

  function WithColour(s: CanvasState, c: Colours): CanvasState
  {
    s.(colour := c)
  }

  function WithTool(s: CanvasState, t: Tools): CanvasState
  {
    s.(tool := t)
  }

  /** `clear()`: the buffer goes back to all zero. */
  function Cleared(s: CanvasState): CanvasState
  {
    s.(painted := [])
  }

  /** Drawing outside a stroke, or without an anchor, changes nothing at all. */
  lemma DrawWhileIdle(s: CanvasState, p: Point)
    requires !s.drawing || s.anchor.None?
    ensures Drawn(s, p) == s
  {
  }

  /** Choosing a colour or a tool never touches the buffer or the stroke. */
  lemma SettingsKeepBuffer(s: CanvasState, c: Colours, t: Tools)
    ensures WithColour(s, c).painted == s.painted && WithTool(s, t).painted == s.painted
    ensures WithColour(s, c).drawing == s.drawing && WithColour(s, c).anchor == s.anchor
    ensures WithTool(s, t).drawing == s.drawing && WithTool(s, t).anchor == s.anchor
    ensures WithColour(s, c).colour == c && WithColour(s, c).tool == s.tool
    ensures WithTool(s, t).tool == t && WithTool(s, t).colour == s.colour
  {
  }

  /** Within a stroke, the pen paints one segment from the anchor in the
      selected colour at thickness 15, the eraser one in black at thickness
      125, and the anchor advances; the stroke state, tool and colour stay. */
  lemma DrawWhileDrawing(s: CanvasState, p: Point)
    requires StrokeConsistent(s) && s.drawing
    ensures var d := Drawn(s, p);
      && d.painted == s.painted + [Segment(s.anchor.value, p,
                                           if s.tool == PEN then Value(s.colour) else Black,
                                           if s.tool == PEN then 15 else 125)]
      && d.drawing && d.anchor == Some(p) && d.tool == s.tool && d.colour == s.colour
  {
  }

  /** Every canvas operation keeps "drawing exactly when anchored". */
  lemma OperationsKeepStrokeConsistent(s: CanvasState, p: Point, c: Colours, t: Tools)
    requires StrokeConsistent(s)
    ensures StrokeConsistent(Drawn(s, p)) && StrokeConsistent(Started(s, p)) && StrokeConsistent(Stopped(s))
    ensures StrokeConsistent(WithColour(s, c)) && StrokeConsistent(WithTool(s, t)) && StrokeConsistent(Cleared(s))
  {
  }

  /** Stopping is idempotent and never touches the buffer, tool or colour. */
  lemma StopIdempotent(s: CanvasState)
    ensures Stopped(Stopped(s)) == Stopped(s)
    ensures Stopped(s).painted == s.painted && Stopped(s).tool == s.tool && Stopped(s).colour == s.colour
    ensures !Stopped(s).drawing && Stopped(s).anchor.None?
  {
  }

  /** Clearing empties the buffer whatever the stroke state, and keeps the stroke state. */
  lemma ClearKeepsStroke(s: CanvasState)
    ensures Cleared(s).painted == []
    ensures Cleared(s).drawing == s.drawing && Cleared(s).anchor == s.anchor
    ensures Cleared(s).tool == s.tool && Cleared(s).colour == s.colour
  {
  }

  /** The segments of a polyline through `from` and then each of `points`. */
  function Polyline(tool: Tools, colour: Colours, from: Point, points: seq<Point>): (segs: seq<Segment>)
    decreases |points|
    ensures |segs| == |points|
    ensures forall k :: 0 <= k < |points| ==>
              segs[k] == Stroke(tool, colour, if k == 0 then from else points[k - 1], points[k])
  {
    if points == [] then []
    else [Stroke(tool, colour, from, points[0])] + Polyline(tool, colour, points[0], points[1..])
  }

  /** Drawing at each of `points` in turn. */
  function DrawAll(s: CanvasState, points: seq<Point>): CanvasState
    decreases |points|
  {
    if points == [] then s else DrawAll(Drawn(s, points[0]), points[1..])
  }

  /** A stroke started at `p0` and drawn through `points` paints a connected
      polyline: each segment starts where the previous one ended, never back at
      `p0`. The anchor ends on the last point. */
  lemma {:induction false} StrokeIsPolyline(s: CanvasState, p0: Point, points: seq<Point>)
    decreases |points|
    ensures DrawAll(Started(s, p0), points).painted == s.painted + Polyline(s.tool, s.colour, p0, points)
    ensures DrawAll(Started(s, p0), points).drawing
    ensures DrawAll(Started(s, p0), points).anchor == Some(if points == [] then p0 else points[|points| - 1])
  {
    if points != [] {
      var first := Stroke(s.tool, s.colour, p0, points[0]);
      var s1 := s.(painted := s.painted + [first]);
      assert Drawn(Started(s, p0), points[0]) == Started(s1, points[0]);
      StrokeIsPolyline(s1, points[0], points[1..]);
      assert s.painted + Polyline(s.tool, s.colour, p0, points) == s1.painted + Polyline(s.tool, s.colour, points[0], points[1..]);
    }
  }

  /** `start(p1); draw(p2); draw(p3)` paints exactly p1→p2 then p2→p3. */
  lemma TwoSegments(s: CanvasState, p1: Point, p2: Point, p3: Point)
    ensures Drawn(Drawn(Started(s, p1), p2), p3).painted == s.painted + [Stroke(s.tool, s.colour, p1, p2), Stroke(s.tool, s.colour, p2, p3)]
  {
  }

  class DrawingCanvas {
    const width: nat
    const height: nat
    /** The pixel buffer, height × width × 3, as its log of painted segments. */
    var canvas: seq<Segment>

    var currentColourName: string
    var currentColour: Colours
    const thickness := PenThickness
    const eraserThickness := EraserThickness
    var currentTool: Tools
    var drawing: bool
    var startPoint: Option<Point>

    /** The colour name always names the colour, and a stroke is in progress
        exactly when there is a start point. */
    ghost predicate Valid()
      reads this
    {
      currentColourName == Name(currentColour) && (drawing <==> startPoint.Some?)
    }

    function State(): CanvasState
      reads this
    {
      CanvasState(drawing, startPoint, currentTool, currentColour, canvas)
    }

    /** An all-zero buffer of the given size; red pen, no stroke. */
    constructor (width: nat, height: nat)
      ensures Valid() && State() == Initial
      ensures this.width == width && this.height == height && currentColourName == "RED"
    {
      this.height := height;
      this.width := width;
      canvas := [];
      currentColourName := Name(RED);
      currentColour := RED;
      currentTool := PEN;
      drawing := false;
      startPoint := None;
    }

    method Draw(point: Point)
      requires Valid()
      modifies this
      ensures Valid() && State() == Drawn(old(State()), point)
    {
      if !drawing || startPoint.None? {
        return;
      }
      if currentTool == PEN {
        var bgrColour := Value(currentColour);
        canvas := canvas + [Segment(startPoint.value, point, bgrColour, thickness)];
        startPoint := Some(point);
        return;
      }
      if currentTool == ERASER {
        canvas := canvas + [Segment(startPoint.value, point, Black, eraserThickness)];
        startPoint := Some(point);
      }
    }

    method StartDrawing(point: Point)
      requires Valid()
      modifies this
      ensures Valid() && State() == Started(old(State()), point)
    {
      drawing := true;
      startPoint := Some(point);
    }

    method StopDrawing()
      requires Valid()
      modifies this
      ensures Valid() && State() == Stopped(old(State()))
    {
      drawing := false;
      startPoint := None;
    }

    /** `set_colour(name)`; the name must be a palette name, as `Colours[name]`
        raises otherwise. */
    method SetColour(colour: string)
      requires Valid() && IsName(colour)
      modifies this
      ensures Valid() && State() == WithColour(old(State()), Lookup(colour).value)
      ensures currentColourName == colour
    {
      currentColourName := colour;
      currentColour := Lookup(colour).value;
    }

    method SetTool(tool: Tools)
      requires Valid()
      modifies this
      ensures Valid() && State() == WithTool(old(State()), tool)
    {
      currentTool := tool;
    }

    /** A copy of the buffer. */
    method GetDisplay() returns (snapshot: seq<Segment>)
      ensures snapshot == canvas
    {
      snapshot := canvas;
    }

    /** A fresh all-zero buffer of the same size. */
    method Clear()
      requires Valid()
      modifies this
      ensures Valid() && State() == Cleared(old(State()))
    {
      canvas := [];
    }
  }
}
