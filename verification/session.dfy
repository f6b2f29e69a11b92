/**
 The labelling session: the state the application window keeps between events,
 and one pure transition per event handler.
 */
module Labeling {
  import opened Outcomes
  import opened Geometry
  import Labels
  import Zoom
  import opened Annotations
  import Render

  /**
   `polygons` is the drawing list kept beside `annotations`; `openPrompts` counts
   the label windows currently open (a closing click opens one, Confirm and
   Dismiss close one).
   */
  datatype Session = Session(
    imageLoaded: bool,
    zoom: real,
    current: seq<Point>,
    annotations: seq<Annotation>,
    polygons: seq<Annotation>,
    labels: seq<string>,
    openPrompts: nat)

  /** Half the side of the box around the first vertex that closes a polygon. */
  const CloseRadius: real := 10.0

  /** The fewest vertices a polygon may be committed with. */
  const MinVertices: nat := 3

  /** The state right after start-up: no image, zoom 1, the single default label. */
  function Init(): (s: Session)
    ensures !s.imageLoaded && s.zoom == Zoom.Initial && s.labels == Labels.Initial
    ensures s.current == [] && s.annotations == [] && s.polygons == [] && s.openPrompts == 0
  {
    Session(false, Zoom.Initial, [], [], [], Labels.Initial, 0)
  }

  /** What the application guarantees between events. */
  predicate Valid(s: Session)
  {
    && Zoom.InRange(s.zoom)
    && Labels.Distinct(s.labels)
    && |s.labels| > 0 && s.labels[0] == Labels.NotDefined
    && s.annotations == s.polygons
  }

  lemma InitValid()
    ensures Valid(Init())
  {
  }

  /**
   Loading an image; `chosen` is false when the file dialog was cancelled (or the file
   could not be opened), which changes nothing. The label list survives a load.
   */
  function LoadImage(s: Session, chosen: bool): (r: Session)
    ensures !chosen ==> r == s
    ensures chosen ==> r.imageLoaded && r.zoom == Zoom.Initial
    ensures chosen ==> r.current == [] && r.annotations == [] && r.polygons == []
    ensures r.labels == s.labels && r.openPrompts == s.openPrompts
  {
    if !chosen then s
    else s.(imageLoaded := true, zoom := Zoom.Initial, current := [], annotations := [], polygons := [])
  }

  /** Adding a label from the prompt's answer; only the label list can change. */
  function AddLabel(s: Session, input: Option<string>): (r: Session)
    ensures r.(labels := s.labels) == s
    ensures s.labels <= r.labels
    ensures Labels.Distinct(s.labels) ==> Labels.Distinct(r.labels)
    ensures Labels.Accepts(s.labels, input) ==> r.labels == s.labels + [input.value]
    ensures !Labels.Accepts(s.labels, input) ==> r == s
  {
    s.(labels := Labels.Add(s.labels, input))
  }

  /** The per-axis closure box: strictly less than CloseRadius from `first` on both axes. */
  predicate Closes(first: Point, p: Point)
  {
    Abs(p.x - first.x) < CloseRadius && Abs(p.y - first.y) < CloseRadius
  }

  /** The closure box is the open square of half-width CloseRadius centred on `first`. */
  lemma ClosesIsOpenBox(first: Point, p: Point)
    ensures Closes(first, p) <==>
              && first.x - CloseRadius < p.x < first.x + CloseRadius
              && first.y - CloseRadius < p.y < first.y + CloseRadius
  {
  }

  datatype ClickOutcome =
    | NoImage       // no image loaded: the click is ignored
    | Appended      // the click became the next vertex
    | TooFewPoints  // closing click on fewer than three vertices: the polygon is discarded
    | LabelPrompt   // closing click: a label window opened for the polygon

  datatype Clicked = Clicked(next: Session, outcome: ClickOutcome)

  /**
   Closing the in-progress polygon: with fewer than three vertices it is discarded,
   otherwise a label window opens and the polygon waits, unchanged, for a label.
   */
  function FinalizePolygon(s: Session): (r: Clicked)
    ensures r.outcome == TooFewPoints <==> |s.current| < MinVertices
    ensures r.outcome == TooFewPoints || r.outcome == LabelPrompt
    ensures r.outcome == TooFewPoints ==> r.next == s.(current := [])
    ensures r.outcome == LabelPrompt ==> r.next.(openPrompts := s.openPrompts) == s
    ensures r.outcome == LabelPrompt ==> r.next.openPrompts == s.openPrompts + 1
  {
    if |s.current| < MinVertices then Clicked(s.(current := []), TooFewPoints)
    else Clicked(s.(openPrompts := s.openPrompts + 1), LabelPrompt)
  }

  /**
   A left click at canvas position (cx, cy). The position is divided by the zoom; a
   click inside the closure box of the first vertex closes the polygon and is not
   stored, any other click is appended as the last vertex.
   */
  function AddPolygonPoint(s: Session, cx: real, cy: real): (r: Clicked)
    requires s.zoom > 0.0
    ensures r.outcome == NoImage <==> !s.imageLoaded
    ensures r.outcome == NoImage ==> r.next == s
    ensures s.imageLoaded ==>
              ((r.outcome == TooFewPoints || r.outcome == LabelPrompt) <==>
               s.current != [] && Closes(s.current[0], ToImage(cx, cy, s.zoom)))
    ensures r.outcome == Appended ==> r.next.(current := s.current) == s
    ensures r.outcome == Appended ==>
              |r.next.current| == |s.current| + 1 && r.next.current[..|s.current|] == s.current
    ensures r.outcome == Appended ==>
              var p := r.next.current[|s.current|]; p.x * s.zoom == cx && p.y * s.zoom == cy
    ensures r.outcome != Appended && r.outcome != NoImage ==> r == FinalizePolygon(s)
  {
    if !s.imageLoaded then Clicked(s, NoImage)
    else
      var p := ToImage(cx, cy, s.zoom);
      if s.current != [] && Closes(s.current[0], p) then FinalizePolygon(s)
      else Clicked(s.(current := s.current + [p]), Appended)
  }

  /** The drop-down text is a real choice: neither empty nor the placeholder. */
  predicate ValidChoice(name: string)
  {
    name != "" && name != Labels.Placeholder
  }

  /**
   Pressing Confirm in a label window with the drop-down showing `name`. Without an open
   window there is no button; a placeholder or empty choice is rejected and the window
   stays. Otherwise the in-progress polygon is committed once to each list and cleared;
   the window closes only if the redraw that follows succeeds.
   */
  function Confirm(s: Session, name: string): (r: Session)
    requires s.zoom > 0.0
    ensures s.openPrompts == 0 || !ValidChoice(name) ==> r == s
    ensures s.openPrompts > 0 && ValidChoice(name) ==>
              && r.annotations == s.annotations + [Annotation(s.current, name)]
              && r.polygons == s.polygons + [Annotation(s.current, name)]
              && r.current == []
              && r.(annotations := s.annotations, polygons := s.polygons, current := s.current,
                    openPrompts := s.openPrompts) == s
              && (r.openPrompts == s.openPrompts - 1 <==> Render.Drawable(r.polygons))
              && (r.openPrompts == s.openPrompts <==> !Render.Drawable(r.polygons))
  {
    if s.openPrompts == 0 || !ValidChoice(name) then s
    else
      var a := Annotation(s.current, name);
      var committed := s.(annotations := s.annotations + [a], polygons := s.polygons + [a], current := []);
      match Render.Redraw(committed.polygons, committed.current, committed.zoom)
      case Some(_) => committed.(openPrompts := s.openPrompts - 1)
      case None => committed
  }

  /** Closing a label window without confirming: the in-progress polygon survives. */
  function Dismiss(s: Session): (r: Session)
    ensures r.(openPrompts := s.openPrompts) == s
    ensures s.openPrompts > 0 ==> r.openPrompts + 1 == s.openPrompts
    ensures s.openPrompts == 0 ==> r == s
  {
    if s.openPrompts == 0 then s else s.(openPrompts := s.openPrompts - 1)
  }

  /** A wheel turn over the canvas: ignored without an image, otherwise one zoom step. */
  function ZoomImage(s: Session, delta: int): (r: Session)
    ensures r.(zoom := s.zoom) == s
    ensures !s.imageLoaded ==> r == s
    ensures s.imageLoaded && Zoom.InRange(s.zoom * Zoom.Factor(delta)) ==>
              r.zoom == s.zoom * Zoom.Factor(delta)
    ensures !Zoom.InRange(s.zoom * Zoom.Factor(delta)) ==> r.zoom == s.zoom
    ensures Zoom.InRange(s.zoom) ==> Zoom.InRange(r.zoom)
  {
    if !s.imageLoaded then s else s.(zoom := Zoom.Step(s.zoom, delta))
  }

  /** Saving: the export document built from the committed annotations. */
  function SaveAnnotations(s: Session): (r: Result<seq<Record>, ExportError>)
    ensures r.Err? <==> s.annotations == []
    ensures r.Ok? ==> Reread(r.value) == s.annotations
  {
    if s.annotations == [] then Export(s.annotations)
    else
      ExportRoundTrip(s.annotations);
      Export(s.annotations)
  }

  /** The events the application reacts to, with what the toolkit hands each handler. */
  datatype Event =
    | ImageChosen(chosen: bool)
    | LabelEntered(input: Option<string>)
    | CanvasClick(cx: real, cy: real)
    | WheelTurned(delta: int)
    | ConfirmPressed(choice: string)
    | WindowClosed

  /** One event, dispatched to its handler. */
  function Step(s: Session, e: Event): (r: Session)
    requires Valid(s)
    ensures Valid(r)
    ensures s.labels <= r.labels
  {
    match e
    case ImageChosen(chosen) => LoadImage(s, chosen)
    case LabelEntered(input) => AddLabel(s, input)
    case CanvasClick(cx, cy) => AddPolygonPoint(s, cx, cy).next
    case WheelTurned(delta) => ZoomImage(s, delta)
    case ConfirmPressed(choice) => Confirm(s, choice)
    case WindowClosed => Dismiss(s)
  }

  /**
   A run of events. From a valid state the zoom stays in [0.1, 10], the labels stay
   distinct and only grow, and the annotation and drawing lists stay equal.
   */
  function Run(s: Session, es: seq<Event>): (r: Session)
    requires Valid(s)
    ensures Valid(r)
    ensures s.labels <= r.labels
    decreases |es|
  {
    if es == [] then s else Run(Step(s, es[0]), es[1..])
  }

  /** A run is its first step followed by the rest. */
  lemma RunUnfold(s: Session, es: seq<Event>)
    requires Valid(s) && es != []
    ensures Run(s, es) == Run(Step(s, es[0]), es[1..])
  {
  }

  /** Running two event sequences one after the other is running their concatenation. */
  lemma {:induction false} RunAppend(s: Session, a: seq<Event>, b: seq<Event>)
    requires Valid(s)
    ensures Run(s, a + b) == Run(Run(s, a), b)
    decreases |a|
  {
    if a == [] {
      assert a + b == b;
    } else {
      assert (a + b)[0] == a[0] && (a + b)[1..] == a[1..] + b;
      RunAppend(Step(s, a[0]), a[1..], b);
    }
  }

  /** At zoom 1.0 a click outside the closure box is stored as it is. */
  lemma ClickAtUnitZoom(s: Session, x: real, y: real)
    requires Valid(s) && s.imageLoaded && s.zoom == 1.0
    requires s.current == [] || !Closes(s.current[0], Point(x, y))
    ensures Step(s, CanvasClick(x, y)) == s.(current := s.current + [Point(x, y)])
  {
    assert ToImage(x, y, 1.0) == Point(x, y);
  }

  /** At zoom 1.0 a click in the closure box of a polygon of 3 or more vertices opens a window. */
  lemma ClosingClickAtUnitZoom(s: Session, x: real, y: real)
    requires Valid(s) && s.imageLoaded && s.zoom == 1.0 && |s.current| >= MinVertices
    requires Closes(s.current[0], Point(x, y))
    ensures Step(s, CanvasClick(x, y)) == s.(openPrompts := s.openPrompts + 1)
  {
    assert ToImage(x, y, 1.0) == Point(x, y);
  }

  /** At zoom 1.0, three clicks none of which closes on the first draw a triangle. */
  lemma TriangleAtUnitZoom(s: Session, a: Point, b: Point, c: Point)
    requires Valid(s) && s.imageLoaded && s.zoom == 1.0 && s.current == []
    requires !Closes(a, b) && !Closes(a, c)
    ensures Run(s, [CanvasClick(a.x, a.y), CanvasClick(b.x, b.y), CanvasClick(c.x, c.y)])
            == s.(current := [a, b, c])
  {
    var es := [CanvasClick(a.x, a.y), CanvasClick(b.x, b.y), CanvasClick(c.x, c.y)];
    var s1 := s.(current := [a]);
    var s2 := s.(current := [a, b]);
    assert Run(s, es) == Run(s1, es[1..]) by {
      ClickAtUnitZoom(s, a.x, a.y);
      RunUnfold(s, es);
    }
    assert Run(s1, es[1..]) == Run(s2, es[2..]) by {
      ClickAtUnitZoom(s1, b.x, b.y);
      assert s1.current + [b] == s2.current;
      RunUnfold(s1, es[1..]);
    }
    assert Run(s2, es[2..]) == s.(current := [a, b, c]) by {
      ClickAtUnitZoom(s2, c.x, c.y);
      assert s2.current + [c] == [a, b, c];
      RunUnfold(s2, es[2..]);
    }
  }

  /** Confirming a valid choice whose redraw succeeds commits the polygon and closes the window. */
  lemma ConfirmCommits(s: Session, name: string)
    requires Valid(s) && s.openPrompts > 0 && ValidChoice(name)
    requires Render.Drawable(s.polygons + [Annotation(s.current, name)])
    ensures Step(s, ConfirmPressed(name))
            == s.(annotations := s.annotations + [Annotation(s.current, name)],
                  polygons := s.polygons + [Annotation(s.current, name)],
                  current := [], openPrompts := s.openPrompts - 1)
  {
  }

  /** Confirming a valid choice whose redraw fails commits the polygon and leaves the window open. */
  lemma ConfirmKeepsWindow(s: Session, name: string)
    requires Valid(s) && s.openPrompts > 0 && ValidChoice(name)
    requires !Render.Drawable(s.polygons + [Annotation(s.current, name)])
    ensures Step(s, ConfirmPressed(name))
            == s.(annotations := s.annotations + [Annotation(s.current, name)],
                  polygons := s.polygons + [Annotation(s.current, name)],
                  current := [])
  {
  }

  /** The zoom level the application reaches after start-up is within [0.1, 10]. */
  lemma ReachableZoomInRange(es: seq<Event>)
    ensures Zoom.InRange(Run(Init(), es).zoom)
    ensures Run(Init(), es).labels[0] == Labels.NotDefined
  {
  }

  /** Clicks that are all outside the closure box of the first vertex append, in order. */
  function Clicks(s: Session, cs: seq<Point>): (r: Session)
    requires s.zoom > 0.0
    ensures r.zoom == s.zoom
    decreases |cs|
  {
    if cs == [] then s else Clicks(AddPolygonPoint(s, cs[0].x, cs[0].y).next, cs[1..])
  }

  /** One click outside the closure box of the first vertex appends its image-space point. */
  lemma NonClosingClickAppends(s: Session, c: Point)
    requires s.zoom > 0.0 && s.imageLoaded && s.current != []
    requires !Closes(s.current[0], ToImage(c.x, c.y, s.zoom))
    ensures AddPolygonPoint(s, c.x, c.y).next == s.(current := s.current + [ToImage(c.x, c.y, s.zoom)])
  {
  }

  /**
   With an image loaded and a first vertex placed, clicks none of which falls in its
   closure box each add exactly one vertex, and nothing else changes.
   */
  lemma {:induction false} NonClosingClicksAppend(s: Session, cs: seq<Point>)
    requires s.zoom > 0.0 && s.imageLoaded && s.current != []
    requires forall i :: 0 <= i < |cs| ==> !Closes(s.current[0], ToImage(cs[i].x, cs[i].y, s.zoom))
    ensures Clicks(s, cs) == s.(current := s.current + Unscale(cs, s.zoom))
    decreases |cs|
  {
    if cs != [] {
      var p := ToImage(cs[0].x, cs[0].y, s.zoom);
      var t := s.(current := s.current + [p]);
      var rest := cs[1..];
      assert Clicks(s, cs) == Clicks(t, rest) by {
        NonClosingClickAppends(s, cs[0]);
      }
      assert Clicks(t, rest) == t.(current := t.current + Unscale(rest, s.zoom)) by {
        assert t.current[0] == s.current[0] && t.zoom == s.zoom;
        forall i | 0 <= i < |rest|
          ensures !Closes(t.current[0], ToImage(rest[i].x, rest[i].y, t.zoom))
        {
          assert rest[i] == cs[i + 1];
        }
        NonClosingClicksAppend(t, rest);
      }
      assert t.(current := t.current + Unscale(rest, s.zoom)) == s.(current := s.current + Unscale(cs, s.zoom)) by {
        assert Unscale(cs, s.zoom) == [p] + Unscale(rest, s.zoom);
        assert t.current + Unscale(rest, s.zoom) == s.current + Unscale(cs, s.zoom);
      }
    }
  }
}
