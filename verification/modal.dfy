/**
 The label window as the application intends it: while a window is open, the main
 window takes no input. The handlers in `Labeling` are dispatched as the toolkit
 does it, where the main window keeps taking input; `EmptyAnnotationReachable`
 shows a run that then commits a polygon with no vertices, and `ModalRun` is the
 corrected session in which every committed polygon has at least three.
 */
module Modal {
  import opened Outcomes
  import opened Geometry
  import Labels
  import opened Annotations
  import Render
  import opened Labeling

  /** Loading, adding labels, clicking and zooming all happen in the main window. */
  predicate FromMainWindow(e: Event)
  {
    !e.ConfirmPressed? && !e.WindowClosed?
  }

  /** The committed polygons are proper polygons and an open window holds one. */
  predicate Shaped(s: Session)
  {
    && s.openPrompts <= 1
    && (s.openPrompts == 1 ==> |s.current| >= MinVertices)
    && forall i :: 0 <= i < |s.annotations| ==> |s.annotations[i].points| >= MinVertices
  }

  /** One event with the label window modal: main-window input waits for it to close. */
  function ModalStep(s: Session, e: Event): (r: Session)
    requires Valid(s)
    ensures Valid(r)
    ensures s.openPrompts > 0 && FromMainWindow(e) ==> r == s
    ensures s.openPrompts == 0 || !FromMainWindow(e) ==> r == Step(s, e)
    ensures Shaped(s) ==> Shaped(r)
  {
    if s.openPrompts > 0 && FromMainWindow(e) then s
    else
      var r := Step(s, e);
      if Shaped(s) then
        assert Shaped(r) by { ModalStepKeepsShape(s, e); }
        r
      else r
  }

  /** Every event the modal window lets through keeps the session shaped. */
  lemma ModalStepKeepsShape(s: Session, e: Event)
    requires Valid(s) && Shaped(s)
    requires s.openPrompts == 0 || !FromMainWindow(e)
    ensures Shaped(Step(s, e))
  {
  }

  /** A run of events with the label window modal. */
  function ModalRun(s: Session, es: seq<Event>): (r: Session)
    requires Valid(s)
    ensures Valid(r)
    ensures s.labels <= r.labels
    ensures Shaped(s) ==> Shaped(r)
    decreases |es|
  {
    if es == [] then s else ModalRun(ModalStep(s, es[0]), es[1..])
  }

  /**
   In the corrected session every committed polygon has at least three vertices,
   so a redraw never divides by zero, whatever the events.
   */
  lemma ModalRedrawSucceeds(es: seq<Event>)
    ensures var t := ModalRun(Init(), es);
      && (forall i :: 0 <= i < |t.annotations| ==> |t.annotations[i].points| >= MinVertices)
      && Render.Redraw(t.polygons, t.current, t.zoom).Some?
  {
  }

  /** The run that exposes the non-modal window. */
  function LoadDuringPrompt(): seq<Event>
  {
    [ ImageChosen(true),
      CanvasClick(0.0, 0.0), CanvasClick(100.0, 0.0), CanvasClick(100.0, 100.0),
      CanvasClick(1.0, 1.0),             // closes the triangle: a label window opens
      ImageChosen(true),                 // a second image is loaded while it is open
      ConfirmPressed(Labels.NotDefined)  // the window commits the now empty polygon
    ]
  }

  /** The loaded session in which the label window is open over the triangle. */
  function PromptOpen(): Session
  {
    Session(true, 1.0, [Point(0.0, 0.0), Point(100.0, 0.0), Point(100.0, 100.0)], [], [], Labels.Initial, 1)
  }

  /** The first five events of the trace draw the triangle and open the label window. */
  lemma ReachPromptOpen()
    ensures Valid(PromptOpen()) && Run(Init(), LoadDuringPrompt()[..5]) == PromptOpen()
  {
    var load := [ImageChosen(true)];
    var draw := [CanvasClick(0.0, 0.0), CanvasClick(100.0, 0.0), CanvasClick(100.0, 100.0)];
    var close := [CanvasClick(1.0, 1.0)];
    var s1 := Session(true, 1.0, [], [], [], Labels.Initial, 0);
    var s4 := s1.(current := PromptOpen().current);
    InitValid();
    assert load + (draw + close) == LoadDuringPrompt()[..5];
    RunAppend(Init(), load, draw + close);
    assert Run(Init(), load) == s1 by { RunUnfold(Init(), load); }
    RunAppend(s1, draw, close);
    TriangleAtUnitZoom(s1, Point(0.0, 0.0), Point(100.0, 0.0), Point(100.0, 100.0));
    assert Run(s4, close) == PromptOpen() by {
      ClosingClickAtUnitZoom(s4, 1.0, 1.0);
      RunUnfold(s4, close);
    }
  }

  /** Reloading with the window open empties the polygon; Confirm then commits it empty. */
  lemma ReloadThenConfirm()
    requires Valid(PromptOpen())
    ensures Run(PromptOpen(), LoadDuringPrompt()[5..])
            == Session(true, 1.0, [], [Annotation([], Labels.NotDefined)], [Annotation([], Labels.NotDefined)],
                       Labels.Initial, 1)
  {
    var es := [ImageChosen(true), ConfirmPressed(Labels.NotDefined)];
    assert es == LoadDuringPrompt()[5..];
    var s6 := Session(true, 1.0, [], [], [], Labels.Initial, 1);
    assert Run(PromptOpen(), es) == Run(s6, es[1..]) by { RunUnfold(PromptOpen(), es); }
    assert !Render.Drawable(s6.polygons + [Annotation(s6.current, Labels.NotDefined)]);
    ConfirmKeepsWindow(s6, Labels.NotDefined);
    RunUnfold(s6, es[1..]);
  }

  /**
   As dispatched by the toolkit, loading an image while a label window is open and
   then confirming commits a polygon with no vertices; the redraw that follows fails,
   so the window never closes.
   */
  lemma EmptyAnnotationReachable()
    ensures var t := Run(Init(), LoadDuringPrompt());
      && t.annotations == [Annotation([], Labels.NotDefined)]
      && Render.Redraw(t.polygons, t.current, t.zoom).None?
      && t.openPrompts == 1
  {
    var es := LoadDuringPrompt();
    InitValid();
    ReachPromptOpen();
    RunAppend(Init(), es[..5], es[5..]);
    assert es[..5] + es[5..] == es;
    ReloadThenConfirm();
  }
}
