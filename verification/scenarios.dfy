/** Concrete sessions: the documented walk-throughs, run through the model. */
module Scenarios {
  import opened Outcomes
  import opened Geometry
  import Labels
  import opened Annotations
  import Render
  import opened Labeling

  /** The session right after an image is loaded at start-up. */
  function Loaded(): (s: Session)
    ensures Valid(s) && s.imageLoaded && s.zoom == 1.0 && s.current == []
  {
    Session(true, 1.0, [], [], [], Labels.Initial, 0)
  }

  function Triangle(): seq<Point>
  {
    [Point(10.0, 10.0), Point(100.0, 10.0), Point(100.0, 100.0)]
  }

  lemma BoxLoad()
    ensures Run(Init(), [ImageChosen(true)]) == Loaded()
  {
    InitValid();
    RunUnfold(Init(), [ImageChosen(true)]);
  }

  lemma BoxDraw()
    ensures Run(Loaded(), [CanvasClick(10.0, 10.0), CanvasClick(100.0, 10.0), CanvasClick(100.0, 100.0)])
            == Loaded().(current := Triangle())
  {
    TriangleAtUnitZoom(Loaded(), Point(10.0, 10.0), Point(100.0, 10.0), Point(100.0, 100.0));
  }

  lemma BoxCommit()
    ensures var box := Annotation(Triangle(), "Box");
            Run(Loaded().(current := Triangle()), [CanvasClick(12.0, 12.0), ConfirmPressed("Box")])
            == Loaded().(annotations := [box], polygons := [box])
  {
    var es := [CanvasClick(12.0, 12.0), ConfirmPressed("Box")];
    var box := Annotation(Triangle(), "Box");
    var s4 := Loaded().(current := Triangle());
    var s5 := s4.(openPrompts := 1);
    var s6 := Loaded().(annotations := [box], polygons := [box]);
    assert Run(s4, es) == Run(s5, es[1..]) by {
      ClosingClickAtUnitZoom(s4, 12.0, 12.0);
      RunUnfold(s4, es);
    }
    assert Run(s5, es[1..]) == s6 by {
      assert Render.Drawable(s6.polygons);
      ConfirmCommits(s5, "Box");
      RunUnfold(s5, es[1..]);
    }
  }

  /**
   Load an image, click (10,10), (100,10), (100,100), then (12,12), which falls in the
   closure box of (10,10); confirming "Box" commits the triangle without the closing click.
   */
  lemma BoxScenario()
    ensures var t := Run(Init(), [ImageChosen(true),
                                  CanvasClick(10.0, 10.0), CanvasClick(100.0, 10.0),
                                  CanvasClick(100.0, 100.0), CanvasClick(12.0, 12.0),
                                  ConfirmPressed("Box")]);
      && t.annotations == [Annotation([Point(10.0, 10.0), Point(100.0, 10.0), Point(100.0, 100.0)], "Box")]
      && t.current == [] && t.openPrompts == 0
  {
    var load := [ImageChosen(true)];
    var draw := [CanvasClick(10.0, 10.0), CanvasClick(100.0, 10.0), CanvasClick(100.0, 100.0)];
    var commit := [CanvasClick(12.0, 12.0), ConfirmPressed("Box")];
    InitValid();
    assert load + (draw + commit) == [ImageChosen(true),
                                      CanvasClick(10.0, 10.0), CanvasClick(100.0, 10.0),
                                      CanvasClick(100.0, 100.0), CanvasClick(12.0, 12.0),
                                      ConfirmPressed("Box")];
    RunAppend(Init(), load, draw + commit);
    BoxLoad();
    RunAppend(Loaded(), draw, commit);
    BoxDraw();
    BoxCommit();
  }

  /** Closing after two clicks discards them and opens no window. */
  lemma TwoPointScenario()
    ensures var t := Run(Init(), [ImageChosen(true),
                                  CanvasClick(10.0, 10.0), CanvasClick(100.0, 10.0),
                                  CanvasClick(15.0, 5.0)]);
      && t.current == [] && t.annotations == [] && t.openPrompts == 0
  {
  }

  /**
   Closing the label window keeps the triangle: the next click in the closure box
   opens a window for it again.
   */
  lemma DismissScenario(s: Session)
    requires Valid(s) && s.imageLoaded && s.openPrompts == 0 && s.zoom == 1.0
    requires s.current == [Point(10.0, 10.0), Point(100.0, 10.0), Point(100.0, 100.0)]
    ensures var t := Run(s, [CanvasClick(12.0, 12.0), WindowClosed, CanvasClick(8.0, 11.0)]);
      && t.current == s.current && t.annotations == s.annotations && t.openPrompts == 1
  {
  }

  /** Re-adding the default label changes nothing; a new name is appended. */
  lemma LabelScenario()
    ensures Labels.Add(Labels.Initial, Some(Labels.NotDefined)) == [Labels.NotDefined]
    ensures Labels.Add(Labels.Initial, Some("Car")) == [Labels.NotDefined, "Car"]
    ensures Labels.Add(Labels.Initial, Some("")) == Labels.Initial
    ensures Labels.Add(Labels.Initial, None) == Labels.Initial
  {
  }

  /**
   The placeholder text can be registered as a label, but choosing it in the label
   window is still rejected.
   */
  lemma PlaceholderScenario(s: Session)
    requires Valid(s) && s.openPrompts > 0 && Labels.Placeholder !in s.labels
    ensures Labels.Placeholder in AddLabel(s, Some(Labels.Placeholder)).labels
    ensures Confirm(AddLabel(s, Some(Labels.Placeholder)), Labels.Placeholder) == AddLabel(s, Some(Labels.Placeholder))
  {
  }

  /** Saving straight after start-up or after a load reports that nothing can be saved. */
  lemma EmptyExportScenario(s: Session)
    ensures SaveAnnotations(Init()) == Err(NothingToExport)
    ensures SaveAnnotations(LoadImage(s, true)) == Err(NothingToExport)
  {
  }
}
