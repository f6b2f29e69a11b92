# Image labelling session, modelled in Dafny

This project models the session logic of the image labelling tool. The tool is a
single window. The user loads an image and clicks vertices onto it. Clicking near
the first vertex closes the polygon. The user then picks a label for it in a label
window, and finally saves the committed (polygon, label) annotations as a document.
Everything runs in one Tkinter class in `main.py`. The model keeps the state that
class holds between events in an immutable `Labeling.Session` record:

- whether an image is loaded;
- the zoom level;
- the in-progress polygon `current`;
- the committed `annotations` and the drawing list `polygons`, which are kept equal;
- the label registry;
- the number of open label windows.

Each event handler becomes a pure transition function. Coordinates are Dafny `real`s.

Modules, leaf first:

- `Outcomes` (`outcomes.dfy`): `Option` and `Result`.
- `Geometry` (`geometry.dfy`): image-space points, the division by zoom when a click
  is stored, the multiplication by zoom when a polygon is drawn, and the centroid
  used to place label text.
- `Labels` (`labels.dfy`): the label registry, which starts as `["Not Defined"]` and
  grows by append-if-absent.
- `Zoom` (`zoom.dfy`): one wheel step. The zoom is multiplied by 1.1 or 0.9, and a
  step whose result would leave [0.1, 10] is rejected.
- `Annotations` (`annotations.dfy`): the annotation record and the export records.
- `Render` (`render.dfy`): the geometry of a full redraw.
- `Labeling` (`session.dfy`): the session record, one function per handler, the
  `Event` type, and `Step`/`Run` over sequences of events.
- `Modal` (`modal.dfy`): the label window as the code evidently intends it, with
  main-window input held back while it is open (see Findings).
- `Scenarios` (`scenarios.dfy`): documented walk-throughs run through the model.

The model follows the code, including where a reader might expect otherwise:

- Zooming out multiplies by 0.9, not by 1/1.1. So zooming in and then out ends at
  0.99 of the old level (`Zoom.InThenOutDrifts`).
- Closing the label window without confirming does not discard the in-progress
  polygon. Nothing runs after `wait_window`, so the polygon stays and the next
  closing click opens a new window (`Labeling.Dismiss`, `Scenarios.DismissScenario`).
- Confirm does not check that the chosen name is registered. It rejects only an
  empty choice and the placeholder `"Select Label"`. The placeholder can itself be
  added as a label, and choosing it is still rejected (`Scenarios.PlaceholderScenario`).
- Closure is a strict per-axis box of half-width 10 around the first vertex. Both
  points are in image space, so the box does not change with zoom. It is not a
  Euclidean distance test.
- The label window does not block the main window (see Findings).

The toolkit's callbacks become inputs:

- a click arrives as canvas coordinates (`canvasx`/`canvasy` already applied);
- a wheel turn arrives as its `delta`;
- the Add Label prompt arrives as an `Option<string>` (None when cancelled);
- the file dialog and image decoding arrive as one flag that says whether an image
  was opened;
- the label window's drop-down arrives as the text it shows when Confirm is pressed.

Each rule the handlers test is a predicate of its own. The contracts below are stated
in terms of these predicates, so each is listed here with the line it models:

- `Labels.Accepts` (main.py:73): the prompt answered with a non-empty name that is not
  yet registered.
- `Labeling.Closes` (main.py:92): the click is strictly within 10 of the first vertex on
  both axes. `Labeling.ClosesIsOpenBox` restates it as an open square.
- `Labeling.ValidChoice` (main.py:119): the choice is neither empty nor `"Select Label"`.
- `Zoom.Factor` (main.py:190): 1.1 for a positive wheel delta, 0.9 otherwise.
- `Geometry.ToCanvas` (main.py:143): a stored vertex multiplied by the zoom.

`Annotations.Reread` is not in `main.py`, which never reads a saved document back. It
is the model's own inverse of the export, and exists only to state the export round
trip (`Annotations.RecordsRoundTrip`, `Annotations.ExportRoundTrip`).

## Model

| member | source | states |
|---|---|---|
| Geometry.ToImage | main.py:85-87 | The stored point times the zoom gives back the canvas coordinates of the click. |
| Geometry.CanvasThenImage | main.py:86-87 | Dividing a drawn point by the positive zoom it was drawn at gives back the stored point. |
| Geometry.Scale | main.py:143 | Drawing a polygon keeps its length and order, and each drawn vertex is the stored vertex times the zoom. |
| Geometry.Unscale | main.py:86-87 | Mapping canvas points to image space keeps length and order, one click conversion per point. |
| Geometry.UnscaleScale | main.py:143 | Dividing a drawn polygon by its zoom recovers the stored polygon exactly. |
| Geometry.Centroid | main.py:148-149 | The centroid is undefined exactly for an empty polygon, where the code divides by zero. |
| Geometry.SumScale | main.py:143-149 | The sum of the drawn coordinates is the zoom times the sum of the stored coordinates. |
| Geometry.CentroidOfScaled | main.py:143-149 | The centroid of the drawn polygon is the stored polygon's centroid times the zoom. |
| Geometry.CentroidInBox | main.py:148-149 | The label anchor lies inside every axis-aligned box that holds all the vertices. |
| Labels.Add | main.py:71-75 | The list only grows by appending. It grows by one exactly for a non-empty unregistered answer. Afterwards a non-empty answer is registered, no other name appears, and the list stays duplicate-free. |
| Zoom.Step | main.py:190-197 | A step applies the factor when the result lies in [0.1, 10] and keeps the old zoom otherwise, so the range is invariant. |
| Zoom.Repeat | main.py:186-197 | Any number of wheel steps in one direction keeps a zoom in [0.1, 10] inside it. |
| Zoom.ZoomInSaturates | main.py:194-195 | Once a zoom-in step is rejected at the upper bound, every further zoom-in step leaves the zoom unchanged. |
| Zoom.ZoomOutSaturates | main.py:194-195 | Once a zoom-out step is rejected at the lower bound, every further zoom-out step leaves the zoom unchanged. |
| Zoom.InThenOutDrifts | main.py:190-197 | For every zoom at which both steps are accepted (0.99 times it at least 0.1, 1.1 times it at most 10), zooming in and then out multiplies the zoom by 0.99, so it does not return to the old level. |
| Annotations.ToRecords | main.py:173-181 | One record per annotation, with the same points and label, in commit order. |
| Annotations.Export | main.py:164-181 | Saving fails exactly when there are no annotations. Otherwise there is one record per annotation, with the same points and label, in commit order. |
| Annotations.RecordsRoundTrip | main.py:173-181 | Reading the records back as annotations gives the store they were made from. |
| Annotations.ExportRoundTrip | main.py:164-183 | Exporting a non-empty store succeeds, and reading the document back gives the same annotations in the same order. |
| Render.DrawShape | main.py:141-152 | A drawn polygon's outline is the scaled polygon, and its label anchor is the stored centroid times the zoom. |
| Render.DrawShapes | main.py:139-152 | Drawing fails exactly when some committed polygon is empty. Otherwise there is one shape per polygon, in order, each with its scaled outline, its scaled centroid and its label. |
| Render.Redraw | main.py:139-161 | A redraw fails exactly when a committed polygon is empty. Otherwise dividing each outline, and the in-progress outline, by the zoom recovers the stored polygons. |
| Labeling.Init | main.py:12-21 | Start-up: no image, zoom 1.0, nothing drawn or committed, labels ["Not Defined"]. |
| Labeling.InitValid | main.py:15-20 | The start-up state satisfies the session invariant. |
| Labeling.LoadImage | main.py:53-65 | A cancelled load changes nothing. A load empties the in-progress polygon, the annotations and the drawing list, and sets zoom to 1.0. The labels are untouched. |
| Labeling.AddLabel | main.py:71-75 | Only the label list changes. It only grows, stays duplicate-free, and gains the answer exactly when the answer is non-empty and new. |
| Labeling.ClosesIsOpenBox | main.py:92 | A click closes the polygon exactly when it lies strictly inside the square of half-width 10 centred on the first vertex. |
| Labeling.FinalizePolygon | main.py:100-136 | With fewer than 3 vertices the polygon is discarded and nothing is committed. Otherwise one label window opens and nothing else changes. |
| Labeling.AddPolygonPoint | main.py:77-97 | Without an image nothing changes. The click closes the polygon exactly when the polygon is non-empty and the click is strictly inside the 10-unit box around the first vertex. A closing click is not stored and hands over to finalizing. Any other click appends exactly one vertex whose coordinates times the zoom are the click's, and earlier vertices and all other state stay as they were. |
| Labeling.Confirm | main.py:117-131 | An empty or placeholder choice changes nothing. Otherwise exactly one (current, label) entry goes to both the annotations and the drawing list, and the in-progress polygon empties. The window closes exactly when the redraw that follows succeeds. |
| Labeling.Dismiss | main.py:133-136 | Closing the label window leaves the in-progress polygon and everything else intact. |
| Labeling.ZoomImage | main.py:186-197 | Without an image nothing changes. Otherwise only the zoom changes: to the scaled value when it is in range, and not at all when it is out of range. |
| Labeling.SaveAnnotations | main.py:164-181 | Saving fails exactly when nothing is committed. Otherwise reading the document back gives the annotations. |
| Labeling.Step | main.py:48-51 | Each event handler keeps the session invariant and never removes a label. |
| Labeling.Run | main.py:53-197 | Over any sequence of events the zoom stays in [0.1, 10], the labels stay duplicate-free with "Not Defined" first and never shrink, and the annotations equal the drawing list. |
| Labeling.RunAppend | main.py:48-51 | Handling two event sequences one after the other ends in the same session as handling their concatenation, because the handlers keep no state outside the session. |
| Labeling.ReachableZoomInRange | main.py:190-197 | Every state reached from start-up has zoom in [0.1, 10] and "Not Defined" as its first label. |
| Labeling.NonClosingClicksAppend | main.py:89-96 | Suppose an image is loaded and a first vertex is placed. Then clicks that all fall outside its closure box append their image-space points in order, and nothing else changes. |
| Modal.ModalStep | main.py:135-136 | With the window modal, main-window events are ignored while a label window is open, and every step keeps the committed polygons at 3 or more vertices. |
| Modal.ModalStepKeepsShape | main.py:100-131 | From a shaped state, every event the modal window lets through keeps committed polygons at 3 or more vertices, and keeps at most one window open over a polygon of 3 or more vertices. |
| Modal.ModalRun | main.py:135-136 | Over any run with the modal window, the session invariant holds, labels never shrink, and every committed polygon has at least 3 vertices. |
| Modal.ModalRedrawSucceeds | main.py:148-149 | In every state the modal session reaches, each annotation has at least 3 vertices and a redraw succeeds. |
| Modal.EmptyAnnotationReachable | main.py:136 | As dispatched by the toolkit, a reload while a label window is open, followed by Confirm, commits a polygon with no vertices. The redraw then fails and the window stays open. |
| Scenarios.BoxScenario | main.py:77-129 | Load, click (10,10), (100,10), (100,100), then close at (12,12) and confirm "Box". This commits exactly the triangle with label "Box". |
| Scenarios.TwoPointScenario | main.py:89-104 | Closing after two vertices discards them and commits nothing. |
| Scenarios.DismissScenario | main.py:133-136 | A closed label window keeps the triangle, and the next closing click opens a window for it again. |
| Scenarios.LabelScenario | main.py:71-75 | Re-adding "Not Defined", an empty name or a cancelled prompt leaves ["Not Defined"]. Adding "Car" gives ["Not Defined", "Car"]. |
| Scenarios.PlaceholderScenario | main.py:115-121 | "Select Label" can be registered, but confirming it is still rejected. |
| Scenarios.EmptyExportScenario | main.py:164-167 | Saving right after start-up or after a load fails with nothing to export. |

## Left out

- Tkinter widgets, message boxes, scrollbars and canvas drawing calls are not modelled, because they are user-interface plumbing. Only the data a redraw hands to the canvas is modelled (`Render`).
- The error and success message boxes are left out. An error shows up only as the outcome or the unchanged state.
- `canvasx`/`canvasy` and panning (`scan_mark`/`scan_dragto`) are left out because the viewport belongs to the toolkit. Clicks arrive already in canvas coordinates. The `<Button-1>` binding at line 51 replaces the `<ButtonPress-1>` binding at line 49, so the pan start handler never runs anyway.
- PIL image opening, resizing and `PhotoImage` are left out because they are a foreign library. Only whether an image is loaded is kept.
- The file dialogs and the JSON write at lines 169-184 are I/O and are left out. Saving is modelled as building the records. A cancelled save dialog changes no state, so it needs no model.
- Floating point is left out. Coordinates and zoom are reals, so rounding near the 0.1 and 10 bounds is not reproduced.
- The nested event loop of `wait_window` is not modelled as concurrency. It is modelled as a count of open label windows, with separate Confirm and Dismiss events.
- Labeling.Confirm: the read-only drop-down only offers the labels registered when the window opened, plus the placeholder. The model accepts any text as the choice and checks only what the Confirm handler checks.
- Render.Redraw: the model treats only an empty committed polygon as a failed redraw. For such a polygon the redraw raises, at line 144 or at the division at line 148. Whatever the canvas would do with one or two vertices is not modelled.

## Findings

| source | as written | input that shows it | evidently intended | confidence | as-written member | corrected member |
|---|---|---|---|---|---|---|
| main.py:136 | The label window is only waited on, never given the input grab. So Load Image, Add Label, wheel turns and canvas clicks are still handled while it is open, and Confirm commits whatever `current` holds at that moment. | Load an image. Click (0,0), (100,0), (100,100). Click (1,1), which opens the label window. Load an image again. Confirm "Not Defined". This commits an annotation with no points. The redraw at line 130 then raises (at line 144, or at the division at line 148), so line 131 never runs and the window stays open. | As the comment at line 135 says, the main window takes no input until a label is chosen. Committed polygons then always have at least 3 vertices. | medium, not executed | Modal.EmptyAnnotationReachable | Modal.ModalRun |
