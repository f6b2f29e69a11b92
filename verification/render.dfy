/**
 The geometry of a full redraw: every committed polygon and the in-progress
 polygon scaled into canvas space, and a label anchor at each polygon's centroid.
 */
module Render {
  import opened Outcomes
  import opened Geometry
  import opened Annotations

  /** A committed polygon as drawn: its scaled outline and where its label text goes. */
  datatype Shape = Shape(outline: seq<Point>, anchor: Point, name: string)

  /** Everything a redraw puts on the canvas, in canvas coordinates. */
  datatype Frame = Frame(shapes: seq<Shape>, inProgress: seq<Point>)

  /** No committed polygon is empty, so no centroid divides by zero. */
  predicate Drawable(polygons: seq<Annotation>)
  {
    forall i :: 0 <= i < |polygons| ==> polygons[i].points != []
  }

  function DrawShape(a: Annotation, zoom: real): (s: Shape)
    requires a.points != []
    ensures s.outline == Scale(a.points, zoom)
    ensures s.anchor == ToCanvas(Centroid(a.points).value, zoom)
    ensures s.name == a.name
  {
    var outline := Scale(a.points, zoom);
    CentroidOfScaled(a.points, zoom);
    Shape(outline, Centroid(outline).value, a.name)
  }

  /** The committed polygons as drawn, in order; None when one of them is empty. */
  function DrawShapes(polygons: seq<Annotation>, zoom: real): (r: Option<seq<Shape>>)
    ensures r.Some? <==> Drawable(polygons)
    ensures r.Some? ==> |r.value| == |polygons|
    ensures r.Some? ==> forall i :: 0 <= i < |polygons| ==>
              && r.value[i].outline == Scale(polygons[i].points, zoom)
              && r.value[i].anchor == ToCanvas(Centroid(polygons[i].points).value, zoom)
              && r.value[i].name == polygons[i].name
  {
    if polygons == [] then Some([])
    else if polygons[0].points == [] then None
    else
      match DrawShapes(polygons[1..], zoom)
      case None =>
        assert !Drawable(polygons[1..]);
        None
      case Some(rest) =>
        assert forall i :: 1 <= i < |polygons| ==> polygons[i] == polygons[1..][i - 1];
        Some([DrawShape(polygons[0], zoom)] + rest)
  }

  /**
   A redraw: fails (None) exactly when a committed polygon has no vertices; otherwise
   nothing is lost, since dividing each drawn outline by the zoom gives the stored polygon.
   */
  function Redraw(polygons: seq<Annotation>, current: seq<Point>, zoom: real): (r: Option<Frame>)
    requires zoom > 0.0
    ensures r.Some? <==> Drawable(polygons)
    ensures r.Some? ==> |r.value.shapes| == |polygons|
    ensures r.Some? ==> Unscale(r.value.inProgress, zoom) == current
    ensures r.Some? ==> forall i :: 0 <= i < |polygons| ==>
              && Unscale(r.value.shapes[i].outline, zoom) == polygons[i].points
              && r.value.shapes[i].name == polygons[i].name
  {
    match DrawShapes(polygons, zoom)
    case None => None
    case Some(shapes) =>
      UnscaleScale(current, zoom);
      assert forall i :: 0 <= i < |polygons| ==> Unscale(shapes[i].outline, zoom) == polygons[i].points by {
        forall i | 0 <= i < |polygons| {
          UnscaleScale(polygons[i].points, zoom);
        }
      }
      Some(Frame(shapes, Scale(current, zoom)))
  }
}
