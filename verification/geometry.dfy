/**
 Image-space points and the zoom transform between image space and canvas space.
 Image space is the pixel grid of the loaded image; canvas space is image space
 multiplied by the zoom level. Coordinates are idealised as reals.
 */
module Geometry {
  import opened Outcomes

  /** A vertex in image space. */
  datatype Point = Point(x: real, y: real)

  function Abs(v: real): (r: real)
    ensures r >= 0.0
    ensures r == v || r == -v
  {
    if v < 0.0 then -v else v
  }

  /** Canvas coordinates of a click, divided by the zoom level, as stored by a click. */
  function ToImage(cx: real, cy: real, zoom: real): (p: Point)
    requires zoom > 0.0
    ensures p.x * zoom == cx && p.y * zoom == cy
  {
    Point(cx / zoom, cy / zoom)
  }

  /** An image-space point multiplied by the zoom level, as drawn by a redraw. */
  function ToCanvas(p: Point, zoom: real): Point
  {
    Point(p.x * zoom, p.y * zoom)
  }

  /** Scaling a stored point and dividing by the same positive zoom gives the point back. */
  lemma CanvasThenImage(p: Point, zoom: real)
    requires zoom > 0.0
    ensures ToImage(ToCanvas(p, zoom).x, ToCanvas(p, zoom).y, zoom) == p
  {
  }

  /** Every point of a polygon scaled by the zoom level, in the same order. */
  function Scale(ps: seq<Point>, zoom: real): (qs: seq<Point>)
    ensures |qs| == |ps|
    ensures forall i :: 0 <= i < |ps| ==> qs[i] == ToCanvas(ps[i], zoom)
  {
    if ps == [] then [] else [ToCanvas(ps[0], zoom)] + Scale(ps[1..], zoom)
  }

  /** Every canvas point of a sequence mapped back to image space, in the same order. */
  function Unscale(qs: seq<Point>, zoom: real): (ps: seq<Point>)
    requires zoom > 0.0
    ensures |ps| == |qs|
    ensures forall i :: 0 <= i < |qs| ==> ps[i] == ToImage(qs[i].x, qs[i].y, zoom)
  {
    if qs == [] then [] else [ToImage(qs[0].x, qs[0].y, zoom)] + Unscale(qs[1..], zoom)
  }

  /** Dividing a redrawn polygon by the zoom it was drawn at recovers the stored polygon. */
  lemma {:induction false} UnscaleScale(ps: seq<Point>, zoom: real)
    requires zoom > 0.0
    ensures Unscale(Scale(ps, zoom), zoom) == ps
  {
    if ps != [] {
      CanvasThenImage(ps[0], zoom);
      assert Scale(ps, zoom)[1..] == Scale(ps[1..], zoom);
      UnscaleScale(ps[1..], zoom);
    }
  }

  function SumX(ps: seq<Point>): real
  {
    if ps == [] then 0.0 else ps[0].x + SumX(ps[1..])
  }

  function SumY(ps: seq<Point>): real
  {
    if ps == [] then 0.0 else ps[0].y + SumY(ps[1..])
  }

  /** A coordinate sum divided by the vertex count. */
  function Mean(s: real, n: nat): real
    requires n > 0
  {
    s / (n as real)
  }

  /** The arithmetic mean of the vertices; None where the program would divide by zero. */
  function Centroid(ps: seq<Point>): (c: Option<Point>)
    ensures c.None? <==> ps == []
  {
    if ps == [] then None
    else Some(Point(Mean(SumX(ps), |ps|), Mean(SumY(ps), |ps|)))
  }

  /** Summing scaled coordinates equals scaling the sum. */
  lemma {:induction false} SumScale(ps: seq<Point>, zoom: real)
    ensures SumX(Scale(ps, zoom)) == zoom * SumX(ps)
    ensures SumY(Scale(ps, zoom)) == zoom * SumY(ps)
  {
    if ps != [] {
      assert Scale(ps, zoom)[1..] == Scale(ps[1..], zoom);
      SumScale(ps[1..], zoom);
    }
  }

  /** The pair of coordinate sums of a scaled polygon is the scaled pair of sums. */
  lemma SumsScale(ps: seq<Point>, zoom: real)
    ensures Point(SumX(Scale(ps, zoom)), SumY(Scale(ps, zoom))) == ToCanvas(Point(SumX(ps), SumY(ps)), zoom)
  {
    SumScale(ps, zoom);
  }

  /** Dividing a zoomed pair of sums by a positive count gives the zoomed pair of means. */
  lemma MeansScale(sx: real, sy: real, tx: real, ty: real, n: nat, zoom: real)
    requires n > 0
    requires Point(tx, ty) == ToCanvas(Point(sx, sy), zoom)
    ensures Point(Mean(tx, n), Mean(ty, n)) == ToCanvas(Point(Mean(sx, n), Mean(sy, n)), zoom)
  {
  }

  /** Any polygon whose sums are the zoomed sums of a non-empty polygon of the same size has the zoomed centroid. */
  lemma CentroidOfZoomedSums(ps: seq<Point>, qs: seq<Point>, zoom: real)
    requires ps != [] && |qs| == |ps|
    requires Point(SumX(qs), SumY(qs)) == ToCanvas(Point(SumX(ps), SumY(ps)), zoom)
    ensures Centroid(qs) == Some(ToCanvas(Centroid(ps).value, zoom))
  {
    MeansScale(SumX(ps), SumY(ps), SumX(qs), SumY(qs), |qs|, zoom);
  }

  /** The centroid of the scaled polygon is the scaled centroid of the stored polygon. */
  lemma CentroidOfScaled(ps: seq<Point>, zoom: real)
    requires ps != []
    ensures Centroid(Scale(ps, zoom)) == Some(ToCanvas(Centroid(ps).value, zoom))
  {
    SumsScale(ps, zoom);
    CentroidOfZoomedSums(ps, Scale(ps, zoom), zoom);
  }

  /** If every vertex lies in [lo, hi] horizontally, so does the sum divided by the count. */
  lemma {:induction false} SumXBounds(ps: seq<Point>, lo: real, hi: real)
    requires forall i :: 0 <= i < |ps| ==> lo <= ps[i].x <= hi
    ensures lo * (|ps| as real) <= SumX(ps) <= hi * (|ps| as real)
  {
    if ps != [] {
      SumXBounds(ps[1..], lo, hi);
    }
  }

  lemma {:induction false} SumYBounds(ps: seq<Point>, lo: real, hi: real)
    requires forall i :: 0 <= i < |ps| ==> lo <= ps[i].y <= hi
    ensures lo * (|ps| as real) <= SumY(ps) <= hi * (|ps| as real)
  {
    if ps != [] {
      SumYBounds(ps[1..], lo, hi);
    }
  }

  /** A sum between lo * n and hi * n, divided by the positive count n, lies in [lo, hi]. */
  lemma MeanBounds(lo: real, s: real, hi: real, n: nat)
    requires n > 0
    requires lo * (n as real) <= s <= hi * (n as real)
    ensures lo <= Mean(s, n) <= hi
  {
  }

  lemma CentroidXInRange(ps: seq<Point>, lo: real, hi: real)
    requires ps != []
    requires forall i :: 0 <= i < |ps| ==> lo <= ps[i].x <= hi
    ensures lo <= Centroid(ps).value.x <= hi
  {
    SumXBounds(ps, lo, hi);
    MeanBounds(lo, SumX(ps), hi, |ps|);
  }

  lemma CentroidYInRange(ps: seq<Point>, lo: real, hi: real)
    requires ps != []
    requires forall i :: 0 <= i < |ps| ==> lo <= ps[i].y <= hi
    ensures lo <= Centroid(ps).value.y <= hi
  {
    SumYBounds(ps, lo, hi);
    MeanBounds(lo, SumY(ps), hi, |ps|);
  }

  /** The label anchor lies inside the bounding box of the polygon's vertices. */
  lemma CentroidInBox(ps: seq<Point>, box: (Point, Point))
    requires ps != []
    requires forall i :: 0 <= i < |ps| ==> box.0.x <= ps[i].x <= box.1.x && box.0.y <= ps[i].y <= box.1.y
    ensures box.0.x <= Centroid(ps).value.x <= box.1.x
    ensures box.0.y <= Centroid(ps).value.y <= box.1.y
  {
    CentroidXInRange(ps, box.0.x, box.1.x);
    CentroidYInRange(ps, box.0.y, box.1.y);
  }
}
