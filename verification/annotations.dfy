/** The annotation store and its export document. */
module Annotations {
  import opened Outcomes
  import opened Geometry

  /** A committed polygon and the name of the label chosen for it. */
  datatype Annotation = Annotation(points: seq<Point>, name: string)

  /** One entry of the exported document's "annotations" array. */
  datatype Record = Record(points: seq<Point>, name: string)

  datatype ExportError = NothingToExport

  /** One record per annotation, carrying its points and label, in commit order. */
  function ToRecords(store: seq<Annotation>): (rs: seq<Record>)
    ensures |rs| == |store|
    ensures forall i :: 0 <= i < |store| ==>
              rs[i].points == store[i].points && rs[i].name == store[i].name
  {
    if store == [] then []
    else [Record(store[0].points, store[0].name)] + ToRecords(store[1..])
  }

  /** Saving: an empty store is refused; otherwise the document's annotation records. */
  function Export(store: seq<Annotation>): (r: Result<seq<Record>, ExportError>)
    ensures r.Err? <==> store == []
    ensures r.Ok? ==> |r.value| == |store|
    ensures r.Ok? ==> forall i :: 0 <= i < |store| ==>
              r.value[i].points == store[i].points && r.value[i].name == store[i].name
  {
    if store == [] then Err(NothingToExport) else Ok(ToRecords(store))
  }

  /** Reading the document's records back as annotations. */
  function Reread(rs: seq<Record>): (store: seq<Annotation>)
    ensures |store| == |rs|
  {
    if rs == [] then [] else [Annotation(rs[0].points, rs[0].name)] + Reread(rs[1..])
  }

  /** Exporting a non-empty store and reading the document back gives the same store. */
  lemma {:induction false} ExportRoundTrip(store: seq<Annotation>)
    requires store != []
    ensures Export(store).Ok? && Reread(Export(store).value) == store
  {
    RecordsRoundTrip(store);
  }

  lemma {:induction false} RecordsRoundTrip(store: seq<Annotation>)
    ensures Reread(ToRecords(store)) == store
  {
    if store != [] {
      assert ToRecords(store)[1..] == ToRecords(store[1..]);
      RecordsRoundTrip(store[1..]);
    }
  }
}
