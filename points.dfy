/** The records of a loaded dataset and the points of the clustering database. */
module Points {

  /** A loaded record: its id and its coordinate vector. */
  datatype Data = Data(id: int, x: seq<real>)

  /** A database point: the record's id and coordinates plus a cluster label. */
  datatype Point = Point(id: int, x: seq<real>, clusterId: int)

  /** The label a point carries before clustering touches it. */
  const Unassigned: int := -1

  /** The `Point` constructor: copies the record and starts unassigned. */
  function PointOf(d: Data): (p: Point)
  {
    Point(d.id, d.x, Unassigned)
  }

  /** `convert`: wraps every record of the dataset, slot by slot, into a point. */
  method Convert(dataset: seq<Data>) returns (db: seq<Point>)
    ensures |db| == |dataset|
    ensures forall id :: 0 <= id < |db| ==>
      db[id].id == dataset[id].id && db[id].x == dataset[id].x && db[id].clusterId == Unassigned
  {
    var result := new Point[|dataset|];
    for id := 0 to |dataset|
      invariant forall j :: 0 <= j < id ==> result[j] == PointOf(dataset[j])
    {
      result[id] := PointOf(dataset[id]);
    }
    db := result[..];
  }
}
