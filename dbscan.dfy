/**
 * The DBSCAN object: its neighbour scan, the per-point neighbour lists and
 * the label-assignment pass of `fit`.
 */
module Dbscan {
  import opened Points
  import opened Neighbors

  /** C++ `int`. */
  newtype Int32 = v: int | -0x8000_0000 <= v < 0x8000_0000

  /** 2^64: the range of `size_t`. */
  const SizeTModulus: int := 0x1_0000_0000_0000_0000

  /** The conversion of an `int` to `size_t` that C++ applies when a size is compared with it. */
  function SizeT(v: Int32): (r: nat)
    ensures r < SizeTModulus
    ensures v >= 0 ==> r == v as int
    ensures v < 0 ==> r == v as int + SizeTModulus
  {
    (v as int) % SizeTModulus
  }

  /** `size < minpts` with `size` a `size_t` and `minpts` an `int`. */
  predicate BelowMinPts(size: nat, minpts: Int32)
  {
    size < SizeT(minpts)
  }

  /**
   * For any size a vector can have, the comparison holds exactly when
   * `minpts` is negative or larger than the size: a negative `minpts`
   * makes every point noise.
   */
  lemma BelowMinPtsIff(size: nat, minpts: Int32)
    requires size < 0x8000_0000_0000_0000
    ensures BelowMinPts(size, minpts) <==> (minpts < 0 || size < minpts as int)
  {
  }

  /** The set of ids carried by the points of `db` (the keys a walk over `db` marks visited). */
  function IdsOf(db: seq<Point>): (s: set<int>)
  {
    set j | 0 <= j < |db| :: db[j].id
  }

  /** Every id can index a table of `n` entries. */
  predicate IdsBelow(db: seq<Point>, n: int)
  {
    forall j :: 0 <= j < |db| ==> 0 <= db[j].id < n
  }

  /** The walk processes point `i`: no earlier point carried the same id. */
  predicate Processed(db: seq<Point>, i: nat)
    requires i < |db|
  {
    db[i].id !in IdsOf(db[..i])
  }

  /** The walk labels point `i` as noise: processed, with too few neighbours. */
  predicate MarkedNoise(db: seq<Point>, lists: seq<seq<int>>, minpts: Int32, i: nat)
    requires i < |db| && IdsBelow(db, |lists|)
  {
    Processed(db, i) && BelowMinPts(|lists[db[i].id]|, minpts)
  }

  /** The number of points among the first `k` that the walk processes and finds dense enough. */
  function CoreCount(db: seq<Point>, lists: seq<seq<int>>, minpts: Int32, k: nat): (r: nat)
    requires k <= |db| && IdsBelow(db, |lists|)
    ensures r <= k
  {
    if k == 0 then 0
    else
      CoreCount(db, lists, minpts, k - 1) +
      (if Processed(db, k - 1) && !BelowMinPts(|lists[db[k - 1].id]|, minpts) then 1 else 0)
  }

  /** An independent count: the neighbour lists that are long enough. */
  function LongLists(lists: seq<seq<int>>, minpts: Int32): (r: nat)
    ensures r <= |lists|
  {
    if lists == [] then 0
    else LongLists(lists[..|lists| - 1], minpts) + (if BelowMinPts(|lists[|lists| - 1]|, minpts) then 0 else 1)
  }

  /** No id is processed twice. */
  lemma ProcessedIdsDistinct(db: seq<Point>, i: nat, j: nat)
    requires i < j < |db|
    requires Processed(db, i) && Processed(db, j)
    ensures db[i].id != db[j].id
  {
  }

  /** Every id of the database is processed, at its first occurrence or before the given one. */
  lemma {:induction false} EveryIdProcessed(db: seq<Point>, i: nat)
    requires i < |db|
    ensures exists j :: 0 <= j <= i && Processed(db, j) && db[j].id == db[i].id
    decreases i
  {
    if !Processed(db, i) {
      var k :| 0 <= k < i && db[..i][k].id == db[i].id;
      EveryIdProcessed(db, k);
    }
  }

  /** With dense ids every point is processed and every index is visited. */
  lemma DenseIdsAllProcessed(db: seq<Point>)
    requires DenseIds(db)
    ensures forall i :: 0 <= i < |db| ==> Processed(db, i)
    ensures forall id :: id in IdsOf(db) <==> 0 <= id < |db|
  {
    forall id | 0 <= id < |db| ensures id in IdsOf(db) {
      assert db[id].id == id;
    }
  }

  /** With dense ids the counter ends equal to the number of long enough neighbour lists. */
  lemma {:induction false} DenseCoreCount(db: seq<Point>, lists: seq<seq<int>>, minpts: Int32, k: nat)
    requires DenseIds(db) && |lists| == |db| && k <= |db|
    ensures CoreCount(db, lists, minpts, k) == LongLists(lists[..k], minpts)
    decreases k
  {
    if k > 0 {
      DenseIdsAllProcessed(db);
      DenseCoreCount(db, lists, minpts, k - 1);
      assert lists[..k][..k - 1] == lists[..k - 1];
    }
  }

  /** The DBSCAN object of the program, with the distance it measures by. */
  class DBSCAN {
    const eps: real
    const minpts: Int32
    const dist: Distance
    var database: seq<Point>
    var cluster: seq<seq<int>>

    constructor (eps: real, minpts: Int32, dist: Distance)
      ensures this.eps == eps && this.minpts == minpts && this.dist == dist
      ensures database == [] && cluster == []
    {
      this.eps := eps;
      this.minpts := minpts;
      this.dist := dist;
      database := [];
      cluster := [];
    }

    /** `scan_eps_neighbors`: the ids of all points strictly within `eps` of the query, query included. */
    method ScanEpsNeighbors(pointId: int) returns (result: seq<int>)
      requires 0 <= pointId < |database|
      ensures result == NeighborIds(database, database[pointId], eps, dist)
    {
      var query := database[pointId];
      result := [];
      for k := 0 to |database|
        invariant result == NeighborIds(database[..k], query, eps, dist)
      {
        var data := database[k];
        assert database[..k + 1][..k] == database[..k];
        if dist(query.x, data.x) < eps {
          result := result + [data.id];
        }
      }
      assert database[..|database|] == database;
    }

    /** The precompute loop of `fit`: one neighbour list per point, indexed by position. */
    method EpsNeighborsList() returns (list: seq<seq<int>>)
      ensures |list| == |database|
      ensures forall id :: 0 <= id < |list| ==> list[id] == NeighborIds(database, database[id], eps, dist)
    {
      var lists := new seq<int>[|database|];
      for id := 0 to |database|
        invariant forall j :: 0 <= j < id ==> lists[j] == NeighborIds(database, database[j], eps, dist)
      {
        var neighbors := ScanEpsNeighbors(id);
        lists[id] := neighbors;
      }
      list := lists[..];
    }

    /**
     * The label-assignment loop of `fit`. It returns the loop's local state,
     * the cluster counter and the set of visited ids, which `fit` discards.
     */
    method AssignClusters(epsNeighborsList: seq<seq<int>>) returns (clusterCount: int, visited: set<int>)
      requires |epsNeighborsList| == |database| && IdsBelow(database, |database|)
      modifies this`database
      ensures |database| == |old(database)|
      ensures forall i :: 0 <= i < |database| ==>
        database[i].id == old(database)[i].id && database[i].x == old(database)[i].x
      ensures forall i :: 0 <= i < |database| ==>
        database[i].clusterId ==
          if MarkedNoise(old(database), epsNeighborsList, minpts, i) then Unassigned else old(database)[i].clusterId
      ensures forall i :: 0 <= i < |database| ==>
        database[i].clusterId == Unassigned || database[i].clusterId == old(database)[i].clusterId
      ensures clusterCount == CoreCount(old(database), epsNeighborsList, minpts, |old(database)|)
      ensures visited == IdsOf(old(database))
      ensures cluster == old(cluster)
    {
      ghost var db0 := database;
      clusterCount := 0;
      visited := {};
      var i := 0;
      while i < |database|
        invariant 0 <= i <= |database| == |db0|
        invariant visited == IdsOf(db0[..i])
        invariant clusterCount == CoreCount(db0, epsNeighborsList, minpts, i)
        invariant forall j :: 0 <= j < |database| ==>
          database[j].id == db0[j].id && database[j].x == db0[j].x
        invariant forall j :: 0 <= j < |database| ==>
          database[j].clusterId ==
            if j < i && MarkedNoise(db0, epsNeighborsList, minpts, j) then Unassigned else db0[j].clusterId
      {
        var point := database[i];
        assert IdsOf(db0[..i + 1]) == IdsOf(db0[..i]) + {point.id} by {
          assert db0[..i + 1] == db0[..i] + [db0[i]];
        }
        if point.id !in visited {
          visited := visited + {point.id};
          var epsNeighbors := epsNeighborsList[point.id];
          if |epsNeighbors| < SizeT(minpts) {
            database := database[i := point.(clusterId := Unassigned)];
          } else {
            clusterCount := clusterCount + 1;
          }
        }
        i := i + 1;
      }
      assert db0[..|db0|] == db0;
    }

    /**
     * `fit` on a dataset already loaded: convert it, compute every neighbour
     * list, then walk the points. As written it never gives a point a
     * cluster: every label is `-1` afterwards and `cluster` is untouched.
     */
    method Fit(dataset: seq<Data>)
      requires forall i :: 0 <= i < |dataset| ==> 0 <= dataset[i].id < |dataset|
      modifies this`database
      ensures |database| == |dataset|
      ensures forall i :: 0 <= i < |database| ==>
        database[i].id == dataset[i].id && database[i].x == dataset[i].x && database[i].clusterId == Unassigned
      ensures cluster == old(cluster)
    {
      database := Convert(dataset);
      var epsNeighborsList := EpsNeighborsList();
      var clusterCount, visited := AssignClusters(epsNeighborsList);
    }
  }
}
