/**
 * The brute-force epsilon-neighbourhood filter of `scan_eps_neighbors`,
 * stated as a function over the database and proved about.
 */
module Neighbors {
  import opened Points

  /** The distance between two coordinate vectors; Euclidean distance in the program. */
  type Distance = (seq<real>, seq<real>) -> real

  /** `data` passes the filter for `query`: its distance is strictly below `eps`. */
  predicate Near(dist: Distance, eps: real, query: Point, data: Point)
  {
    dist(query.x, data.x) < eps
  }

  /** The ids of the database points near `query`, in database order. */
  function NeighborIds(db: seq<Point>, query: Point, eps: real, dist: Distance): (r: seq<int>)
    ensures |r| <= |db|
    decreases |db|
  {
    if db == [] then []
    else
      var last := db[|db| - 1];
      NeighborIds(db[..|db| - 1], query, eps, dist) + (if Near(dist, eps, query, last) then [last.id] else [])
  }

  /** An id is in the result exactly when some database point with that id passes the filter. */
  lemma {:induction false} NeighborIdsMembership(db: seq<Point>, query: Point, eps: real, dist: Distance, id: int)
    ensures id in NeighborIds(db, query, eps, dist) <==>
      exists j :: 0 <= j < |db| && db[j].id == id && Near(dist, eps, query, db[j])
    decreases |db|
  {
    if db != [] {
      var n := |db| - 1;
      var init := db[..n];
      NeighborIdsMembership(init, query, eps, dist, id);
      if id in NeighborIds(db, query, eps, dist) {
        if id in NeighborIds(init, query, eps, dist) {
          var j :| 0 <= j < |init| && init[j].id == id && Near(dist, eps, query, init[j]);
          assert db[j] == init[j];
        } else {
          assert db[n].id == id && Near(dist, eps, query, db[n]);
        }
      } else {
        forall j | 0 <= j < |db| && db[j].id == id
          ensures !Near(dist, eps, query, db[j])
        {
          if j < n {
            assert init[j] == db[j];
          }
        }
      }
    }
  }

  /** Filtering a concatenation is the concatenation of the filtered parts: database order is kept. */
  lemma {:induction false} NeighborIdsAppend(a: seq<Point>, b: seq<Point>, query: Point, eps: real, dist: Distance)
    ensures NeighborIds(a + b, query, eps, dist) == NeighborIds(a, query, eps, dist) + NeighborIds(b, query, eps, dist)
    decreases |b|
  {
    if b == [] {
      assert a + b == a;
    } else {
      var n := |b| - 1;
      assert (a + b)[..|a + b| - 1] == a + b[..n];
      NeighborIdsAppend(a, b[..n], query, eps, dist);
    }
  }

  /** The ids are dense: each point's id is its index in the database. */
  predicate DenseIds(db: seq<Point>)
  {
    forall j :: 0 <= j < |db| ==> db[j].id == j
  }

  /**
   * With dense ids the result is the ascending list, without repetition, of
   * the indices of the points that pass the filter.
   */
  lemma {:induction false} NeighborIdsDense(db: seq<Point>, query: Point, eps: real, dist: Distance)
    requires DenseIds(db)
    ensures var r := NeighborIds(db, query, eps, dist);
      (forall k, l :: 0 <= k < l < |r| ==> r[k] < r[l]) &&
      (forall id :: id in r <==> 0 <= id < |db| && Near(dist, eps, query, db[id]))
    decreases |db|
  {
    var r := NeighborIds(db, query, eps, dist);
    forall id
      ensures id in r <==> 0 <= id < |db| && Near(dist, eps, query, db[id])
    {
      NeighborIdsMembership(db, query, eps, dist, id);
    }
    if db != [] {
      var n := |db| - 1;
      var init := db[..n];
      assert DenseIds(init) by {
        forall j | 0 <= j < |init| ensures init[j].id == j {
          assert init[j] == db[j];
        }
      }
      NeighborIdsDense(init, query, eps, dist);
      var s := NeighborIds(init, query, eps, dist);
      forall k | 0 <= k < |s| ensures s[k] < n {
        assert s[k] in s;
      }
    }
  }

  /** The filter does not exclude the query: at distance 0 below a positive `eps`, its own id is returned. */
  lemma NeighborIdsHasQuery(db: seq<Point>, q: nat, eps: real, dist: Distance)
    requires q < |db|
    requires dist(db[q].x, db[q].x) == 0.0 && eps > 0.0
    ensures db[q].id in NeighborIds(db, db[q], eps, dist)
  {
  }
}
