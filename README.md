# DBSCAN skeleton

A model of the clustering core of `include/dbscan.hpp`: the `Point` record
that wraps a loaded data record with a cluster label, `convert`, which turns a
dataset into the clustering database, the brute-force `scan_eps_neighbors`
filter, and `DBSCAN::fit`, which precomputes one neighbour list per point and
then walks the database once, marking sparse points as noise and counting the
others.

The project has three modules:

- `Points` (`points.dfy`): the `Data` record, the `Point` datatype and
  `Convert`, a loop that fills a preallocated array slot by slot.
- `Neighbors` (`neighbors.dfy`): the filter of `scan_eps_neighbors` as the
  function `NeighborIds`, with lemmas about membership, order, length and
  inclusion of the query.
- `Dbscan` (`dbscan.dfy`): the `DBSCAN` class with the fields `eps`, `minpts`,
  `database` and `cluster`, its methods `ScanEpsNeighbors`,
  `EpsNeighborsList` (the precompute loop of `fit`), `AssignClusters` (the
  label loop of `fit`) and `Fit`, and the specification of the label loop:
  which points it processes, which it marks as noise, and what its counter
  ends at.

The distance is a parameter of the object (`dist`, a total function on
coordinate vectors); `eps` is a real number. The dataset that `load_data`
would read is passed to `Fit` as a sequence.

Points where the code differs from textbook DBSCAN:

- The neighbour list of a point contains the point itself whenever its
  distance to itself is below `eps` (`NeighborIdsHasQuery`); nothing in the
  code excludes it.
- `fit` does not expand clusters. It never writes a label other than `-1` and
  never touches `cluster`. Because `convert` starts every label at `-1`,
  `Fit` ends with every point labelled `-1`. The expectations of
  `test/src/test.cpp` (two clusters, `database[0].cluster_id == 0`) cannot hold
  for this code.
- The test `eps_neighbors.size() < minpts` compares an unsigned size with a
  signed `int`; C++ converts `minpts` to `size_t`. The model writes this out
  (`SizeT`, `BelowMinPts`): a negative `minpts` marks every processed point as
  noise (`BelowMinPtsIff`).
- The label loop needs only that every id lies in `[0, N)`, because it
  indexes the neighbour lists by `point.id`. Points that repeat an id already
  visited are skipped, as the `visited` lookup does. With dense ids, as
  `convert` produces from a dense dataset, every point is processed exactly
  once (`DenseIdsAllProcessed`).

## Model

| member | source | states |
|---|---|---|
| `Points.Convert` | include/dbscan.hpp:13-29 | the database has one point per record; point `id` has the id and coordinates of `dataset[id]` and the label `-1` (each slot is `PointOf(dataset[id])`, the `Point` constructor) |
| `Neighbors.NeighborIds` | include/dbscan.hpp:41-50 | the filter over the database returns no more ids than there are points |
| `Neighbors.NeighborIdsMembership` | include/dbscan.hpp:44-48 | an id is returned exactly when some database point with that id is at distance strictly below `eps` from the query (`Near`, the test `dist < eps`) |
| `Neighbors.NeighborIdsAppend` | include/dbscan.hpp:44-48 | the ids come out in database order: filtering `a + b` gives the result for `a` followed by the result for `b` |
| `Neighbors.NeighborIdsDense` | include/dbscan.hpp:41-49 | with dense ids the result is strictly ascending and holds exactly the indices of the points strictly within `eps` |
| `Neighbors.NeighborIdsHasQuery` | include/dbscan.hpp:44-47 | the query is not excluded: if its distance to itself is 0 and `eps > 0`, its own id is returned |
| `Dbscan.SizeT` | include/dbscan.hpp:70 | an `int` converted to `size_t` keeps a non-negative value and adds 2^64 to a negative one |
| `Dbscan.BelowMinPtsIff` | include/dbscan.hpp:70-71 | for any real vector size, the noise test `BelowMinPts` (the `size_t` against `int` comparison) holds exactly when `minpts` is negative or exceeds the size |
| `Dbscan.CoreCount` | include/dbscan.hpp:72-74 | the number of processed points with enough neighbours among the first `k` is at most `k` |
| `Dbscan.LongLists` | include/dbscan.hpp:56-70 | the number of neighbour lists long enough to pass the test is at most the number of lists |
| `Dbscan.ProcessedIdsDistinct` | include/dbscan.hpp:65-67 | two points that the walk processes carry different ids: an id is processed at most once |
| `Dbscan.EveryIdProcessed` | include/dbscan.hpp:65-67 | every id of the database is processed at some point no later than any point carrying it |
| `Dbscan.DenseIdsAllProcessed` | include/dbscan.hpp:63-67 | with dense ids every point is processed and the visited ids are exactly `0 .. N-1` |
| `Dbscan.DenseCoreCount` | include/dbscan.hpp:62-74 | with dense ids the counter over the first `k` points equals the number of long enough lists among the first `k` |
| `Dbscan.DBSCAN.constructor` | include/dbscan.hpp:39 | the object keeps `eps`, `minpts` and the distance, and starts with empty `database` and `cluster` |
| `Dbscan.DBSCAN.ScanEpsNeighbors` | include/dbscan.hpp:41-50 | the loop's result is the filter `NeighborIds` of the whole database for the point at `pointId` |
| `Dbscan.DBSCAN.EpsNeighborsList` | include/dbscan.hpp:56-59 | one list per point, and entry `id` is the scan for point `id` |
| `Dbscan.DBSCAN.AssignClusters` | include/dbscan.hpp:61-75 | ids and coordinates are unchanged; a processed point with too few neighbours gets `-1` and every other label is kept; no other label is written; the counter ends at `CoreCount` of the whole database; every id is visited; `cluster` is unchanged |
| `Dbscan.DBSCAN.Fit` | include/dbscan.hpp:52-76 | the database is the converted dataset with every label `-1`, and `cluster` is unchanged |

## Left out

- `load_data` and the data path: file input; `Fit` takes the loaded dataset, so the record limit `n` of `fit` is not modelled either.
- `euclidean_distance`: floating-point code of an external library; the model takes the distance as a total function on coordinate vectors and assumes nothing about it, except `dist(x, x) == 0` where a lemma says so.
- Floating point: `eps` and the distances are real numbers, so rounding, NaN and infinities are not modelled.
- The `omp parallel for` annotations: each iteration writes its own slot, so the loops are modelled as sequential loops.
- `save`, called by the test: it is not defined in the modelled header.
- Cluster expansion, the filling of `cluster` and non-negative labels: the code does not do them, so the model does not either, and the test's expectations on them are not stated.
- Loop indices and the local counter are C++ `int`; the model uses unbounded integers, which agree with the code while the dataset has fewer than 2^31 records.
- The `visited` map is a set of ids; the default-inserting lookup of `unordered_map` has no observable effect.
- `Database result(dataset.size())` asks for `n` default-constructed `Point`s, but `Point` declares only the constructor from a record, so it cannot supply them and that line of the header is ill-formed as written. The model's array of default points in `Convert` stands for the preallocation the author intended, and every slot is then overwritten.
