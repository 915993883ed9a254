# evoxel: a verified model of the voxel grid and its operators

evoxel stores a voxel grid as a table. Each row is one occupied cell. The
row holds the cell's integer index triple in the columns `x`, `y` and `z`,
and any further columns, for example `count`. The grid also carries its
metadata (the resolution, meaning the edge length of a cell, and the id of
its local frame) and a handle to a graph of reference frames.

This project models:

- the `VoxelGrid` type of evoxel-core: construction behind the integrity
  check, the frames setter, and the index and center-point queries;
- the four table operators of evoxel-transform's filter module: grouping by
  index triple, exploding list columns, the count filter and the box filter;
- the integer-shift operator of evoxel-transform's translate module.

Files:

- `wrappers.dfy`: `Option` and `Result`.
- `data_frame.dfy` (module `DataFrame`): the subset of the column store the
  core uses. It has typed values and columns, rows with a structural index
  triple, and row predicates standing in for the store's filter
  expressions. It also has the order-preserving `Filter` and grouping by
  index triple.
- `voxel_grid.dfy` (module `EvoxelCore`): the well-known column names and
  the class `VoxelGrid`. The table and the info are `const` fields. The
  reference-frames handle is a `var`, because only `set_reference_frames`
  changes it. The queries are functions reading the grid.
- `filter.dfy` (module `EvoxelFilter`): each operator is a pure function
  from table to table, proved against its specification, plus a method that
  wraps the result in a fresh grid with the input's info and frames.
- `translate.dfy` (module `EvoxelTranslate`): the rows are copied into an
  array. Its `x`, `y` and `z` columns are then shifted in place, one axis
  after another, by a loop proved against `ShiftedAxis`.

Three behaviours of the code are easy to misread; the model follows the code as written:

- The corner check of `filter_by_index_bounds` uses the all-components
  `>=` of a point. It therefore rejects the corners only when they are tied
  or inverted on every axis. A box tied on one axis alone is accepted.
- The group length that `aggregate_by_index` appends is the store's `len()`
  column, named `len`, not `count`.
- `min_index` and `max_index` panic on an empty grid instead of returning
  an error, so the model requires a non-empty grid.

## Model

| member | source | states |
|---|---|---|
| EvoxelCore.ColumnNamesDistinct | crates/evoxel-core/src/voxel_grid.rs:292-318 | the four well-known column names are pairwise distinct, and `x`, `y`, `z` are exactly the index columns |
| EvoxelCore.VoxelDataColumnType.AsStr | crates/evoxel-core/src/voxel_grid.rs:309-317 | `count` names the count column and nothing else; the index columns, and only they, get the index names `x`, `y`, `z` of their axis |
| EvoxelCore.VoxelGrid.Size | crates/evoxel-core/src/voxel_grid.rs:66-68 | the number of rows of the table, its height |
| EvoxelCore.VoxelGrid.New | crates/evoxel-core/src/voxel_grid.rs:19-31 | succeeds iff the integrity check passes; then it stores table, info and frames unchanged in a fresh grid whose size is the table's row count; otherwise it fails with an integrity error |
| EvoxelCore.VoxelGrid.FromDataFrame | crates/evoxel-core/src/voxel_grid.rs:33-50 | same outcome as `New`: success iff the integrity check passes, with the parts stored unchanged |
| EvoxelCore.VoxelGrid.SetReferenceFrames | crates/evoxel-core/src/voxel_grid.rs:62-64 | replaces only the frames handle; table and info are constants of the grid |
| EvoxelCore.VoxelGrid.MinIndex | crates/evoxel-core/src/voxel_grid.rs:70-100 | on a non-empty grid: a componentwise lower bound of every row's index, each component attained by some row |
| EvoxelCore.VoxelGrid.MaxIndex | crates/evoxel-core/src/voxel_grid.rs:117-147 | on a non-empty grid: a componentwise upper bound of every row's index, each component attained by some row |
| EvoxelCore.MinIndexLeMaxIndex | crates/evoxel-core/src/voxel_grid.rs:70-147 | the minimum index lies componentwise below the maximum index |
| EvoxelCore.TwoVoxelIndices | crates/evoxel-core/src/voxel_grid.rs:70-147 | voxels (0,0,0) and (5,5,5) have minimum index (0,0,0) and maximum index (5,5,5) |
| EvoxelCore.TwoVoxelExtremes | crates/evoxel-core/src/voxel_grid.rs:102-106 | at resolution 1 the same voxels have minimum and maximum local center points (0,0,0) and (5,5,5) |
| EvoxelCore.VoxelGrid.MinLocalCenterPoint | crates/evoxel-core/src/voxel_grid.rs:102-106 | the minimum index scaled by the resolution; with a positive resolution it bounds every row's local center point from below |
| EvoxelCore.VoxelGrid.MaxLocalCenterPoint | crates/evoxel-core/src/voxel_grid.rs:149-153 | the maximum index scaled by the resolution; with a positive resolution it bounds every row's local center point from above |
| EvoxelCore.VoxelGrid.ResolveIsometry | crates/evoxel-core/src/voxel_grid.rs:269-274 | succeeds iff the graph is derived and the (target, local frame) transform resolves; then it returns that isometry; otherwise an ecoord error wrapping the resolver's own error, from graph derivation if that failed and from the isometry lookup otherwise |
| EvoxelCore.VoxelGrid.MinCenterPoint | crates/evoxel-core/src/voxel_grid.rs:108-115 | succeeds iff the static transform resolves; then it is the minimum local center point moved by that isometry; otherwise it carries the resolver's error |
| EvoxelCore.VoxelGrid.MaxCenterPoint | crates/evoxel-core/src/voxel_grid.rs:155-162 | succeeds iff the static transform resolves; then it is the maximum local center point moved by that isometry; otherwise it carries the resolver's error |
| EvoxelCore.VoxelGrid.GetAllCellIndicesInLocalFrame | crates/evoxel-core/src/voxel_grid.rs:167-199 | has length `size()`, element i is `get_cell_index(i)`, and the whole is the index column in row order |
| EvoxelCore.VoxelGrid.GetAllCenterPointsInLocalFrame | crates/evoxel-core/src/voxel_grid.rs:201-214 | has length `size()`, and element i is row i's local center point |
| EvoxelCore.VoxelGrid.GetCellIndex | crates/evoxel-core/src/voxel_grid.rs:216-243 | for a row number below `size()`: that row's index triple |
| EvoxelCore.VoxelGrid.GetLocalFrameId | crates/evoxel-core/src/voxel_grid.rs:247-250 | the frame id of the grid's info |
| EvoxelCore.VoxelGrid.GetLocalCenterPoint | crates/evoxel-core/src/voxel_grid.rs:252-259 | each coordinate is the resolution times the row's index on that axis |
| EvoxelCore.VoxelGrid.GetCenterPoint | crates/evoxel-core/src/voxel_grid.rs:261-278 | succeeds iff the transform at the timestamp resolves; then it is the row's local center point moved by that isometry; otherwise it carries the resolver's error |
| EvoxelCore.VoxelGrid.CenterPointResults | crates/evoxel-core/src/voxel_grid.rs:285-286 | one result per row, element i being `get_center_point(i)` |
| EvoxelCore.FirstFailure | crates/evoxel-core/src/voxel_grid.rs:287 | the position of the first failed result (or the length): every earlier result succeeded |
| EvoxelCore.Collect | crates/evoxel-core/src/voxel_grid.rs:287 | succeeds iff every result succeeded, then with all values in order; otherwise it gives the error of the first failure |
| EvoxelCore.VoxelGrid.GetAllCenterPoints | crates/evoxel-core/src/voxel_grid.rs:280-289 | succeeds iff every row's center point succeeds, then with length `size()` and element i equal to `get_center_point(i)`; otherwise it gives the first failing row's error, and every earlier row succeeded |
| EvoxelCore.AllCenterPointsFailTogether | crates/evoxel-core/src/voxel_grid.rs:280-289 | the bulk query fails iff the grid is non-empty and the transform at the timestamp does not resolve, and then it fails with that error |
| DataFrame.Index.Shift | crates/evoxel-transform/src/translate.rs:6-14 | adds the delta on one axis and leaves the other two axes unchanged |
| DataFrame.FindColumn | crates/evoxel-transform/src/filter.rs:78 | the position of the first column with the name, or none iff no column has it |
| DataFrame.Filter | crates/evoxel-transform/src/filter.rs:82 | keeps only rows of the input that satisfy the predicate, never more rows than the input |
| DataFrame.FilterMultiplicity | crates/evoxel-transform/src/filter.rs:82 | a filter keeps each satisfying row as often as it occurs and no other row |
| DataFrame.FilterIsSubsequence | crates/evoxel-transform/src/filter.rs:82 | a filter keeps the relative order of the rows |
| DataFrame.FilterAll | crates/evoxel-transform/src/filter.rs:82 | a filter that every row passes is the identity |
| DataFrame.FilterThenFilter | crates/evoxel-transform/src/filter.rs:103-120 | two chained filters equal one filter by the conjunction |
| DataFrame.Indices | crates/evoxel-core/src/voxel_grid.rs:187-196 | the index triple of each row, in row order |
| DataFrame.ColumnOf | crates/evoxel-transform/src/filter.rs:22 | the cells of one column, in row order |
| DataFrame.GroupSizeIsMultiplicity | crates/evoxel-transform/src/filter.rs:18-24 | a group has as many rows as its key occurs in the index column |
| DataFrame.GroupOfOccurringIndex | crates/evoxel-transform/src/filter.rs:18-24 | an index triple that occurs has a non-empty group |
| DataFrame.GroupsPartitionRows | crates/evoxel-transform/src/filter.rs:18-24 | the groups of any group order together are a permutation of the input rows |
| EvoxelFilter.AggregatedColumns | crates/evoxel-transform/src/filter.rs:22 | each further column becomes a list of its type under the same name, followed by the integer column `len` |
| EvoxelFilter.AggregateRows | crates/evoxel-transform/src/filter.rs:18-24 | one row per key of the order; row k is the aggregate of the group of key k |
| EvoxelFilter.AggregateByIndexData | crates/evoxel-transform/src/filter.rs:10-24 | fails with a duplicate-name error iff the table already has a `len` column; otherwise it gives the aggregated schema and one row per key, with that key and that group's length as last cell |
| EvoxelFilter.AggregateOneRowPerIndex | crates/evoxel-transform/src/filter.rs:18-24 | the aggregated keys are pairwise distinct and are exactly the input's distinct index triples |
| EvoxelFilter.AggregateLengthIsMultiplicity | crates/evoxel-transform/src/filter.rs:22 | each group length equals the number of input rows with that triple, and is positive |
| EvoxelFilter.AggregateLengthsSum | crates/evoxel-transform/src/filter.rs:18-24 | the group lengths add up to the number of input rows |
| EvoxelFilter.AggregatePreservesIntegrity | crates/evoxel-transform/src/filter.rs:41-45 | the aggregated table is well formed again, so the integrity check of the new grid accepts it |
| EvoxelFilter.AggregateTwoDuplicates | crates/evoxel-transform/src/filter.rs:18-24 | for two rows at (0,0,0) with no further column, every admissible group order is [(0,0,0)], and aggregation gives the single row (0,0,0) with length 2 |
| EvoxelFilter.AggregateByIndex | crates/evoxel-transform/src/filter.rs:10-47 | fails iff aggregation fails, with that error; otherwise a fresh valid grid holding the aggregated table, with the input's info and frames |
| EvoxelFilter.FirstListColumn | crates/evoxel-transform/src/filter.rs:52-57 | the first list-typed column, or none iff no column is a list |
| EvoxelFilter.ExplodedColumns | crates/evoxel-transform/src/filter.rs:59-64 | same names; each list column takes its element type, and other columns keep theirs |
| EvoxelFilter.ExplodeRows | crates/evoxel-transform/src/filter.rs:59-64 | succeeds iff in every row all list cells have the same length, then with as many rows as those lengths add up to; otherwise it is a shape-mismatch error |
| EvoxelFilter.ExplodeRowContents | crates/evoxel-transform/src/filter.rs:59-64 | exploded row k repeats the source row's index triple and scalar cells and takes element k of each list cell |
| EvoxelFilter.ExplodeData | crates/evoxel-transform/src/filter.rs:49-64 | without list columns the selection is empty and the store's invalid-operation error comes back; otherwise it succeeds iff every row's lists agree in length, with the exploded schema and total height, and fails with a shape mismatch |
| EvoxelFilter.ExplodeRowsAreConcat | crates/evoxel-transform/src/filter.rs:59-64 | a successful explode of the rows is the concatenation, in row order, of what each row explodes into |
| EvoxelFilter.ExplodeDataContents | crates/evoxel-transform/src/filter.rs:52-64 | a successful explode had a list column, and its rows are, in row order, each input row's explosion: one row per list element with index triple and scalar cells repeated |
| EvoxelFilter.ExplodePreservesIntegrity | crates/evoxel-transform/src/filter.rs:66-70 | the exploded table is well formed again |
| EvoxelFilter.ExplodeAfterAggregate | crates/evoxel-transform/src/filter.rs:10-64 | exploding an aggregated table that has a further column gives back every group's rows in group order, each with its group length appended |
| EvoxelFilter.ExpandedGroupsPermuteRows | crates/evoxel-transform/src/filter.rs:18-24 | with the appended length dropped, those rows are a permutation of the input rows |
| EvoxelFilter.Explode | crates/evoxel-transform/src/filter.rs:49-72 | fails iff explosion fails, with that error; otherwise a fresh valid grid holding the exploded table, with the input's info and frames |
| EvoxelFilter.FilterByCountData | crates/evoxel-transform/src/filter.rs:74-82 | column-not-found without a `count` column; succeeds iff `count` exists and is numeric, keeping the schema and only rows whose count reaches the minimum |
| EvoxelFilter.FilterByCountSelects | crates/evoxel-transform/src/filter.rs:77-82 | keeps exactly the rows whose count reaches the minimum, each as often as it occurs, in their original order |
| EvoxelFilter.FilterByCountZeroIsIdentity | crates/evoxel-transform/src/filter.rs:77-82 | with minimum 0 and non-negative integer counts, the filter returns the table unchanged |
| EvoxelFilter.FilterKeepsIntegrity | crates/evoxel-transform/src/filter.rs:82-87 | a filtered table is well formed again |
| EvoxelFilter.FilterByCount | crates/evoxel-transform/src/filter.rs:74-90 | fails iff the count filter fails, with that error; otherwise a fresh valid grid holding the filtered table, with the input's info and frames |
| EvoxelFilter.InBoxHolds | crates/evoxel-transform/src/filter.rs:105-119 | the box predicate holds iff the index lies between the corners on every axis, bounds included |
| EvoxelFilter.AxisByAxisIsBox | crates/evoxel-transform/src/filter.rs:103-120 | the three chained axis filters equal one filter by the box |
| EvoxelFilter.FilterByIndexBoundsData | crates/evoxel-transform/src/filter.rs:92-120 | fails with the corner error iff the lower corner is at least the upper one on all three axes; otherwise it keeps the schema and at most the input's rows |
| EvoxelFilter.FilterByIndexBoundsSelects | crates/evoxel-transform/src/filter.rs:103-120 | keeps exactly the rows inside the inclusive box, each as often as it occurs, in their original order |
| EvoxelFilter.FilterByIndexBoundsInBox | crates/evoxel-transform/src/filter.rs:103-120 | every kept row lies inside the inclusive box |
| EvoxelFilter.EqualCornersRejected | crates/evoxel-transform/src/filter.rs:97-99 | lower = upper = (2,2,2) is rejected |
| EvoxelFilter.SingleTiedAxisAccepted | crates/evoxel-transform/src/filter.rs:97-99 | corners tied on one axis only, (0,0,2) and (1,1,2), pass the check |
| EvoxelFilter.FilteredExtremesInBox | crates/evoxel-transform/src/filter.rs:103-120 | the minimum and maximum of every axis of a non-empty result lie between the corners |
| EvoxelFilter.FilterByIndexBounds | crates/evoxel-transform/src/filter.rs:92-128 | fails iff the box filter fails, with that error; otherwise a fresh valid grid holding the filtered table, with the input's info and frames |
| EvoxelTranslate.ShiftColumn | crates/evoxel-transform/src/translate.rs:6-14 | in place, the buffer becomes its old contents with the delta added on one axis |
| EvoxelTranslate.ShiftsCompose | crates/evoxel-transform/src/translate.rs:6-14 | shifting x, then y, then z equals translating by the vector |
| EvoxelTranslate.TranslateRows | crates/evoxel-transform/src/translate.rs:5-14 | the copied and shifted rows are the translated rows |
| EvoxelTranslate.TranslatedRows | crates/evoxel-transform/src/translate.rs:6-14 | row i's new index is its old index plus the translation, and its other cells are unchanged |
| EvoxelTranslate.TranslateRoundTrip | crates/evoxel-transform/src/translate.rs:6-14 | translating by d and then by -d restores the rows |
| EvoxelTranslate.TranslateByZero | crates/evoxel-transform/src/translate.rs:6-14 | translating by zero is the identity |
| EvoxelTranslate.TranslateCompose | crates/evoxel-transform/src/translate.rs:6-14 | translating by a and then by b is translating by a + b |
| EvoxelTranslate.TranslatePreservesIntegrity | crates/evoxel-transform/src/translate.rs:19 | a translation that stays in 64-bit range keeps the table well formed |
| EvoxelTranslate.TranslatedExtremes | crates/evoxel-transform/src/translate.rs:6-14 | each axis minimum and maximum moves by the translation on that axis |
| EvoxelTranslate.Translate | crates/evoxel-transform/src/translate.rs:4-20 | a fresh valid grid with the same columns and the translated rows, and the input's info and frames |

## Left out

- Floating point: resolutions, center points and isometries use exact reals; f64 rounding is not modelled.
- Frame resolution: deriving the transform graph and looking up an isometry are external to the core. They are parameters (`FrameResolver`) that return a result; timestamps and graphs are opaque values.
- Integrity check: `check_data_integrity` is not part of this model. It is abstracted as `HasIntegrity`: a well-formed table (typed rows, distinct column names, none shadowing `x`/`y`/`z`, 64-bit indices) and a positive resolution.
- Parallelism: the parallel maps over the rows are modelled as sequential maps that keep row order.
- Null cells and empty lists: the store explodes an empty list into a row of nulls. The model has no nulls, so `ExplodeData` and `Explode` require every list cell to be non-empty.
- EvoxelFilter.AggregateByIndexData: the store does not promise an order for the groups, so the order is a parameter: any duplicate-free listing of the distinct index triples. Within a group, rows keep their input order.
- EvoxelFilter.FilterByCountData: requires the minimum to fit in a signed 32-bit integer, because the source converts it with `as i32` before comparing.
- EvoxelFilter.ExplodeAfterAggregate: requires at least one further column. Without one, aggregation yields only `len` and no list column, so the explode selection is empty and fails (stated by `ExplodeData`).
- EvoxelFilter.ExplodeData: the failure on an empty selection and its message follow the store's `explode`, whose implementation is not part of this model.
- EvoxelTranslate.Translate: requires every shifted index to stay in the 64-bit range; the store's wrap-around on overflow is not modelled.
- EvoxelCore.VoxelGrid.MinIndex: requires a non-empty grid, because the source unwraps an absent minimum and panics; the same holds for `MaxIndex` and everything derived from them.
- The command-line tool (argument parsing, logging, file input and output) has no logic to model.
- Accessors that only return a field (`voxel_data`, `info`, `reference_frames`) are the fields of the class, and `size` is `VoxelGrid.Size`.
