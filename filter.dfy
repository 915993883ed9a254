/** The grid-to-grid operators of evoxel-transform's filter module. Each one
    computes a new table from the grid's table (a pure function of it, given
    first) and then builds a fresh grid around that table with the input's
    info and reference frames. */
module EvoxelFilter {
  import opened Wrappers
  import opened DataFrame
  import opened EvoxelCore

  datatype TransformError =
    | Evoxel(error: Error)
    | Polars(polarsError: PolarsError)
    | LowerCornerMustBeBelowUpperCorner

  /** The name the store gives the group length it appends. */
  const LEN_COLUMN: string := "len"

  const I32_MAX: int := 0x7FFF_FFFF

  predicate HasWidth(rows: seq<Row>, width: nat) {
    forall i :: 0 <= i < |rows| ==> |rows[i].cells| == width
  }

  lemma GroupHasWidth(rows: seq<Row>, key: Index, width: nat)
    requires HasWidth(rows, width)
    ensures HasWidth(Group(rows, key), width)
  {
    var g := Group(rows, key);
    forall k | 0 <= k < |g| ensures |g[k].cells| == width {
      assert g[k] in rows;
    }
  }

  // ---------------------------------------------------------------------------
  // aggregate_by_index

  /** The aggregated schema: every further column turned into a list column,
      then the group length. */
  function AggregatedColumns(columns: seq<Column>): (r: seq<Column>)
    ensures |r| == |columns| + 1
    ensures forall j :: 0 <= j < |columns| ==> r[j] == Column(columns[j].name, ListOf(columns[j].dtype))
    ensures r[|columns|] == Column(LEN_COLUMN, Integer)
  {
    seq(|columns|, j requires 0 <= j < |columns| => Column(columns[j].name, ListOf(columns[j].dtype)))
      + [Column(LEN_COLUMN, Integer)]
  }

  /** The one row a group becomes: its key, each further column's values in
      row order as a list, and the number of rows in the group. */
  function AggregateGroup(group: seq<Row>, key: Index, width: nat): Row
    requires HasWidth(group, width)
  {
    Row(key, seq(width, j requires 0 <= j < width => ListValue(ColumnOf(group, j))) + [IntValue(|group|)])
  }

  /** One aggregated row per key of `order`, in that order. */
  function AggregateRows(rows: seq<Row>, order: seq<Index>, width: nat): (r: seq<Row>)
    requires HasWidth(rows, width)
    ensures |r| == |order|
    ensures forall k :: 0 <= k < |order| ==>
      HasWidth(Group(rows, order[k]), width) &&
      r[k] == AggregateGroup(Group(rows, order[k]), order[k], width)
  {
    if order == [] then []
    else
      GroupHasWidth(rows, order[0], width);
      [AggregateGroup(Group(rows, order[0]), order[0], width)] + AggregateRows(rows, order[1..], width)
  }

  /** Groups the rows by index triple into one row per distinct triple,
      collecting every further column into a list and appending the group
      length. The groups come in `order`, an order the store does not
      promise. A table that already has a `len` column clashes with the
      appended one. */
  function AggregateByIndexData(t: Table, order: seq<Index>): (r: Result<Table, PolarsError>)
    requires t.WellFormed()
    requires IsGroupOrder(order, t.rows)
    ensures r.Failure? <==> FindColumn(t.columns, LEN_COLUMN).Some?
    ensures r.Failure? ==> r.error == Duplicate(LEN_COLUMN)
    ensures r.Success? ==> r.value.columns == AggregatedColumns(t.columns)
    ensures r.Success? ==> |r.value.rows| == |order| && forall k :: 0 <= k < |order| ==>
      r.value.rows[k].index == order[k] &&
      |r.value.rows[k].cells| == |t.columns| + 1 &&
      r.value.rows[k].cells[|t.columns|] == IntValue(|Group(t.rows, order[k])|)
  {
    if FindColumn(t.columns, LEN_COLUMN).Some? then Failure(Duplicate(LEN_COLUMN))
    else Success(Table(AggregatedColumns(t.columns), AggregateRows(t.rows, order, |t.columns|)))
  }

  /** Aggregation yields exactly one row per distinct index triple. */
  lemma AggregateOneRowPerIndex(t: Table, order: seq<Index>)
    requires t.WellFormed() && IsGroupOrder(order, t.rows)
    requires AggregateByIndexData(t, order).Success?
    ensures IndexSet(AggregateByIndexData(t, order).value.rows) == IndexSet(t.rows)
    ensures Distinct(Indices(AggregateByIndexData(t, order).value.rows))
  {
    var out := AggregateByIndexData(t, order).value.rows;
    assert Indices(out) == order;
    assert IndexSet(out) == set k | k in order;
  }

  /** The group length of each aggregated row is the number of input rows
      with that row's index triple. */
  lemma AggregateLengthIsMultiplicity(t: Table, order: seq<Index>, k: nat)
    requires t.WellFormed() && IsGroupOrder(order, t.rows)
    requires AggregateByIndexData(t, order).Success?
    requires k < |order|
    ensures AggregateByIndexData(t, order).value.rows[k].cells[|t.columns|]
         == IntValue(multiset(Indices(t.rows))[order[k]])
    ensures multiset(Indices(t.rows))[order[k]] > 0
  {
    GroupSizeIsMultiplicity(t.rows, order[k]);
    assert order[k] in (set k | k in order);
    GroupOfOccurringIndex(t.rows, order[k]);
  }

  /** Sum of the integer cells of column `j`. */
  function ColumnTotal(rows: seq<Row>, j: nat): int {
    if rows == [] then 0
    else (if j < |rows[0].cells| && rows[0].cells[j].IntValue? then rows[0].cells[j].i else 0)
         + ColumnTotal(rows[1..], j)
  }

  lemma {:induction false} AggregateRowsTotal(rows: seq<Row>, order: seq<Index>, width: nat)
    requires HasWidth(rows, width)
    ensures ColumnTotal(AggregateRows(rows, order, width), width) == |Regroup(rows, order)|
  {
    if order != [] {
      AggregateRowsTotal(rows, order[1..], width);
      var r := AggregateRows(rows, order, width);
      assert r[1..] == AggregateRows(rows, order[1..], width);
    }
  }

  /** The group lengths add up to the number of input rows. */
  lemma AggregateLengthsSum(t: Table, order: seq<Index>)
    requires t.WellFormed() && IsGroupOrder(order, t.rows)
    requires AggregateByIndexData(t, order).Success?
    ensures ColumnTotal(AggregateByIndexData(t, order).value.rows, |t.columns|) == |t.rows|
  {
    AggregateRowsTotal(t.rows, order, |t.columns|);
    GroupsPartitionRows(t.rows, order);
  }

  /** The aggregated table is again a well-formed store table. */
  lemma AggregatePreservesIntegrity(t: Table, order: seq<Index>)
    requires t.WellFormed() && IsGroupOrder(order, t.rows)
    requires AggregateByIndexData(t, order).Success?
    ensures AggregateByIndexData(t, order).value.WellFormed()
  {
    var out := AggregateByIndexData(t, order).value;
    var w := |t.columns|;
    assert FindColumn(t.columns, LEN_COLUMN).None?;
    forall k | 0 <= k < |out.rows| ensures RowConforms(out.rows[k], out.columns) {
      var g := Group(t.rows, order[k]);
      assert order[k] in (set k | k in order);
      assert order[k] in IndexSet(t.rows);
      forall j | 0 <= j < w ensures Conforms(out.rows[k].cells[j], out.columns[j].dtype) {
        var col := ColumnOf(g, j);
        forall m | 0 <= m < |col| ensures Conforms(col[m], t.columns[j].dtype) {
          assert g[m] in t.rows;
        }
      }
    }
  }

  /** The keys of a duplicate-free sequence are as many as its elements. */
  lemma {:induction false} DistinctKeyCount(keys: seq<Index>)
    requires Distinct(keys)
    ensures |set k | k in keys| == |keys|
  {
    if keys != [] {
      var rest := keys[1..];
      assert Distinct(rest);
      DistinctKeyCount(rest);
      assert keys[0] !in (set k | k in rest);
      assert (set k | k in keys) == (set k | k in rest) + {keys[0]} by {
        assert keys == [keys[0]] + rest;
      }
    }
  }

  /** Two rows at (0,0,0) and no further column: whatever group order the
      store picks, it is [(0,0,0)], and aggregation gives the single row
      (0,0,0) with group length 2. */
  lemma AggregateTwoDuplicates(t: Table, order: seq<Index>)
    requires t == Table([], [Row(Index(0, 0, 0), []), Row(Index(0, 0, 0), [])])
    requires t.WellFormed() && IsGroupOrder(order, t.rows)
    ensures order == [Index(0, 0, 0)]
    ensures AggregateByIndexData(t, order)
         == Success(Table([Column(LEN_COLUMN, Integer)], [Row(Index(0, 0, 0), [IntValue(2)])]))
  {
    var o := Index(0, 0, 0);
    assert IndexSet(t.rows) == {o} by {
      assert t.rows[0].index == o;
    }
    DistinctKeyCount(order);
    assert |order| == 1;
    assert order[0] in (set k | k in order);
    assert order == [o];
    assert Group(t.rows, o) == t.rows;
    var out := AggregateByIndexData(t, order).value;
    assert AggregatedColumns([]) == [Column(LEN_COLUMN, Integer)];
    assert out.rows[0].cells == [IntValue(2)];
    assert out.rows == [Row(o, [IntValue(2)])];
  }

  /** Groups the grid's rows by index triple (see `AggregateByIndexData`). */
  method AggregateByIndex(g: VoxelGrid, order: seq<Index>) returns (r: Result<VoxelGrid, TransformError>)
    requires g.Valid()
    requires IsGroupOrder(order, g.voxelData.rows)
    ensures r.Success? <==> AggregateByIndexData(g.voxelData, order).Success?
    ensures r.Failure? ==> r.error == Polars(AggregateByIndexData(g.voxelData, order).error)
    ensures r.Success? ==> fresh(r.value) && r.value.Valid()
    ensures r.Success? ==> r.value.voxelData == AggregateByIndexData(g.voxelData, order).value
    ensures r.Success? ==> r.value.info == g.info && r.value.referenceFrames == g.referenceFrames
  {
    var partitioned := AggregateByIndexData(g.voxelData, order);
    if partitioned.Failure? {
      return Failure(Polars(partitioned.error));
    }
    AggregatePreservesIntegrity(g.voxelData, order);
    var grid := VoxelGrid.New(partitioned.value, g.info, g.referenceFrames);
    assert grid.Success?;
    r := Success(grid.value);
  }

  // ---------------------------------------------------------------------------
  // explode

  predicate IsListColumn(c: Column) {
    c.dtype.ListOf?
  }

  /** Position of the first list-typed column, if any. */
  function FirstListColumn(columns: seq<Column>): (r: Option<nat>)
    ensures r.Some? ==> r.value < |columns| && IsListColumn(columns[r.value])
    ensures r.Some? ==> forall j :: 0 <= j < r.value ==> !IsListColumn(columns[j])
    ensures r.None? <==> forall j :: 0 <= j < |columns| ==> !IsListColumn(columns[j])
  {
    if columns == [] then None
    else if IsListColumn(columns[0]) then Some(0)
    else match FirstListColumn(columns[1..])
      case None => None
      case Some(j) => Some(j + 1)
  }

  /** The exploded schema: each list column becomes a column of its elements. */
  function ExplodedColumns(columns: seq<Column>): (r: seq<Column>)
    ensures |r| == |columns|
    ensures forall j :: 0 <= j < |columns| ==> r[j].name == columns[j].name
    ensures forall j :: 0 <= j < |columns| ==>
      r[j].dtype == if IsListColumn(columns[j]) then columns[j].dtype.inner else columns[j].dtype
  {
    seq(|columns|, j requires 0 <= j < |columns| =>
      if IsListColumn(columns[j]) then Column(columns[j].name, columns[j].dtype.inner) else columns[j])
  }

  function ListLength(v: Value): nat {
    if v.ListValue? then |v.items| else 0
  }

  /** Element `k` of a list cell. */
  function ItemAt(v: Value, k: nat): Value {
    if v.ListValue? && k < |v.items| then v.items[k] else v
  }

  /** The number of rows a row explodes into: the length of its first list. */
  function Multiplicity(r: Row, first: nat): nat {
    if first < |r.cells| then ListLength(r.cells[first]) else 0
  }

  /** Every list cell of the row has `n` elements. */
  predicate LengthsAgree(r: Row, columns: seq<Column>, n: nat) {
    forall j :: 0 <= j < |columns| && j < |r.cells| && IsListColumn(columns[j]) ==> ListLength(r.cells[j]) == n
  }

  /** The `n` rows one row explodes into: row `k` takes element `k` of every
      list cell and repeats the index triple and every scalar cell. */
  function ExplodeRow(r: Row, columns: seq<Column>, n: nat): seq<Row> {
    seq(n, k requires 0 <= k < n =>
      Row(r.index, seq(|r.cells|, j requires 0 <= j < |r.cells| =>
        if j < |columns| && IsListColumn(columns[j]) then ItemAt(r.cells[j], k) else r.cells[j])))
  }

  /** Exploded row `k` repeats the source row's index triple and scalar
      cells and takes element `k` of every list cell. */
  lemma ExplodeRowContents(r: Row, columns: seq<Column>, n: nat, k: nat)
    requires RowConforms(r, columns) && LengthsAgree(r, columns, n)
    requires k < n
    ensures |ExplodeRow(r, columns, n)| == n
    ensures ExplodeRow(r, columns, n)[k].index == r.index
    ensures |ExplodeRow(r, columns, n)[k].cells| == |columns|
    ensures forall j :: 0 <= j < |columns| && !IsListColumn(columns[j]) ==>
      ExplodeRow(r, columns, n)[k].cells[j] == r.cells[j]
    ensures forall j :: 0 <= j < |columns| && IsListColumn(columns[j]) ==>
      r.cells[j].ListValue? && k < |r.cells[j].items| &&
      ExplodeRow(r, columns, n)[k].cells[j] == r.cells[j].items[k]
  {
    forall j | 0 <= j < |columns| && IsListColumn(columns[j])
      ensures r.cells[j].ListValue? && k < |r.cells[j].items|
    {
      assert Conforms(r.cells[j], columns[j].dtype);
    }
  }

  /** Total number of rows the rows explode into. */
  function ExplodedHeight(rows: seq<Row>, first: nat): nat {
    if rows == [] then 0 else Multiplicity(rows[0], first) + ExplodedHeight(rows[1..], first)
  }

  /** Explodes every row, failing when the list cells of some row disagree in
      length. */
  function ExplodeRows(rows: seq<Row>, columns: seq<Column>, first: nat): (r: Result<seq<Row>, PolarsError>)
    ensures r.Success? <==>
      forall i :: 0 <= i < |rows| ==> LengthsAgree(rows[i], columns, Multiplicity(rows[i], first))
    ensures r.Success? ==> |r.value| == ExplodedHeight(rows, first)
    ensures r.Failure? ==> r.error.ShapeMismatch?
  {
    if rows == [] then Success([])
    else
      var n := Multiplicity(rows[0], first);
      if !LengthsAgree(rows[0], columns, n) then
        Failure(ShapeMismatch("exploded columns must have matching element counts"))
      else
        var rest := ExplodeRows(rows[1..], columns, first);
        if rest.Failure? then Failure(rest.error)
        else Success(ExplodeRow(rows[0], columns, n) + rest.value)
  }

  /** No list cell is empty (the store turns an empty list into a row of
      nulls, which this model does not have). */
  predicate NoEmptyLists(t: Table) {
    forall i, j ::
      (0 <= i < |t.rows| && 0 <= j < |t.columns| && j < |t.rows[i].cells| && IsListColumn(t.columns[j])) ==>
      ListLength(t.rows[i].cells[j]) > 0
  }

  /** The store's reply to an explode with an empty column selection. */
  const NO_EXPLODE_COLUMNS: string := "no columns provided in explode"

  /** Unpacks every list column into one row per element. A table without
      list columns gives the store an empty selection, which it rejects. */
  function ExplodeData(t: Table): (r: Result<Table, PolarsError>)
    requires t.WellFormed()
    requires NoEmptyLists(t)
    ensures FirstListColumn(t.columns).None? ==> r == Failure(InvalidOperation(NO_EXPLODE_COLUMNS))
    ensures FirstListColumn(t.columns).Some? ==>
      (r.Success? <==> forall i :: 0 <= i < |t.rows| ==>
        LengthsAgree(t.rows[i], t.columns, Multiplicity(t.rows[i], FirstListColumn(t.columns).value)))
    ensures FirstListColumn(t.columns).Some? && r.Success? ==>
      r.value.columns == ExplodedColumns(t.columns) &&
      |r.value.rows| == ExplodedHeight(t.rows, FirstListColumn(t.columns).value)
    ensures FirstListColumn(t.columns).Some? && r.Failure? ==> r.error.ShapeMismatch?
  {
    match FirstListColumn(t.columns)
    case None => Failure(InvalidOperation(NO_EXPLODE_COLUMNS))
    case Some(first) =>
      var rows := ExplodeRows(t.rows, t.columns, first);
      if rows.Failure? then Failure(rows.error)
      else Success(Table(ExplodedColumns(t.columns), rows.value))
  }

  /** The sequences of `parts`, concatenated in order. */
  function Concat(parts: seq<seq<Row>>): seq<Row> {
    if parts == [] then [] else parts[0] + Concat(parts[1..])
  }

  /** What each input row explodes into, in row order. */
  function RowExplosions(rows: seq<Row>, columns: seq<Column>, first: nat): (r: seq<seq<Row>>)
    ensures |r| == |rows|
    ensures forall i :: 0 <= i < |rows| ==> r[i] == ExplodeRow(rows[i], columns, Multiplicity(rows[i], first))
  {
    seq(|rows|, i requires 0 <= i < |rows| => ExplodeRow(rows[i], columns, Multiplicity(rows[i], first)))
  }

  lemma {:induction false} ExplodeRowsAreConcat(rows: seq<Row>, columns: seq<Column>, first: nat)
    requires ExplodeRows(rows, columns, first).Success?
    ensures ExplodeRows(rows, columns, first).value == Concat(RowExplosions(rows, columns, first))
  {
    if rows != [] {
      ExplodeRowsAreConcat(rows[1..], columns, first);
      assert RowExplosions(rows, columns, first)[1..] == RowExplosions(rows[1..], columns, first);
    }
  }

  /** A successful explode consists, in row order, of the rows each input row
      explodes into: one per element of its lists, with the index triple and
      the scalar cells repeated (see `ExplodeRowContents`). */
  lemma ExplodeDataContents(t: Table)
    requires t.WellFormed() && NoEmptyLists(t)
    requires ExplodeData(t).Success?
    ensures FirstListColumn(t.columns).Some?
    ensures ExplodeData(t).value.rows == Concat(RowExplosions(t.rows, t.columns, FirstListColumn(t.columns).value))
  {
    ExplodeRowsAreConcat(t.rows, t.columns, FirstListColumn(t.columns).value);
  }

  lemma ExplodeRowConforms(r: Row, columns: seq<Column>, n: nat)
    requires RowConforms(r, columns) && LengthsAgree(r, columns, n)
    ensures forall k :: 0 <= k < n ==> RowConforms(ExplodeRow(r, columns, n)[k], ExplodedColumns(columns))
  {
    var out := ExplodeRow(r, columns, n);
    var ec := ExplodedColumns(columns);
    forall k | 0 <= k < n ensures RowConforms(out[k], ec) {
      forall j | 0 <= j < |columns| ensures Conforms(out[k].cells[j], ec[j].dtype) {
        if IsListColumn(columns[j]) {
          assert Conforms(r.cells[j], columns[j].dtype);
          assert ListLength(r.cells[j]) == n;
        }
      }
    }
  }

  lemma {:induction false} ExplodeRowsConform(rows: seq<Row>, columns: seq<Column>, first: nat)
    requires forall i :: 0 <= i < |rows| ==> RowConforms(rows[i], columns)
    requires ExplodeRows(rows, columns, first).Success?
    ensures forall k :: 0 <= k < |ExplodeRows(rows, columns, first).value| ==>
      RowConforms(ExplodeRows(rows, columns, first).value[k], ExplodedColumns(columns))
  {
    if rows != [] {
      ExplodeRowsConform(rows[1..], columns, first);
      ExplodeRowConforms(rows[0], columns, Multiplicity(rows[0], first));
    }
  }

  /** The exploded table is again a well-formed store table. */
  lemma ExplodePreservesIntegrity(t: Table)
    requires t.WellFormed() && NoEmptyLists(t)
    requires ExplodeData(t).Success?
    ensures ExplodeData(t).value.WellFormed()
  {
    ExplodeRowsConform(t.rows, t.columns, FirstListColumn(t.columns).value);
  }

  /** A row with the group length `n` appended. */
  function WithLength(row: Row, n: nat): Row {
    Row(row.index, row.cells + [IntValue(n)])
  }

  /** The rows of every group of `order`, each with its group's length
      appended. */
  function ExpandedGroups(rows: seq<Row>, order: seq<Index>): seq<Row> {
    if order == [] then []
    else
      var g := Group(rows, order[0]);
      seq(|g|, i requires 0 <= i < |g| => WithLength(g[i], |g|)) + ExpandedGroups(rows, order[1..])
  }

  lemma ExplodeAggregatedGroup(g: seq<Row>, key: Index, columns: seq<Column>)
    requires |columns| > 0 && HasWidth(g, |columns|)
    requires forall i :: 0 <= i < |g| ==> g[i].index == key
    ensures LengthsAgree(AggregateGroup(g, key, |columns|), AggregatedColumns(columns), |g|)
    ensures Multiplicity(AggregateGroup(g, key, |columns|), 0) == |g|
    ensures ExplodeRow(AggregateGroup(g, key, |columns|), AggregatedColumns(columns), |g|)
         == seq(|g|, i requires 0 <= i < |g| => WithLength(g[i], |g|))
  {
    var w := |columns|;
    var row := AggregateGroup(g, key, w);
    var ac := AggregatedColumns(columns);
    var out := ExplodeRow(row, ac, |g|);
    forall k | 0 <= k < |g| ensures out[k] == WithLength(g[k], |g|) {
      assert out[k].cells == g[k].cells + [IntValue(|g|)];
    }
  }

  lemma {:induction false} ExplodeAggregatedRows(rows: seq<Row>, order: seq<Index>, columns: seq<Column>)
    requires |columns| > 0 && HasWidth(rows, |columns|)
    ensures ExplodeRows(AggregateRows(rows, order, |columns|), AggregatedColumns(columns), 0)
         == Success(ExpandedGroups(rows, order))
  {
    if order != [] {
      var ar := AggregateRows(rows, order, |columns|);
      assert ar[1..] == AggregateRows(rows, order[1..], |columns|);
      ExplodeAggregatedRows(rows, order[1..], columns);
      GroupHasWidth(rows, order[0], |columns|);
      ExplodeAggregatedGroup(Group(rows, order[0]), order[0], columns);
    }
  }

  /** Explosion undoes aggregation: exploding an aggregated table with at
      least one further column gives back the rows of every group, in group
      order, each carrying its group length in a trailing column. */
  lemma ExplodeAfterAggregate(t: Table, order: seq<Index>)
    requires t.WellFormed() && IsGroupOrder(order, t.rows) && |t.columns| > 0
    requires AggregateByIndexData(t, order).Success?
    ensures AggregateByIndexData(t, order).value.WellFormed()
    ensures NoEmptyLists(AggregateByIndexData(t, order).value)
    ensures ExplodeData(AggregateByIndexData(t, order).value)
         == Success(Table(t.columns + [Column(LEN_COLUMN, Integer)], ExpandedGroups(t.rows, order)))
  {
    var agg := AggregateByIndexData(t, order).value;
    AggregatePreservesIntegrity(t, order);
    forall i, j | 0 <= i < |agg.rows| && 0 <= j < |agg.columns| && j < |agg.rows[i].cells| &&
      IsListColumn(agg.columns[j])
      ensures ListLength(agg.rows[i].cells[j]) > 0
    {
      AggregateLengthIsMultiplicity(t, order, i);
      GroupSizeIsMultiplicity(t.rows, order[i]);
    }
    assert FirstListColumn(agg.columns) == Some(0);
    ExplodeAggregatedRows(t.rows, order, t.columns);
    assert ExplodedColumns(agg.columns) == t.columns + [Column(LEN_COLUMN, Integer)];
  }

  /** The rows of every group of `order`, each with its group's length
      appended, are a rearrangement of the input rows once that trailing
      cell is dropped. */
  lemma ExpandedGroupsPermuteRows(t: Table, order: seq<Index>)
    requires IsGroupOrder(order, t.rows)
    ensures multiset(WithoutLastCell(ExpandedGroups(t.rows, order))) == multiset(t.rows)
  {
    DropLengths(t.rows, order);
    GroupsPartitionRows(t.rows, order);
  }

  /** Each row without its last cell. */
  function WithoutLastCell(rows: seq<Row>): (r: seq<Row>)
    ensures |r| == |rows|
  {
    seq(|rows|, i requires 0 <= i < |rows| =>
      Row(rows[i].index, if |rows[i].cells| > 0 then rows[i].cells[..|rows[i].cells| - 1] else []))
  }

  lemma {:induction false} DropLengths(rows: seq<Row>, order: seq<Index>)
    ensures WithoutLastCell(ExpandedGroups(rows, order)) == Regroup(rows, order)
  {
    if order != [] {
      DropLengths(rows, order[1..]);
      var g := Group(rows, order[0]);
      var head := seq(|g|, i requires 0 <= i < |g| => WithLength(g[i], |g|));
      var tail := ExpandedGroups(rows, order[1..]);
      var whole := WithoutLastCell(head + tail);
      forall i | 0 <= i < |whole| ensures whole[i] == (g + Regroup(rows, order[1..]))[i] {
        if i < |g| {
          assert (head + tail)[i] == WithLength(g[i], |g|);
          assert whole[i].cells == g[i].cells;
        } else {
          assert (head + tail)[i] == tail[i - |g|];
          assert whole[i] == WithoutLastCell(tail)[i - |g|];
        }
      }
    }
  }

  /** Unpacks the grid's list columns (see `ExplodeData`). */
  method Explode(g: VoxelGrid) returns (r: Result<VoxelGrid, TransformError>)
    requires g.Valid()
    requires NoEmptyLists(g.voxelData)
    ensures r.Success? <==> ExplodeData(g.voxelData).Success?
    ensures r.Failure? ==> r.error == Polars(ExplodeData(g.voxelData).error)
    ensures r.Success? ==> fresh(r.value) && r.value.Valid()
    ensures r.Success? ==> r.value.voxelData == ExplodeData(g.voxelData).value
    ensures r.Success? ==> r.value.info == g.info && r.value.referenceFrames == g.referenceFrames
  {
    var df := ExplodeData(g.voxelData);
    if df.Failure? {
      return Failure(Polars(df.error));
    }
    ExplodePreservesIntegrity(g.voxelData);
    var grid := VoxelGrid.New(df.value, g.info, g.referenceFrames);
    assert grid.Success?;
    r := Success(grid.value);
  }

  // ---------------------------------------------------------------------------
  // filter_by_count

  /** The `count` column can be compared with a number. */
  predicate IsNumeric(t: DType) {
    t.Integer? || t.Float?
  }

  /** Keeps the rows whose `count` is at least `minimum`, in order. The
      minimum is compared as a 32-bit integer, so it must fit in one. */
  function FilterByCountData(t: Table, minimum: nat): (r: Result<Table, PolarsError>)
    requires minimum <= I32_MAX
    ensures FindColumn(t.columns, Count.AsStr()).None? ==> r == Failure(ColumnNotFound(Count.AsStr()))
    ensures r.Success? <==>
      FindColumn(t.columns, Count.AsStr()).Some? && IsNumeric(t.columns[FindColumn(t.columns, Count.AsStr()).value].dtype)
    ensures r.Success? ==> r.value.columns == t.columns && |r.value.rows| <= |t.rows|
    ensures r.Success? ==> forall k :: 0 <= k < |r.value.rows| ==>
      CellAtLeast(FindColumn(t.columns, Count.AsStr()).value, minimum).Holds(r.value.rows[k])
  {
    match FindColumn(t.columns, Count.AsStr())
    case None => Failure(ColumnNotFound(Count.AsStr()))
    case Some(j) =>
      if IsNumeric(t.columns[j].dtype) then Success(Table(t.columns, Filter(t.rows, CellAtLeast(j, minimum))))
      else Failure(InvalidOperation("count column cannot be compared with an integer"))
  }

  /** The count filter keeps exactly the rows whose count reaches the
      minimum, each as often as it occurs, in their original order. */
  lemma FilterByCountSelects(t: Table, minimum: nat, row: Row)
    requires minimum <= I32_MAX
    requires FilterByCountData(t, minimum).Success?
    ensures var kept := FilterByCountData(t, minimum).value.rows;
      var p := CellAtLeast(FindColumn(t.columns, Count.AsStr()).value, minimum);
      && multiset(kept)[row] == (if p.Holds(row) then multiset(t.rows)[row] else 0)
      && IsSubsequence(kept, t.rows)
  {
    var p := CellAtLeast(FindColumn(t.columns, Count.AsStr()).value, minimum);
    FilterMultiplicity(t.rows, p, row);
    FilterIsSubsequence(t.rows, p);
  }

  /** With minimum 0 the count filter is the identity on a table whose
      integer counts are non-negative. */
  lemma FilterByCountZeroIsIdentity(t: Table)
    requires t.WellFormed()
    requires FindColumn(t.columns, Count.AsStr()).Some?
    requires t.columns[FindColumn(t.columns, Count.AsStr()).value].dtype == Integer
    requires forall i :: 0 <= i < |t.rows| ==> t.rows[i].cells[FindColumn(t.columns, Count.AsStr()).value].i >= 0
    ensures FilterByCountData(t, 0) == Success(t)
  {
    var j := FindColumn(t.columns, Count.AsStr()).value;
    forall i | 0 <= i < |t.rows| ensures CellAtLeast(j, 0).Holds(t.rows[i]) {
      assert RowConforms(t.rows[i], t.columns);
      assert Conforms(t.rows[i].cells[j], Integer);
    }
    FilterAll(t.rows, CellAtLeast(j, 0));
  }

  lemma FilterKeepsIntegrity(t: Table, p: RowPredicate)
    requires t.WellFormed()
    ensures Table(t.columns, Filter(t.rows, p)).WellFormed()
  {
    var kept := Filter(t.rows, p);
    forall k | 0 <= k < |kept| ensures RowConforms(kept[k], t.columns) {
      assert kept[k] in t.rows;
    }
  }

  /** Keeps the grid's rows whose count reaches `minimum` (see
      `FilterByCountData`). */
  method FilterByCount(g: VoxelGrid, minimum: nat) returns (r: Result<VoxelGrid, TransformError>)
    requires g.Valid()
    requires minimum <= I32_MAX
    ensures r.Success? <==> FilterByCountData(g.voxelData, minimum).Success?
    ensures r.Failure? ==> r.error == Polars(FilterByCountData(g.voxelData, minimum).error)
    ensures r.Success? ==> fresh(r.value) && r.value.Valid()
    ensures r.Success? ==> r.value.voxelData == FilterByCountData(g.voxelData, minimum).value
    ensures r.Success? ==> r.value.info == g.info && r.value.referenceFrames == g.referenceFrames
  {
    var filtered := FilterByCountData(g.voxelData, minimum);
    if filtered.Failure? {
      return Failure(Polars(filtered.error));
    }
    FilterKeepsIntegrity(g.voxelData, CellAtLeast(FindColumn(g.voxelData.columns, Count.AsStr()).value, minimum));
    var grid := VoxelGrid.New(filtered.value, g.info, g.referenceFrames);
    assert grid.Success?;
    r := Success(grid.value);
  }

  // ---------------------------------------------------------------------------
  // filter_by_index_bounds

  /** The point order `lower >= upper`: it holds when `lower` is at least
      `upper` on every axis. */
  predicate PointGe(lower: Index, upper: Index) {
    lower.x >= upper.x && lower.y >= upper.y && lower.z >= upper.z
  }

  /** The inclusive box between the two corners. */
  function InBox(lower: Index, upper: Index): RowPredicate {
    And(And(AxisBetween(X, lower.x, upper.x), AxisBetween(Y, lower.y, upper.y)), AxisBetween(Z, lower.z, upper.z))
  }

  lemma InBoxHolds(lower: Index, upper: Index, r: Row)
    ensures InBox(lower, upper).Holds(r) <==> lower.Le(r.index) && r.index.Le(upper)
  {
    var xy := And(AxisBetween(X, lower.x, upper.x), AxisBetween(Y, lower.y, upper.y));
    assert xy.Holds(r) <==> lower.x <= r.index.x <= upper.x && lower.y <= r.index.y <= upper.y;
  }

  /** The three chained axis filters. */
  function AxisByAxis(rows: seq<Row>, lower: Index, upper: Index): seq<Row> {
    var byX := Filter(rows, AxisBetween(X, lower.x, upper.x));
    var byY := Filter(byX, AxisBetween(Y, lower.y, upper.y));
    Filter(byY, AxisBetween(Z, lower.z, upper.z))
  }

  /** Filtering axis by axis is filtering by the box. */
  lemma AxisByAxisIsBox(rows: seq<Row>, lower: Index, upper: Index)
    ensures AxisByAxis(rows, lower, upper) == Filter(rows, InBox(lower, upper))
  {
    var X1 := AxisBetween(X, lower.x, upper.x);
    var Y1 := AxisBetween(Y, lower.y, upper.y);
    var Z1 := AxisBetween(Z, lower.z, upper.z);
    FilterThenFilter(rows, X1, Y1);
    FilterThenFilter(rows, And(X1, Y1), Z1);
  }

  /** Rejects corners that are ordered the wrong way on all three axes, then
      keeps the rows inside the inclusive box, filtering axis by axis. */
  function FilterByIndexBoundsData(t: Table, lower: Index, upper: Index): (r: Result<Table, TransformError>)
    ensures r.Failure? <==> lower.x >= upper.x && lower.y >= upper.y && lower.z >= upper.z
    ensures r.Failure? ==> r.error == LowerCornerMustBeBelowUpperCorner
    ensures r.Success? ==> r.value.columns == t.columns && |r.value.rows| <= |t.rows|
  {
    if PointGe(lower, upper) then Failure(LowerCornerMustBeBelowUpperCorner)
    else Success(Table(t.columns, AxisByAxis(t.rows, lower, upper)))
  }

  /** The box filter keeps exactly the rows inside the inclusive box, each
      as often as it occurs, in their original order. */
  lemma FilterByIndexBoundsSelects(t: Table, lower: Index, upper: Index, row: Row)
    requires FilterByIndexBoundsData(t, lower, upper).Success?
    ensures var kept := FilterByIndexBoundsData(t, lower, upper).value.rows;
      && multiset(kept)[row] ==
           (if lower.Le(row.index) && row.index.Le(upper) then multiset(t.rows)[row] else 0)
      && IsSubsequence(kept, t.rows)
  {
    AxisByAxisIsBox(t.rows, lower, upper);
    FilterMultiplicity(t.rows, InBox(lower, upper), row);
    FilterIsSubsequence(t.rows, InBox(lower, upper));
    InBoxHolds(lower, upper, row);
  }

  /** Every kept row lies inside the box. */
  lemma FilterByIndexBoundsInBox(t: Table, lower: Index, upper: Index)
    requires FilterByIndexBoundsData(t, lower, upper).Success?
    ensures var kept := FilterByIndexBoundsData(t, lower, upper).value.rows;
      forall k :: 0 <= k < |kept| ==> lower.Le(kept[k].index) && kept[k].index.Le(upper)
  {
    var kept := FilterByIndexBoundsData(t, lower, upper).value.rows;
    AxisByAxisIsBox(t.rows, lower, upper);
    forall k | 0 <= k < |kept| ensures lower.Le(kept[k].index) && kept[k].index.Le(upper) {
      InBoxHolds(lower, upper, kept[k]);
    }
  }

  /** Equal corners are rejected. */
  lemma EqualCornersRejected(t: Table)
    ensures FilterByIndexBoundsData(t, Index(2, 2, 2), Index(2, 2, 2)) == Failure(LowerCornerMustBeBelowUpperCorner)
  {
  }

  /** Corners tied on one axis only pass the check. */
  lemma SingleTiedAxisAccepted(t: Table)
    ensures FilterByIndexBoundsData(t, Index(0, 0, 2), Index(1, 1, 2)).Success?
  {
  }

  /** The extreme indices of a non-empty box-filtered table lie inside the box. */
  lemma FilteredExtremesInBox(t: Table, lower: Index, upper: Index, a: Axis)
    requires FilterByIndexBoundsData(t, lower, upper).Success?
    requires |FilterByIndexBoundsData(t, lower, upper).value.rows| > 0
    ensures var kept := FilterByIndexBoundsData(t, lower, upper).value.rows;
      lower.Get(a) <= MinOf(AxisValues(kept, a)) && MaxOf(AxisValues(kept, a)) <= upper.Get(a)
  {
    var kept := FilterByIndexBoundsData(t, lower, upper).value.rows;
    FilterByIndexBoundsInBox(t, lower, upper);
    var values := AxisValues(kept, a);
    var i :| 0 <= i < |values| && values[i] == MinOf(values);
    var j :| 0 <= j < |values| && values[j] == MaxOf(values);
    assert lower.Le(kept[i].index) && kept[j].index.Le(upper);
  }

  /** Keeps the grid's rows inside the box (see `FilterByIndexBoundsData`). */
  method FilterByIndexBounds(g: VoxelGrid, lower: Index, upper: Index) returns (r: Result<VoxelGrid, TransformError>)
    requires g.Valid()
    ensures r.Success? <==> FilterByIndexBoundsData(g.voxelData, lower, upper).Success?
    ensures r.Failure? ==> r.error == FilterByIndexBoundsData(g.voxelData, lower, upper).error
    ensures r.Success? ==> fresh(r.value) && r.value.Valid()
    ensures r.Success? ==> r.value.voxelData == FilterByIndexBoundsData(g.voxelData, lower, upper).value
    ensures r.Success? ==> r.value.info == g.info && r.value.referenceFrames == g.referenceFrames
  {
    var filtered := FilterByIndexBoundsData(g.voxelData, lower, upper);
    if filtered.Failure? {
      return Failure(filtered.error);
    }
    AxisByAxisIsBox(g.voxelData.rows, lower, upper);
    FilterKeepsIntegrity(g.voxelData, InBox(lower, upper));
    var grid := VoxelGrid.New(filtered.value, g.info, g.referenceFrames);
    assert grid.Success?;
    r := Success(grid.value);
  }
}
