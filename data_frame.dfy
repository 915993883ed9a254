/** The part of the columnar store (a polars `DataFrame`) that the voxel grid
    relies on: typed cells, a schema, rows that carry the mandatory `x`, `y`,
    `z` index triple, and the row filter that every mask or predicate query
    reduces to. */
module DataFrame {
  import opened Wrappers

  const I64_MIN: int := -0x8000_0000_0000_0000
  const I64_MAX: int := 0x7FFF_FFFF_FFFF_FFFF

  predicate InI64(v: int) {
    I64_MIN <= v <= I64_MAX
  }

  /** One of the three index axes. */
  datatype Axis = X | Y | Z

  /** The signed index triple of one voxel cell (a `Point3<i64>`). */
  datatype Index = Index(x: int, y: int, z: int) {

    function Get(axis: Axis): int {
      match axis
      case X => x
      case Y => y
      case Z => z
    }

    /** This index with `delta` added to one axis only. */
    function Shift(axis: Axis, delta: int): (r: Index)
      ensures r.Get(axis) == Get(axis) + delta
      ensures forall other: Axis :: other != axis ==> r.Get(other) == Get(other)
    {
      match axis
      case X => Index(x + delta, y, z)
      case Y => Index(x, y + delta, z)
      case Z => Index(x, y, z + delta)
    }

    function Plus(d: Index): Index {
      Index(x + d.x, y + d.y, z + d.z)
    }

    function Negated(): Index {
      Index(-x, -y, -z)
    }

    predicate InI64Range() {
      InI64(x) && InI64(y) && InI64(z)
    }

    /** Componentwise `<=`. */
    predicate Le(other: Index) {
      x <= other.x && y <= other.y && z <= other.z
    }
  }

  /** Column types: integers, floating point (idealised as reals), text, and
      lists of any of these. */
  datatype DType = Integer | Float | Text | ListOf(inner: DType)

  datatype Value =
    | IntValue(i: int)
    | FloatValue(f: real)
    | TextValue(s: string)
    | ListValue(items: seq<Value>)

  /** A cell value has the shape its column's type says. */
  predicate Conforms(v: Value, t: DType)
    decreases v
  {
    match t
    case Integer => v.IntValue?
    case Float => v.FloatValue?
    case Text => v.TextValue?
    case ListOf(inner) =>
      v.ListValue? && forall k :: 0 <= k < |v.items| ==> Conforms(v.items[k], inner)
  }

  datatype Column = Column(name: string, dtype: DType)

  /** A table row: the mandatory index columns, then one cell per further column. */
  datatype Row = Row(index: Index, cells: seq<Value>)

  predicate RowConforms(r: Row, columns: seq<Column>) {
    && r.index.InI64Range()
    && |r.cells| == |columns|
    && forall j :: 0 <= j < |columns| ==> Conforms(r.cells[j], columns[j].dtype)
  }

  predicate IsIndexColumnName(name: string) {
    name == "x" || name == "y" || name == "z"
  }

  /** Errors surfaced by the store. */
  datatype PolarsError =
    | ColumnNotFound(name: string)
    | InvalidOperation(reason: string)
    | ShapeMismatch(reason: string)
    | Duplicate(name: string)

  /** A table: its further columns (after `x`, `y`, `z`) and its rows. */
  datatype Table = Table(columns: seq<Column>, rows: seq<Row>) {

    /** The shape every store table has: distinct column names, none of them
        shadowing an index column, every row typed by the schema and holding
        64-bit indices. */
    predicate WellFormed() {
      && (forall a, b :: 0 <= a < b < |columns| ==> columns[a].name != columns[b].name)
      && (forall j :: 0 <= j < |columns| ==> !IsIndexColumnName(columns[j].name))
      && (forall i :: 0 <= i < |rows| ==> RowConforms(rows[i], columns))
    }

    function Height(): nat {
      |rows|
    }
  }

  /** Position of the column called `name`, if there is one. */
  function FindColumn(columns: seq<Column>, name: string): (r: Option<nat>)
    ensures r.Some? ==> r.value < |columns| && columns[r.value].name == name
    ensures r.Some? ==> forall j :: 0 <= j < r.value ==> columns[j].name != name
    ensures r.None? <==> forall j :: 0 <= j < |columns| ==> columns[j].name != name
  {
    if columns == [] then None
    else if columns[0].name == name then Some(0)
    else match FindColumn(columns[1..], name)
      case None => None
      case Some(j) => Some(j + 1)
  }

  /** The row predicates the operators build: a defunctionalised form of the
      store's filter expressions. */
  datatype RowPredicate =
    | AxisBetween(axis: Axis, lower: int, upper: int)  // col(a) >= lower && col(a) <= upper
    | CellAtLeast(column: nat, minimum: int)          // col(j) >= minimum
    | IndexEquals(key: Index)
    | IndexIn(keys: set<Index>)
    | And(left: RowPredicate, right: RowPredicate)
  {
    predicate Holds(r: Row) {
      match this
      case AxisBetween(axis, lower, upper) => lower <= r.index.Get(axis) <= upper
      case CellAtLeast(j, minimum) =>
        j < |r.cells| &&
        (match r.cells[j]
         case IntValue(c) => c >= minimum
         case FloatValue(f) => f >= minimum as real
         case _ => false)
      case IndexEquals(key) => r.index == key
      case IndexIn(keys) => r.index in keys
      case And(left, right) => left.Holds(r) && right.Holds(r)
    }
  }

  /** The rows satisfying `p`, in their original order. */
  function Filter(rows: seq<Row>, p: RowPredicate): (kept: seq<Row>)
    ensures |kept| <= |rows|
    ensures forall k :: 0 <= k < |kept| ==> p.Holds(kept[k]) && kept[k] in rows
  {
    if rows == [] then []
    else if p.Holds(rows[0]) then [rows[0]] + Filter(rows[1..], p)
    else Filter(rows[1..], p)
  }

  /** `a` is `b` with some rows left out and the rest in their order. */
  predicate IsSubsequence(a: seq<Row>, b: seq<Row>)
    decreases |b|
  {
    a == [] ||
    (b != [] &&
     ((a[0] == b[0] && IsSubsequence(a[1..], b[1..])) || IsSubsequence(a, b[1..])))
  }

  /** A filter keeps every row satisfying `p` as often as it occurs, and no
      other row. */
  lemma {:induction false} FilterMultiplicity(rows: seq<Row>, p: RowPredicate, r: Row)
    ensures multiset(Filter(rows, p))[r] == if p.Holds(r) then multiset(rows)[r] else 0
  {
    if rows != [] {
      FilterMultiplicity(rows[1..], p, r);
      assert rows == [rows[0]] + rows[1..];
      assert multiset(rows) == multiset{rows[0]} + multiset(rows[1..]);
      if p.Holds(rows[0]) {
        assert multiset(Filter(rows, p)) == multiset{rows[0]} + multiset(Filter(rows[1..], p));
      } else {
        assert Filter(rows, p) == Filter(rows[1..], p);
      }
    }
  }

  /** A filter keeps the relative order of the rows. */
  lemma {:induction false} FilterIsSubsequence(rows: seq<Row>, p: RowPredicate)
    ensures IsSubsequence(Filter(rows, p), rows)
  {
    if rows != [] {
      FilterIsSubsequence(rows[1..], p);
    }
  }

  /** Filtering by a predicate every row satisfies is the identity. */
  lemma {:induction false} FilterAll(rows: seq<Row>, p: RowPredicate)
    requires forall i :: 0 <= i < |rows| ==> p.Holds(rows[i])
    ensures Filter(rows, p) == rows
  {
    if rows != [] {
      FilterAll(rows[1..], p);
      assert rows == [rows[0]] + rows[1..];
    }
  }

  /** Two chained filters are one filter by the conjunction. */
  lemma {:induction false} FilterThenFilter(rows: seq<Row>, p: RowPredicate, q: RowPredicate)
    ensures Filter(Filter(rows, p), q) == Filter(rows, And(p, q))
  {
    if rows != [] {
      FilterThenFilter(rows[1..], p, q);
      if p.Holds(rows[0]) {
        assert Filter(rows, p) == [rows[0]] + Filter(rows[1..], p);
        assert Filter(rows, p)[1..] == Filter(rows[1..], p);
      } else {
        assert Filter(rows, p) == Filter(rows[1..], p);
      }
    }
  }

  /** The index column of each row, in row order. */
  function Indices(rows: seq<Row>): (r: seq<Index>)
    ensures |r| == |rows|
    ensures forall i :: 0 <= i < |rows| ==> r[i] == rows[i].index
  {
    seq(|rows|, i requires 0 <= i < |rows| => rows[i].index)
  }

  /** The distinct index triples occurring in `rows`. */
  function IndexSet(rows: seq<Row>): set<Index> {
    set i | 0 <= i < |rows| :: rows[i].index
  }

  /** The cells of column `j`, in row order. */
  function ColumnOf(rows: seq<Row>, j: nat): (r: seq<Value>)
    requires forall i :: 0 <= i < |rows| ==> j < |rows[i].cells|
    ensures |r| == |rows|
    ensures forall i :: 0 <= i < |rows| ==> r[i] == rows[i].cells[j]
  {
    seq(|rows|, i requires 0 <= i < |rows| => rows[i].cells[j])
  }

  /** The rows whose index triple is `key`, in their original order. */
  function Group(rows: seq<Row>, key: Index): seq<Row> {
    Filter(rows, IndexEquals(key))
  }

  /** A group holds as many rows as `key` occurs in the index column. */
  lemma {:induction false} GroupSizeIsMultiplicity(rows: seq<Row>, key: Index)
    ensures |Group(rows, key)| == multiset(Indices(rows))[key]
  {
    if rows != [] {
      GroupSizeIsMultiplicity(rows[1..], key);
      assert Indices(rows) == [rows[0].index] + Indices(rows[1..]);
    }
  }

  /** An occurring index triple has a non-empty group. */
  lemma {:induction false} GroupOfOccurringIndex(rows: seq<Row>, key: Index)
    requires key in IndexSet(rows)
    ensures |Group(rows, key)| > 0
  {
    var i :| 0 <= i < |rows| && rows[i].index == key;
    FilterMultiplicity(rows, IndexEquals(key), rows[i]);
    assert rows[i] in multiset(Group(rows, key));
  }

  predicate Distinct(keys: seq<Index>) {
    forall a, b :: 0 <= a < b < |keys| ==> keys[a] != keys[b]
  }

  /** `order` lists every distinct index triple of `rows` exactly once: the
      store returns groups in an order it does not promise, and this is any
      such order. */
  predicate IsGroupOrder(order: seq<Index>, rows: seq<Row>) {
    Distinct(order) && (set k | k in order) == IndexSet(rows)
  }

  /** The groups of `order`, concatenated. */
  function Regroup(rows: seq<Row>, order: seq<Index>): seq<Row> {
    if order == [] then [] else Group(rows, order[0]) + Regroup(rows, order[1..])
  }

  lemma {:induction false} SplitOffKey(rows: seq<Row>, key: Index, keys: set<Index>)
    requires key !in keys
    ensures multiset(Filter(rows, IndexIn(keys + {key})))
         == multiset(Group(rows, key)) + multiset(Filter(rows, IndexIn(keys)))
  {
    if rows != [] {
      SplitOffKey(rows[1..], key, keys);
    }
  }

  lemma {:induction false} RegroupIsFilter(rows: seq<Row>, order: seq<Index>)
    requires Distinct(order)
    ensures multiset(Regroup(rows, order)) == multiset(Filter(rows, IndexIn(set k | k in order)))
  {
    if order == [] {
      FilterNone(rows);
    } else {
      var rest := set k | k in order[1..];
      assert Distinct(order[1..]);
      RegroupIsFilter(rows, order[1..]);
      assert order[0] !in rest;
      assert (set k | k in order) == rest + {order[0]} by {
        assert order == [order[0]] + order[1..];
      }
      SplitOffKey(rows, order[0], rest);
    }
  }

  lemma {:induction false} FilterNone(rows: seq<Row>)
    ensures Filter(rows, IndexIn({})) == []
  {
    if rows != [] {
      FilterNone(rows[1..]);
    }
  }

  /** The groups of a group order partition the rows: every row lands in
      exactly one group, so together they are a permutation of the input. */
  lemma GroupsPartitionRows(rows: seq<Row>, order: seq<Index>)
    requires IsGroupOrder(order, rows)
    ensures multiset(Regroup(rows, order)) == multiset(rows)
    ensures |Regroup(rows, order)| == |rows|
  {
    RegroupIsFilter(rows, order);
    var all := set k | k in order;
    assert forall i :: 0 <= i < |rows| ==> IndexIn(all).Holds(rows[i]) by {
      forall i | 0 <= i < |rows| ensures rows[i].index in all {
        assert rows[i].index in IndexSet(rows);
      }
    }
    FilterAll(rows, IndexIn(all));
    assert |multiset(Regroup(rows, order))| == |multiset(rows)|;
  }
}
