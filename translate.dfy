/** evoxel-transform's translate: a shift of every cell index by a fixed
    integer vector. The table is copied into a buffer whose index columns are
    then shifted one axis at a time, in place. */
module EvoxelTranslate {
  import opened DataFrame
  import opened EvoxelCore

  /** The rows with `delta` added to their index on `axis`. */
  function ShiftedAxis(rows: seq<Row>, axis: Axis, delta: int): (r: seq<Row>)
    ensures |r| == |rows|
  {
    seq(|rows|, i requires 0 <= i < |rows| => Row(rows[i].index.Shift(axis, delta), rows[i].cells))
  }

  /** The rows with `d` added to their index triple. */
  function Translated(rows: seq<Row>, d: Index): (r: seq<Row>)
    ensures |r| == |rows|
  {
    seq(|rows|, i requires 0 <= i < |rows| => Row(rows[i].index.Plus(d), rows[i].cells))
  }

  /** Every row's index, shifted by `d`, is still a 64-bit triple: the
      store's column addition does not overflow. */
  predicate TranslationFits(rows: seq<Row>, d: Index) {
    forall i :: 0 <= i < |rows| ==> rows[i].index.Plus(d).InI64Range()
  }

  /** Adds `delta` to the `axis` column of the buffer, row by row. */
  method ShiftColumn(a: array<Row>, axis: Axis, delta: int)
    requires forall i :: 0 <= i < a.Length ==> InI64(a[i].index.Get(axis) + delta)
    modifies a
    ensures a[..] == ShiftedAxis(old(a[..]), axis, delta)
  {
    ghost var before := a[..];
    var i := 0;
    while i < a.Length
      invariant 0 <= i <= a.Length
      invariant a[..i] == ShiftedAxis(before, axis, delta)[..i]
      invariant a[i..] == before[i..]
    {
      assert a[i] == before[i];
      a[i] := Row(a[i].index.Shift(axis, delta), a[i].cells);
      assert a[..i + 1] == ShiftedAxis(before, axis, delta)[..i + 1];
      i := i + 1;
    }
    assert a[..] == a[..a.Length];
  }

  /** Shifting the three axes one after the other is the translation. */
  lemma ShiftsCompose(rows: seq<Row>, d: Index)
    ensures ShiftedAxis(ShiftedAxis(ShiftedAxis(rows, X, d.x), Y, d.y), Z, d.z) == Translated(rows, d)
  {
    var byZ := ShiftedAxis(ShiftedAxis(ShiftedAxis(rows, X, d.x), Y, d.y), Z, d.z);
    forall i | 0 <= i < |rows| ensures byZ[i] == Translated(rows, d)[i] {
      var p := rows[i].index;
      assert byZ[i].index == p.Shift(X, d.x).Shift(Y, d.y).Shift(Z, d.z);
      assert byZ[i].index.Get(X) == p.x + d.x && byZ[i].index.Get(Y) == p.y + d.y && byZ[i].index.Get(Z) == p.z + d.z;
    }
  }

  /** Copies the rows into a buffer, shifts its `x`, `y` and `z` columns in
      turn, and returns the result. */
  method TranslateRows(rows: seq<Row>, d: Index) returns (out: seq<Row>)
    requires d.InI64Range()
    requires TranslationFits(rows, d)
    ensures out == Translated(rows, d)
  {
    var a := new Row[|rows|](i requires 0 <= i < |rows| => rows[i]);
    assert a[..] == rows;
    ShiftColumn(a, X, d.x);
    ShiftColumn(a, Y, d.y);
    ShiftColumn(a, Z, d.z);
    ShiftsCompose(rows, d);
    out := a[..];
  }

  /** Translation moves every index by `d` and leaves every other cell as it
      was. */
  lemma TranslatedRows(rows: seq<Row>, d: Index, i: nat)
    requires i < |rows|
    ensures Translated(rows, d)[i].index == Index(rows[i].index.x + d.x, rows[i].index.y + d.y, rows[i].index.z + d.z)
    ensures Translated(rows, d)[i].cells == rows[i].cells
  {
  }

  /** Translating by `d` and then by `-d` restores the rows. */
  lemma TranslateRoundTrip(rows: seq<Row>, d: Index)
    ensures Translated(Translated(rows, d), d.Negated()) == rows
  {
    var back := Translated(Translated(rows, d), d.Negated());
    forall i | 0 <= i < |rows| ensures back[i] == rows[i] {
      assert back[i].index == rows[i].index.Plus(d).Plus(d.Negated());
    }
  }

  /** Translating by zero is the identity. */
  lemma TranslateByZero(rows: seq<Row>)
    ensures Translated(rows, Index(0, 0, 0)) == rows
  {
    var same := Translated(rows, Index(0, 0, 0));
    forall i | 0 <= i < |rows| ensures same[i] == rows[i] {
    }
  }

  /** Two translations are one translation by the sum. */
  lemma TranslateCompose(rows: seq<Row>, a: Index, b: Index)
    ensures Translated(Translated(rows, a), b) == Translated(rows, a.Plus(b))
  {
    var twice := Translated(Translated(rows, a), b);
    forall i | 0 <= i < |rows| ensures twice[i] == Translated(rows, a.Plus(b))[i] {
    }
  }

  /** A translation that fits keeps the table well formed. */
  lemma TranslatePreservesIntegrity(t: Table, d: Index)
    requires t.WellFormed() && TranslationFits(t.rows, d)
    ensures Table(t.columns, Translated(t.rows, d)).WellFormed()
  {
    var moved := Translated(t.rows, d);
    forall i | 0 <= i < |moved| ensures RowConforms(moved[i], t.columns) {
      assert RowConforms(t.rows[i], t.columns);
    }
  }

  /** The extremes of a non-empty translated axis are the old ones moved by
      the translation on that axis. */
  lemma TranslatedExtremes(rows: seq<Row>, d: Index, axis: Axis)
    requires |rows| > 0
    ensures MinOf(AxisValues(Translated(rows, d), axis)) == MinOf(AxisValues(rows, axis)) + d.Get(axis)
    ensures MaxOf(AxisValues(Translated(rows, d), axis)) == MaxOf(AxisValues(rows, axis)) + d.Get(axis)
  {
    var before := AxisValues(rows, axis);
    var after := AxisValues(Translated(rows, d), axis);
    assert forall i :: 0 <= i < |rows| ==> after[i] == before[i] + d.Get(axis) by {
      forall i | 0 <= i < |rows| ensures after[i] == before[i] + d.Get(axis) {
        assert Translated(rows, d)[i].index == rows[i].index.Plus(d);
      }
    }
    var lo :| 0 <= lo < |before| && before[lo] == MinOf(before);
    var hi :| 0 <= hi < |before| && before[hi] == MaxOf(before);
    assert after[lo] == MinOf(before) + d.Get(axis);
    assert after[hi] == MaxOf(before) + d.Get(axis);
    MinOfUnique(after, MinOf(before) + d.Get(axis));
    MaxOfUnique(after, MaxOf(before) + d.Get(axis));
  }

  /** Shifts the grid by `translation` and wraps the result in a fresh grid
      with the same info and reference frames. */
  method Translate(g: VoxelGrid, translation: Index) returns (r: VoxelGrid)
    requires g.Valid()
    requires translation.InI64Range()
    requires TranslationFits(g.voxelData.rows, translation)
    ensures fresh(r) && r.Valid()
    ensures r.voxelData == Table(g.voxelData.columns, Translated(g.voxelData.rows, translation))
    ensures r.info == g.info && r.referenceFrames == g.referenceFrames
  {
    var rows := TranslateRows(g.voxelData.rows, translation);
    var translatedData := Table(g.voxelData.columns, rows);
    TranslatePreservesIntegrity(g.voxelData, translation);
    var grid := VoxelGrid.FromDataFrame(translatedData, g.info, g.referenceFrames);
    assert grid.Success?;
    r := grid.value;
  }
}
