/** The voxel grid of evoxel-core: a table of voxel rows, the grid's
    metadata, and a handle to the graph of reference frames, with the index
    and center-point queries over it. */
module EvoxelCore {
  import opened Wrappers
  import opened DataFrame

  /** The well-known columns of the voxel table. */
  datatype VoxelDataColumnType = IndexColumn(axis: Axis) | Count {
    function AsStr(): (r: string)
      ensures IsIndexColumnName(r) <==> IndexColumn?
      ensures r == "count" <==> Count?
      ensures IndexColumn? ==> r == [match axis case X => 'x' case Y => 'y' case Z => 'z']
    {
      match this
      case IndexColumn(X) => "x"
      case IndexColumn(Y) => "y"
      case IndexColumn(Z) => "z"
      case Count => "count"
    }
  }

  /** Every well-known column has its own name, and the three index columns
      are exactly the names a further column may not take. */
  lemma ColumnNamesDistinct()
    ensures forall a: VoxelDataColumnType, b: VoxelDataColumnType :: a.AsStr() == b.AsStr() ==> a == b
    ensures forall a: VoxelDataColumnType :: IsIndexColumnName(a.AsStr()) <==> a.IndexColumn?
  {
  }

  type FrameId = string

  datatype VoxelGridInfo = VoxelGridInfo(resolution: real, frameId: FrameId)

  /** Opaque handle to a graph of named, time-varying reference frames. */
  datatype ReferenceFrames = ReferenceFrames(snapshot: nat)

  /** Opaque point in time. */
  datatype Timestamp = Timestamp(nanos: int)

  /** The frames a transform maps between: points of `child` into `parent`. */
  datatype TransformId = TransformId(parent: FrameId, child: FrameId)

  /** Opaque graph of transforms derived from the reference frames. */
  datatype TransformGraph = TransformGraph(snapshot: nat)

  datatype Point3 = Point3(x: real, y: real, z: real)

  /** A rigid transform: three rotation rows and a translation. */
  datatype Isometry = Isometry(r0: Point3, r1: Point3, r2: Point3, translation: Point3) {
    function Apply(p: Point3): Point3 {
      Point3(r0.x * p.x + r0.y * p.y + r0.z * p.z + translation.x,
             r1.x * p.x + r1.y * p.y + r1.z * p.z + translation.y,
             r2.x * p.x + r2.y * p.y + r2.z * p.z + translation.z)
    }
  }

  datatype EcoordError = EcoordError(reason: string)

  /** The reference-frame library, consulted but not modelled: deriving a
      transform graph (optionally for one frame and one point in time) and
      looking an isometry up in it may each fail. */
  datatype FrameResolver = FrameResolver(
    deriveTransformGraph: (ReferenceFrames, Option<FrameId>, Option<Timestamp>) -> Result<TransformGraph, EcoordError>,
    getIsometry: (TransformGraph, TransformId) -> Result<Isometry, EcoordError>)

  datatype Error =
    | DataIntegrity(reason: string)
    | Ecoord(ecoordError: EcoordError)

  /** The integrity check every construction runs: the table has the shape
      of a store table (index columns present as 64-bit integers, further
      columns typed and named apart) and the resolution is positive. */
  predicate HasIntegrity(voxelData: Table, info: VoxelGridInfo) {
    voxelData.WellFormed() && info.resolution > 0.0
  }

  /** The values of one index column, in row order. */
  function AxisValues(rows: seq<Row>, axis: Axis): (r: seq<int>)
    ensures |r| == |rows|
    ensures forall i :: 0 <= i < |rows| ==> r[i] == rows[i].index.Get(axis)
  {
    seq(|rows|, i requires 0 <= i < |rows| => rows[i].index.Get(axis))
  }

  /** The minimum of a non-empty column: a lower bound that occurs in it. */
  function MinOf(s: seq<int>): (m: int)
    requires |s| > 0
    ensures forall i :: 0 <= i < |s| ==> m <= s[i]
    ensures exists i :: 0 <= i < |s| && s[i] == m
  {
    if |s| == 1 then s[0]
    else
      var rest := MinOf(s[1..]);
      if s[0] <= rest then s[0] else rest
  }

  /** The maximum of a non-empty column: an upper bound that occurs in it. */
  function MaxOf(s: seq<int>): (m: int)
    requires |s| > 0
    ensures forall i :: 0 <= i < |s| ==> s[i] <= m
    ensures exists i :: 0 <= i < |s| && s[i] == m
  {
    if |s| == 1 then s[0]
    else
      var rest := MaxOf(s[1..]);
      if s[0] >= rest then s[0] else rest
  }

  /** A lower bound that occurs is the minimum. */
  lemma MinOfUnique(s: seq<int>, m: int)
    requires forall i :: 0 <= i < |s| ==> m <= s[i]
    requires exists i :: 0 <= i < |s| && s[i] == m
    ensures MinOf(s) == m
  {
  }

  /** An upper bound that occurs is the maximum. */
  lemma MaxOfUnique(s: seq<int>, m: int)
    requires forall i :: 0 <= i < |s| ==> s[i] <= m
    requires exists i :: 0 <= i < |s| && s[i] == m
    ensures MaxOf(s) == m
  {
  }

  /** An index scaled by the resolution: the local coordinates of the voxel's
      center. */
  function Scaled(index: Index, resolution: real): Point3 {
    Point3(resolution * index.x as real, resolution * index.y as real, resolution * index.z as real)
  }

  /** Scaling by a positive resolution keeps the componentwise order. */
  lemma ScaledMonotone(a: Index, b: Index, resolution: real)
    requires a.Le(b) && resolution > 0.0
    ensures Scaled(a, resolution).x <= Scaled(b, resolution).x
    ensures Scaled(a, resolution).y <= Scaled(b, resolution).y
    ensures Scaled(a, resolution).z <= Scaled(b, resolution).z
  {
    assert resolution * (b.x - a.x) as real >= 0.0;
    assert resolution * (b.y - a.y) as real >= 0.0;
    assert resolution * (b.z - a.z) as real >= 0.0;
  }

  /** A lower bound of every index scales to a lower bound of every center. */
  lemma ScaledLowerBound(rows: seq<Row>, m: Index, resolution: real)
    requires forall i :: 0 <= i < |rows| ==> m.Le(rows[i].index)
    ensures resolution > 0.0 ==> forall i :: 0 <= i < |rows| ==>
      Scaled(m, resolution).x <= Scaled(rows[i].index, resolution).x &&
      Scaled(m, resolution).y <= Scaled(rows[i].index, resolution).y &&
      Scaled(m, resolution).z <= Scaled(rows[i].index, resolution).z
  {
    if resolution > 0.0 {
      forall i | 0 <= i < |rows|
        ensures Scaled(m, resolution).x <= Scaled(rows[i].index, resolution).x
        ensures Scaled(m, resolution).y <= Scaled(rows[i].index, resolution).y
        ensures Scaled(m, resolution).z <= Scaled(rows[i].index, resolution).z
      {
        ScaledMonotone(m, rows[i].index, resolution);
      }
    }
  }

  /** An upper bound of every index scales to an upper bound of every center. */
  lemma ScaledUpperBound(rows: seq<Row>, m: Index, resolution: real)
    requires forall i :: 0 <= i < |rows| ==> rows[i].index.Le(m)
    ensures resolution > 0.0 ==> forall i :: 0 <= i < |rows| ==>
      Scaled(rows[i].index, resolution).x <= Scaled(m, resolution).x &&
      Scaled(rows[i].index, resolution).y <= Scaled(m, resolution).y &&
      Scaled(rows[i].index, resolution).z <= Scaled(m, resolution).z
  {
    if resolution > 0.0 {
      forall i | 0 <= i < |rows|
        ensures Scaled(rows[i].index, resolution).x <= Scaled(m, resolution).x
        ensures Scaled(rows[i].index, resolution).y <= Scaled(m, resolution).y
        ensures Scaled(rows[i].index, resolution).z <= Scaled(m, resolution).z
      {
        ScaledMonotone(rows[i].index, m, resolution);
      }
    }
  }

  class VoxelGrid {
    const voxelData: Table
    const info: VoxelGridInfo
    var referenceFrames: ReferenceFrames

    /** Assembles a grid from its three parts, unchecked. */
    constructor (voxelData: Table, info: VoxelGridInfo, referenceFrames: ReferenceFrames)
      ensures this.voxelData == voxelData && this.info == info
      ensures this.referenceFrames == referenceFrames
    {
      this.voxelData := voxelData;
      this.info := info;
      this.referenceFrames := referenceFrames;
    }

    /** The grid invariant: what the integrity check at construction accepts. */
    predicate Valid() {
      HasIntegrity(voxelData, info)
    }

    /** Runs the integrity check, then stores the three parts unchanged. */
    static method New(voxelData: Table, info: VoxelGridInfo, referenceFrames: ReferenceFrames)
      returns (r: Result<VoxelGrid, Error>)
      ensures r.Success? <==> HasIntegrity(voxelData, info)
      ensures r.Success? ==> fresh(r.value) && r.value.Valid()
      ensures r.Success? ==> r.value.voxelData == voxelData && r.value.info == info
      ensures r.Success? ==> r.value.referenceFrames == referenceFrames
      ensures r.Success? ==> r.value.Size() == |voxelData.rows|
      ensures r.Failure? ==> r.error.DataIntegrity?
    {
      if !HasIntegrity(voxelData, info) {
        return Failure(DataIntegrity("voxel data does not pass the integrity check"));
      }
      var grid := new VoxelGrid(voxelData, info, referenceFrames);
      r := Success(grid);
    }

    /** The same construction under its second name. */
    static method FromDataFrame(voxelData: Table, info: VoxelGridInfo, referenceFrames: ReferenceFrames)
      returns (r: Result<VoxelGrid, Error>)
      ensures r.Success? <==> HasIntegrity(voxelData, info)
      ensures r.Success? ==> fresh(r.value) && r.value.Valid()
      ensures r.Success? ==> r.value.voxelData == voxelData && r.value.info == info
      ensures r.Success? ==> r.value.referenceFrames == referenceFrames
      ensures r.Failure? ==> r.error.DataIntegrity?
    {
      r := New(voxelData, info, referenceFrames);
    }

    /** Swaps the frame-graph handle; the table and the info are constants of
        the grid and so stay as they were. */
    method SetReferenceFrames(referenceFrames: ReferenceFrames)
      modifies this
      ensures this.referenceFrames == referenceFrames
    {
      this.referenceFrames := referenceFrames;
    }

    /** The number of rows, the table's height. */
    function Size(): (r: nat)
      ensures r == |voxelData.rows|
    {
      voxelData.Height()
    }

    /** Componentwise minimum of the index columns; the store's `min` has no
        value on an empty column, and the source unwraps it. */
    function MinIndex(): (m: Index)
      requires Size() > 0
      ensures forall i :: 0 <= i < Size() ==> m.Le(voxelData.rows[i].index)
      ensures exists i :: 0 <= i < Size() && voxelData.rows[i].index.x == m.x
      ensures exists i :: 0 <= i < Size() && voxelData.rows[i].index.y == m.y
      ensures exists i :: 0 <= i < Size() && voxelData.rows[i].index.z == m.z
    {
      var rows := voxelData.rows;
      var mx := MinOf(AxisValues(rows, X));
      var my := MinOf(AxisValues(rows, Y));
      var mz := MinOf(AxisValues(rows, Z));
      Index(mx, my, mz)
    }

    /** Componentwise maximum of the index columns. */
    function MaxIndex(): (m: Index)
      requires Size() > 0
      ensures forall i :: 0 <= i < Size() ==> voxelData.rows[i].index.Le(m)
      ensures exists i :: 0 <= i < Size() && voxelData.rows[i].index.x == m.x
      ensures exists i :: 0 <= i < Size() && voxelData.rows[i].index.y == m.y
      ensures exists i :: 0 <= i < Size() && voxelData.rows[i].index.z == m.z
    {
      var rows := voxelData.rows;
      var mx := MaxOf(AxisValues(rows, X));
      var my := MaxOf(AxisValues(rows, Y));
      var mz := MaxOf(AxisValues(rows, Z));
      Index(mx, my, mz)
    }

    /** The local center point of the minimum index. */
    function MinLocalCenterPoint(): (p: Point3)
      requires Size() > 0
      ensures p == Scaled(MinIndex(), info.resolution)
      ensures info.resolution > 0.0 ==> forall i :: 0 <= i < Size() ==>
        p.x <= GetLocalCenterPoint(i).x && p.y <= GetLocalCenterPoint(i).y && p.z <= GetLocalCenterPoint(i).z
    {
      var m := MinIndex();
      ScaledLowerBound(voxelData.rows, m, info.resolution);
      Scaled(m, info.resolution)
    }

    /** The local center point of the maximum index. */
    function MaxLocalCenterPoint(): (p: Point3)
      requires Size() > 0
      ensures p == Scaled(MaxIndex(), info.resolution)
      ensures info.resolution > 0.0 ==> forall i :: 0 <= i < Size() ==>
        GetLocalCenterPoint(i).x <= p.x && GetLocalCenterPoint(i).y <= p.y && GetLocalCenterPoint(i).z <= p.z
    {
      var m := MaxIndex();
      ScaledUpperBound(voxelData.rows, m, info.resolution);
      Scaled(m, info.resolution)
    }

    /** The isometry from the local frame into `frameId`, from the graph the
        reference frames give for `timestamp` (`None`: the static graph). */
    function ResolveIsometry(frameId: FrameId, timestamp: Option<Timestamp>, resolver: FrameResolver)
      : (r: Result<Isometry, Error>)
      reads this
      ensures r.Success? <==>
        (resolver.deriveTransformGraph(referenceFrames, None, timestamp).Success? &&
         resolver.getIsometry(resolver.deriveTransformGraph(referenceFrames, None, timestamp).value,
                              TransformId(frameId, info.frameId)).Success?)
      ensures r.Success? ==> r.value == resolver.getIsometry(
        resolver.deriveTransformGraph(referenceFrames, None, timestamp).value,
        TransformId(frameId, info.frameId)).value
      ensures r.Failure? ==> r.error == Ecoord(
        var d := resolver.deriveTransformGraph(referenceFrames, None, timestamp);
        if d.Failure? then d.error
        else resolver.getIsometry(d.value, TransformId(frameId, info.frameId)).error)
    {
      match resolver.deriveTransformGraph(referenceFrames, None, timestamp)
      case Failure(e) => Failure(Ecoord(e))
      case Success(graph) =>
        match resolver.getIsometry(graph, TransformId(frameId, GetLocalFrameId()))
        case Failure(e) => Failure(Ecoord(e))
        case Success(isometry) => Success(isometry)
    }

    /** The minimum local center point, carried into `frameId` with the
        static transform graph. */
    function MinCenterPoint(frameId: FrameId, resolver: FrameResolver): (r: Result<Point3, Error>)
      reads this
      requires Size() > 0
      ensures r.Success? <==> ResolveIsometry(frameId, None, resolver).Success?
      ensures r.Success? ==> r.value == ResolveIsometry(frameId, None, resolver).value.Apply(MinLocalCenterPoint())
      ensures r.Failure? ==> r.error == ResolveIsometry(frameId, None, resolver).error
    {
      var minPoint := MinLocalCenterPoint();
      match ResolveIsometry(frameId, None, resolver)
      case Failure(e) => Failure(e)
      case Success(isometry) => Success(isometry.Apply(minPoint))
    }

    /** The maximum local center point, carried into `frameId` with the
        static transform graph. */
    function MaxCenterPoint(frameId: FrameId, resolver: FrameResolver): (r: Result<Point3, Error>)
      reads this
      requires Size() > 0
      ensures r.Success? <==> ResolveIsometry(frameId, None, resolver).Success?
      ensures r.Success? ==> r.value == ResolveIsometry(frameId, None, resolver).value.Apply(MaxLocalCenterPoint())
      ensures r.Failure? ==> r.error == ResolveIsometry(frameId, None, resolver).error
    {
      var maxPoint := MaxLocalCenterPoint();
      match ResolveIsometry(frameId, None, resolver)
      case Failure(e) => Failure(e)
      case Success(isometry) => Success(isometry.Apply(maxPoint))
    }

    /** Every row's index triple, read column by column, in row order. */
    function GetAllCellIndicesInLocalFrame(): (r: seq<Index>)
      ensures |r| == Size()
      ensures forall i :: 0 <= i < Size() ==> r[i] == GetCellIndex(i)
      ensures r == Indices(voxelData.rows)
    {
      var n := Size();
      var xs := AxisValues(voxelData.rows, X);
      var ys := AxisValues(voxelData.rows, Y);
      var zs := AxisValues(voxelData.rows, Z);
      seq(n, i requires 0 <= i < n => Index(xs[i], ys[i], zs[i]))
    }

    /** Every row's local center point, in row order. */
    function GetAllCenterPointsInLocalFrame(): (r: seq<Point3>)
      ensures |r| == Size()
      ensures forall i :: 0 <= i < Size() ==> r[i] == GetLocalCenterPoint(i)
    {
      var indices := GetAllCellIndicesInLocalFrame();
      seq(|indices|, i requires 0 <= i < |indices| => Scaled(indices[i], info.resolution))
    }

    /** The index triple of one row, read from the three index columns. */
    function GetCellIndex(rowIndex: nat): (r: Index)
      requires rowIndex < Size()
      ensures r == voxelData.rows[rowIndex].index
    {
      var rows := voxelData.rows;
      Index(AxisValues(rows, X)[rowIndex], AxisValues(rows, Y)[rowIndex], AxisValues(rows, Z)[rowIndex])
    }

    function GetLocalFrameId(): (r: FrameId)
      ensures r == info.frameId
    {
      info.frameId
    }

    /** The local coordinates of one row's voxel center. */
    function GetLocalCenterPoint(rowIndex: nat): (p: Point3)
      requires rowIndex < Size()
      ensures p.x == info.resolution * voxelData.rows[rowIndex].index.x as real
      ensures p.y == info.resolution * voxelData.rows[rowIndex].index.y as real
      ensures p.z == info.resolution * voxelData.rows[rowIndex].index.z as real
    {
      Scaled(GetCellIndex(rowIndex), info.resolution)
    }

    /** One row's center point in `frameId`, using the transform graph the
        reference frames give at `timestamp`. */
    function GetCenterPoint(rowIndex: nat, frameId: FrameId, timestamp: Timestamp, resolver: FrameResolver)
      : (r: Result<Point3, Error>)
      reads this
      requires rowIndex < Size()
      ensures r.Success? <==> ResolveIsometry(frameId, Some(timestamp), resolver).Success?
      ensures r.Success? ==>
        r.value == ResolveIsometry(frameId, Some(timestamp), resolver).value.Apply(GetLocalCenterPoint(rowIndex))
      ensures r.Failure? ==> r.error == ResolveIsometry(frameId, Some(timestamp), resolver).error
    {
      var localCenterPoint := GetLocalCenterPoint(rowIndex);
      match ResolveIsometry(frameId, Some(timestamp), resolver)
      case Failure(e) => Failure(e)
      case Success(isometry) => Success(isometry.Apply(localCenterPoint))
    }

    /** All center points in `frameId` at `timestamp`: all of them in row
        order when every row succeeds, otherwise the first failing row's
        error. */
    function GetAllCenterPoints(frameId: FrameId, timestamp: Timestamp, resolver: FrameResolver)
      : (r: Result<seq<Point3>, Error>)
      reads this
      ensures r.Success? <==>
        forall i :: 0 <= i < Size() ==> GetCenterPoint(i, frameId, timestamp, resolver).Success?
      ensures r.Success? ==> |r.value| == Size() && forall i :: 0 <= i < Size() ==>
        r.value[i] == GetCenterPoint(i, frameId, timestamp, resolver).value
      ensures r.Failure? ==>
        var j := FirstFailure(CenterPointResults(frameId, timestamp, resolver));
        j < Size() && GetCenterPoint(j, frameId, timestamp, resolver).Failure? &&
        r.error == GetCenterPoint(j, frameId, timestamp, resolver).error &&
        (forall i :: 0 <= i < j ==> GetCenterPoint(i, frameId, timestamp, resolver).Success?)
    {
      Collect(CenterPointResults(frameId, timestamp, resolver))
    }

    /** The per-row results `get_all_center_points` collects, in row order. */
    function CenterPointResults(frameId: FrameId, timestamp: Timestamp, resolver: FrameResolver)
      : (r: seq<Result<Point3, Error>>)
      reads this
      ensures |r| == Size()
      ensures forall i :: 0 <= i < Size() ==> r[i] == GetCenterPoint(i, frameId, timestamp, resolver)
    {
      seq(Size(), i reads this requires 0 <= i < Size() => GetCenterPoint(i, frameId, timestamp, resolver))
    }
  }

  /** Position of the first failed result, or the length when none failed. */
  function FirstFailure(results: seq<Result<Point3, Error>>): (j: nat)
    ensures j <= |results|
    ensures forall i :: 0 <= i < j ==> results[i].Success?
    ensures j < |results| ==> results[j].Failure?
  {
    if results == [] || results[0].Failure? then 0 else 1 + FirstFailure(results[1..])
  }

  /** Collecting results into one: every value in order when all succeeded,
      otherwise the error of the first failure. */
  function Collect(results: seq<Result<Point3, Error>>): (r: Result<seq<Point3>, Error>)
    ensures r.Success? <==> forall i :: 0 <= i < |results| ==> results[i].Success?
    ensures r.Success? ==>
      |r.value| == |results| && forall i :: 0 <= i < |results| ==> r.value[i] == results[i].value
    ensures r.Failure? ==>
      FirstFailure(results) < |results| && r.error == results[FirstFailure(results)].error
  {
    if results == [] then Success([])
    else if results[0].Failure? then Failure(results[0].error)
    else
      var rest := Collect(results[1..]);
      if rest.Failure? then Failure(rest.error)
      else Success([results[0].value] + rest.value)
  }

  /** Every row resolves the same transform, so the bulk query fails exactly
      when the grid has a row and that transform cannot be resolved, and then
      with its error. */
  lemma AllCenterPointsFailTogether(g: VoxelGrid, frameId: FrameId, timestamp: Timestamp, resolver: FrameResolver)
    ensures g.GetAllCenterPoints(frameId, timestamp, resolver).Failure? <==>
      g.Size() > 0 && g.ResolveIsometry(frameId, Some(timestamp), resolver).Failure?
    ensures g.GetAllCenterPoints(frameId, timestamp, resolver).Failure? ==>
      g.GetAllCenterPoints(frameId, timestamp, resolver).error == g.ResolveIsometry(frameId, Some(timestamp), resolver).error
  {
    var results := g.CenterPointResults(frameId, timestamp, resolver);
    if g.Size() > 0 && g.ResolveIsometry(frameId, Some(timestamp), resolver).Failure? {
      assert results[0].Failure?;
      assert FirstFailure(results) == 0;
    }
  }

  /** For a non-empty grid the minimum index lies below the maximum. */
  lemma MinIndexLeMaxIndex(g: VoxelGrid)
    requires g.Size() > 0
    ensures g.MinIndex().Le(g.MaxIndex())
  {
    var lo, hi := g.MinIndex(), g.MaxIndex();
    assert lo.Le(g.voxelData.rows[0].index) && g.voxelData.rows[0].index.Le(hi);
  }

  /** The grid of two voxels (0,0,0) and (5,5,5): its extreme indices. */
  lemma TwoVoxelIndices(g: VoxelGrid)
    requires g.voxelData.rows == [Row(Index(0, 0, 0), []), Row(Index(5, 5, 5), [])]
    ensures g.MinIndex() == Index(0, 0, 0) && g.MaxIndex() == Index(5, 5, 5)
  {
    var rows := g.voxelData.rows;
    TwoValueExtremes(AxisValues(rows, X));
    TwoValueExtremes(AxisValues(rows, Y));
    TwoValueExtremes(AxisValues(rows, Z));
  }

  lemma TwoValueExtremes(s: seq<int>)
    requires s == [0, 5]
    ensures MinOf(s) == 0 && MaxOf(s) == 5
  {
    assert s[0] == 0 && s[1] == 5;
    MinOfUnique(s, 0);
    MaxOfUnique(s, 5);
  }

  /** At resolution 1 the same grid has its local center points at the
      extreme indices. */
  lemma TwoVoxelExtremes(g: VoxelGrid)
    requires g.voxelData.rows == [Row(Index(0, 0, 0), []), Row(Index(5, 5, 5), [])]
    requires g.info.resolution == 1.0
    ensures g.MinLocalCenterPoint() == Point3(0.0, 0.0, 0.0)
    ensures g.MaxLocalCenterPoint() == Point3(5.0, 5.0, 5.0)
  {
    TwoVoxelIndices(g);
  }
}
