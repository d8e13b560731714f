// The chart data preparation of
// src/routes/pareto-charts/_components/dataTransform.js: systems are joined
// with their Pareto curve (the last one listed for the system) and that
// curve's data points, and each chart takes an (x, y) projection of them.

module DataTransform {
  import opened Wrappers
  import opened Seqs
  import opened Sorting
  import opened JsMath

  datatype SystemRow = SystemRow(
    id: string,
    systemName: string,
    submitter: string,
    chips: real,
    normalizingFactor: real,
    accelerator: string,
    division: string,
    status: string)

  datatype CurveRow = CurveRow(id: string, systemId: string)

  /** The concurrent-user range of a measured point. */
  datatype UsersRange = UsersRange(min: real, max: real)

  datatype RawPoint = RawPoint(
    paretoCurveId: string,
    concurrentUsers: UsersRange,
    ttft: real,
    interactivity: real,
    systemThroughput: real,
    normalizedThroughput: real)

  /** A data point with its concurrent-user range replaced by the range's minimum. */
  datatype DataPoint = DataPoint(
    paretoCurveId: string,
    concurrentUsers: real,
    ttft: real,
    interactivity: real,
    systemThroughput: real,
    normalizedThroughput: real)

  /** The raw document; a missing array is the empty list. */
  datatype RawData = RawData(systems: seq<SystemRow>, paretoCurves: seq<CurveRow>, dataPoints: seq<RawPoint>)

  datatype SystemData = SystemData(
    id: string,
    name: string,
    submitter: string,
    chips: real,
    normalizingFactor: real,
    accelerator: string,
    division: string,
    status: string,
    dataPoints: seq<DataPoint>)

  datatype ChartPoint = ChartPoint(x: real, y: real, original: DataPoint)

  const SystemPalette: seq<string> := [
    "#535869", "#BED3FB", "#F7CB84", "#F4B6A1", "#62826C", "#CCEBD4", "#4E6BA1",
    "#3D455A", "#A0B5DD", "#E8B460", "#D49681", "#44644E", "#B3CEBA", "#37548A"
  ]

  function Flatten(p: RawPoint): DataPoint {
    DataPoint(p.paretoCurveId, p.concurrentUsers.min, p.ttft, p.interactivity,
              p.systemThroughput, p.normalizedThroughput)
  }

  function ByUsers(): (DataPoint, DataPoint) -> bool {
    (a: DataPoint, b: DataPoint) => a.concurrentUsers <= b.concurrentUsers
  }

  function ByXAscending(): (ChartPoint, ChartPoint) -> bool {
    (a: ChartPoint, b: ChartPoint) => a.x <= b.x
  }

  function ByXDescending(): (ChartPoint, ChartPoint) -> bool {
    (a: ChartPoint, b: ChartPoint) => a.x >= b.x
  }

  function OnCurve(curveId: string): RawPoint -> bool {
    (p: RawPoint) => p.paretoCurveId == curveId
  }

  /** The curve of a system: the last curve listed with its id. */
  function CurveOf(curves: seq<CurveRow>, systemId: string): (r: Option<CurveRow>)
    ensures r.None? <==> forall j :: 0 <= j < |curves| ==> curves[j].systemId != systemId
    ensures r.Some? ==> exists i :: 0 <= i < |curves| && curves[i] == r.value && r.value.systemId == systemId
                                    && forall j :: i < j < |curves| ==> curves[j].systemId != systemId
  {
    var i := FindLastIndex(curves, (c: CurveRow) => c.systemId == systemId);
    if i == -1 then None else Some(curves[i])
  }

  /** The data points of one curve, flattened and sorted by concurrent users. */
  function PointsOf(points: seq<RawPoint>, curveId: string): seq<DataPoint> {
    SortBy(Map(Filter(points, OnCurve(curveId)), Flatten), ByUsers())
  }

  /** A system's entry, or None when it has no curve. */
  function Join(raw: RawData, s: SystemRow): Option<SystemData> {
    match CurveOf(raw.paretoCurves, s.id)
    case None => None
    case Some(curve) =>
      Some(SystemData(s.id, s.systemName, s.submitter, s.chips, s.normalizingFactor,
                      s.accelerator, s.division, s.status, PointsOf(raw.dataPoints, curve.id)))
  }

  function JoinOf(raw: RawData): SystemRow -> Option<SystemData> {
    s => Join(raw, s)
  }

  /** parseSystemData: the joined systems, dropping those without a curve. */
  function ParseSystemData(raw: RawData): (r: seq<SystemData>)
    ensures raw.systems == [] ==> r == []
    ensures |r| <= |raw.systems|
  {
    if |raw.systems| == 0 then []
    else MapPresent(raw.systems, JoinOf(raw))
  }

  /** The systems that have a curve, in order. */
  function KeptSystems(raw: RawData): (r: seq<SystemRow>)
    ensures forall s :: s in r <==> s in raw.systems && CurveOf(raw.paretoCurves, s.id).Some?
  {
    Filter(raw.systems, Defined(JoinOf(raw)))
  }

  /**
   * The entries are the systems that have a curve, in system order; each
   * keeps the system's fields and holds exactly that curve's points, with
   * concurrent users at the range's minimum, sorted by it.
   */
  lemma ParsedSystems(raw: RawData)
    requires raw.systems != []
    ensures var r := ParseSystemData(raw);
            var kept := KeptSystems(raw);
            && IsSubsequence(kept, raw.systems)
            && |r| == |kept|
            && forall i :: 0 <= i < |r| ==>
                 && r[i].id == kept[i].id && r[i].name == kept[i].systemName
                 && r[i].submitter == kept[i].submitter && r[i].chips == kept[i].chips
                 && r[i].normalizingFactor == kept[i].normalizingFactor
                 && r[i].accelerator == kept[i].accelerator && r[i].division == kept[i].division
                 && r[i].status == kept[i].status
                 && CurveOf(raw.paretoCurves, kept[i].id).Some?
                 && r[i].dataPoints == PointsOf(raw.dataPoints, CurveOf(raw.paretoCurves, kept[i].id).value.id)
  {
    FilterIsSubsequence(raw.systems, Defined(JoinOf(raw)));
  }

  /**
   * A curve's points are exactly the raw points that name the curve, with
   * concurrent users at the range's minimum, sorted ascending by it;
   * points with equal users keep their order.
   */
  lemma PointsOfCurve(points: seq<RawPoint>, curveId: string, z: DataPoint)
    ensures var r := PointsOf(points, curveId);
            var flat := Map(Filter(points, OnCurve(curveId)), Flatten);
            && multiset(r) == multiset(flat)
            && (forall p :: p in r ==> p.paretoCurveId == curveId)
            && SortedBy(r, ByUsers())
            && Ties(r, z, ByUsers()) == Ties(flat, z, ByUsers())
  {
    var flat := Map(Filter(points, OnCurve(curveId)), Flatten);
    var r := PointsOf(points, curveId);
    SortByStable(flat, z, ByUsers());
    var on := Filter(points, OnCurve(curveId));
    forall p | p in r ensures p.paretoCurveId == curveId {
      assert p in multiset(r);
      var j :| 0 <= j < |flat| && flat[j] == p;
      assert on[j] in on;
    }
  }

  /** prepareTTFTChartData: x is concurrent users, y is time to first token. */
  function PrepareTTFTChartData(s: SystemData): (r: seq<ChartPoint>)
    ensures |r| == |s.dataPoints|
    ensures forall i :: 0 <= i < |r| ==>
              r[i].original == s.dataPoints[i] && r[i].x == s.dataPoints[i].concurrentUsers
              && r[i].y == s.dataPoints[i].ttft
  {
    Map(s.dataPoints, (p: DataPoint) => ChartPoint(p.concurrentUsers, p.ttft, p))
  }

  /** prepareThroughputInteractivityData: x is interactivity, sorted descending. */
  function PrepareThroughputInteractivityData(s: SystemData): (r: seq<ChartPoint>)
    ensures |r| == |s.dataPoints|
    ensures multiset(r) == multiset(Map(s.dataPoints, (p: DataPoint) => ChartPoint(p.interactivity, p.systemThroughput, p)))
    ensures SortedBy(r, ByXDescending())
  {
    SortBy(Map(s.dataPoints, (p: DataPoint) => ChartPoint(p.interactivity, p.systemThroughput, p)), ByXDescending())
  }

  /** prepareNormalizedThroughputData: x is concurrent users, y is normalized throughput. */
  function PrepareNormalizedThroughputData(s: SystemData): (r: seq<ChartPoint>)
    ensures |r| == |s.dataPoints|
    ensures forall i :: 0 <= i < |r| ==>
              r[i].original == s.dataPoints[i] && r[i].x == s.dataPoints[i].concurrentUsers
              && r[i].y == s.dataPoints[i].normalizedThroughput
  {
    Map(s.dataPoints, (p: DataPoint) => ChartPoint(p.concurrentUsers, p.normalizedThroughput, p))
  }

  /** prepareNormalizedTTFTData: x is time to first token, sorted ascending. */
  function PrepareNormalizedTTFTData(s: SystemData): (r: seq<ChartPoint>)
    ensures |r| == |s.dataPoints|
    ensures multiset(r) == multiset(Map(s.dataPoints, (p: DataPoint) => ChartPoint(p.ttft, p.normalizedThroughput, p)))
    ensures SortedBy(r, ByXAscending())
  {
    SortBy(Map(s.dataPoints, (p: DataPoint) => ChartPoint(p.ttft, p.normalizedThroughput, p)), ByXAscending())
  }

  /** Both sorted projections are stable: points with equal x keep their input order. */
  lemma SortedProjectionsStable(s: SystemData, z: ChartPoint)
    ensures Ties(PrepareThroughputInteractivityData(s), z, ByXDescending())
            == Ties(Map(s.dataPoints, (p: DataPoint) => ChartPoint(p.interactivity, p.systemThroughput, p)), z, ByXDescending())
    ensures Ties(PrepareNormalizedTTFTData(s), z, ByXAscending())
            == Ties(Map(s.dataPoints, (p: DataPoint) => ChartPoint(p.ttft, p.normalizedThroughput, p)), z, ByXAscending())
  {
    assert TotalPreorder(ByXDescending());
    assert TotalPreorder(ByXAscending());
    SortByStable(Map(s.dataPoints, (p: DataPoint) => ChartPoint(p.interactivity, p.systemThroughput, p)), z, ByXDescending());
    SortByStable(Map(s.dataPoints, (p: DataPoint) => ChartPoint(p.ttft, p.normalizedThroughput, p)), z, ByXAscending());
  }

  /** Every point of the sorted projections is the projection of an input point. */
  lemma SortedProjectionsComeFromPoints(s: SystemData)
    ensures forall c :: c in PrepareThroughputInteractivityData(s) ==>
              c.original in s.dataPoints && c.x == c.original.interactivity && c.y == c.original.systemThroughput
    ensures forall c :: c in PrepareNormalizedTTFTData(s) ==>
              c.original in s.dataPoints && c.x == c.original.ttft && c.y == c.original.normalizedThroughput
  {
    var a := Map(s.dataPoints, (p: DataPoint) => ChartPoint(p.interactivity, p.systemThroughput, p));
    var b := Map(s.dataPoints, (p: DataPoint) => ChartPoint(p.ttft, p.normalizedThroughput, p));
    forall c | c in PrepareThroughputInteractivityData(s)
      ensures c.original in s.dataPoints && c.x == c.original.interactivity && c.y == c.original.systemThroughput
    {
      assert c in multiset(PrepareThroughputInteractivityData(s));
      assert c in a;
    }
    forall c | c in PrepareNormalizedTTFTData(s)
      ensures c.original in s.dataPoints && c.x == c.original.ttft && c.y == c.original.normalizedThroughput
    {
      assert c in multiset(PrepareNormalizedTTFTData(s));
      assert c in b;
    }
  }

  /**
   * getSystemColor: `colors[index % 14]`. A negative index leaves a negative
   * remainder unless it is a multiple of 14, and reading the list there gives
   * undefined (None).
   */
  function GetSystemColor(index: int): (c: Option<string>)
    ensures c.Some? <==> index >= 0 || index % 14 == 0
    ensures c.Some? ==> c.value in SystemPalette
    ensures index >= 0 ==> c == Some(SystemPalette[index % 14])
  {
    var k := JsRem(index, |SystemPalette|);
    if k >= 0 then Some(SystemPalette[k]) else None
  }

  /** The colours repeat every 14 systems. */
  lemma SystemColorPeriodic(index: nat)
    ensures GetSystemColor(index + 14) == GetSystemColor(index) && GetSystemColor(index).Some?
  {
    assert (index + 14) % 14 == index % 14;
  }
}
