// The Pareto chart data of src/lib/data/paretoData.js: the document's
// hardware configurations become series holding their points, annotations
// are grouped by view mode, and view modes name the field each chart plots.
// The module-level state that the page reads is the class ParetoState.

module ParetoData {
  import opened Wrappers
  import opened Seqs
  import opened Sorting
  import opened Strs

  /** A hardware configuration; legendLabel is its `label` field. */
  datatype HardwareConfig = HardwareConfig(
    id: string,
    legendLabel: string,
    hardwareConfig: string,
    vendorId: string,
    color: string,
    maxThroughput: real,
    minConcurrency: real,
    maxConcurrency: real)

  datatype RawPoint = RawPoint(
    hardwareConfigId: string,
    concurrentClients: real,
    totalThroughput: real,
    tokensPerSecondPerUser: real,
    utilization: real,
    isCompliancePoint: Option<bool>)

  datatype Vendor = Vendor(id: string, name: Option<string>)

  datatype Offset = Offset(dx: real, dy: real)

  datatype Target = Target(x: real, y: real)

  datatype RawAnnotation = RawAnnotation(
    id: string, viewMode: string, text: string, targetPoint: Target, labelOffset: Offset, anchor: string)

  datatype Annotation = Annotation(id: string, text: string, targetPoint: Target, labelOffset: Offset, anchor: string)

  datatype ViewMode = ViewMode(yField: string, yLabel: string, stepDirection: string, description: string)

  /** The document; a missing array is the empty list, missing view modes the empty map. */
  datatype ParetoDoc = ParetoDoc(
    configs: seq<HardwareConfig>,
    points: seq<RawPoint>,
    annotations: seq<RawAnnotation>,
    viewModes: map<string, ViewMode>,
    vendors: seq<Vendor>)

  datatype ParetoPoint = ParetoPoint(
    concurrentClients: real, totalTput: real, tpsUsr: real, util: real, isCompliancePoint: Option<bool>)

  datatype Series = Series(
    id: string,
    legendLabel: string,
    hardwareConfig: string,
    vendor: string,
    color: string,
    maxThroughput: real,
    minConcurrency: real,
    maxConcurrency: real,
    points: seq<ParetoPoint>)

  datatype Parsed = Parsed(series: seq<Series>, annotations: map<string, seq<Annotation>>, viewModes: map<string, ViewMode>)

  /** The value of a point field by name; None is undefined. */
  datatype FieldValue = Num(n: real) | Flag(b: bool)

  datatype ViewPoint = ViewPoint(x: real, y: Option<FieldValue>, isCompliancePoint: bool, original: ParetoPoint)

  datatype ViewSeries = ViewSeries(id: string, legendLabel: string, color: string, vendor: string, points: seq<ViewPoint>)

  datatype TradeoffPoint = TradeoffPoint(x: real, y: real, original: ParetoPoint)

  datatype TradeoffSeries = TradeoffSeries(id: string, legendLabel: string, color: string, vendor: string, points: seq<TradeoffPoint>)

  /** The view modes used until the document provides some. */
  const DefaultViewModes: map<string, ViewMode> := map[
    "throughput" := ViewMode("total_tput", "Total System Throughput (Tok/s)", "after",
                             "Total system throughput at each concurrency level"),
    "utilization" := ViewMode("util", "% Utilization of Max Throughput", "after",
                              "Percentage of maximum achievable throughput"),
    "interactivity" := ViewMode("tps_usr", "Interactivity (Tok/s/user)", "after",
                                "Per-user token throughput (user experience metric)")
  ]

  // ----- parseParetoData -----

  /** The vendor name shown for a configuration: the last vendor listed with the id, else the id upper-cased. */
  function VendorName(vendors: seq<Vendor>, vendorId: string): (r: string)
    ensures (forall j :: 0 <= j < |vendors| ==> vendors[j].id != vendorId) ==> r == ToUpper(vendorId)
    ensures r != ToUpper(vendorId) ==>
              exists i :: 0 <= i < |vendors| && vendors[i].id == vendorId && vendors[i].name == Some(r)
                          && forall j :: i < j < |vendors| ==> vendors[j].id != vendorId
    ensures forall i :: 0 <= i < |vendors| && vendors[i].id == vendorId
                        && (forall j :: i < j < |vendors| ==> vendors[j].id != vendorId)
                        ==> r == (if vendors[i].name.Some? && vendors[i].name.value != "" then vendors[i].name.value
                                  else ToUpper(vendorId))
  {
    var i := FindLastIndex(vendors, (v: Vendor) => v.id == vendorId);
    if i != -1 && vendors[i].name.Some? && vendors[i].name.value != "" then vendors[i].name.value
    else ToUpper(vendorId)
  }

  function ToParetoPoint(p: RawPoint): ParetoPoint {
    ParetoPoint(p.concurrentClients, p.totalThroughput, p.tokensPerSecondPerUser, p.utilization, p.isCompliancePoint)
  }

  function ForConfig(configId: string): RawPoint -> bool {
    (p: RawPoint) => p.hardwareConfigId == configId
  }

  function ByClients(): (ParetoPoint, ParetoPoint) -> bool {
    (a: ParetoPoint, b: ParetoPoint) => a.concurrentClients <= b.concurrentClients
  }

  /** The points of one configuration, renamed and sorted by concurrent clients. */
  function PointsFor(points: seq<RawPoint>, configId: string): seq<ParetoPoint> {
    SortBy(Map(Filter(points, ForConfig(configId)), ToParetoPoint), ByClients())
  }

  function ToSeries(doc: ParetoDoc, c: HardwareConfig): Series {
    Series(c.id, c.legendLabel, c.hardwareConfig, VendorName(doc.vendors, c.vendorId), c.color,
           c.maxThroughput, c.minConcurrency, c.maxConcurrency, PointsFor(doc.points, c.id))
  }

  function InMode(mode: string): RawAnnotation -> bool {
    (a: RawAnnotation) => a.viewMode == mode
  }

  function Strip(a: RawAnnotation): Annotation {
    Annotation(a.id, a.text, a.targetPoint, a.labelOffset, a.anchor)
  }

  function ModesOf(raw: seq<RawAnnotation>): set<string> {
    set a | a in raw :: a.viewMode
  }

  /** The annotations of each view mode that has any, in input order. */
  function GroupAnnotations(raw: seq<RawAnnotation>): map<string, seq<Annotation>> {
    map m | m in ModesOf(raw) :: Map(Filter(raw, InMode(m)), Strip)
  }

  /** The document's field names for the y value, renamed to the point fields. */
  function RenameYField(f: string): string {
    if f == "totalThroughput" then "total_tput"
    else if f == "utilization" then "util"
    else if f == "tokensPerSecondPerUser" then "tps_usr"
    else f
  }

  /** The view modes of the document, with the y field renamed and the rest kept. */
  function TransformViewModes(raw: map<string, ViewMode>): (r: map<string, ViewMode>)
    ensures r.Keys == raw.Keys
    ensures forall k :: k in raw ==>
              var f := raw[k].yField;
              && (f == "totalThroughput" ==> r[k].yField == "total_tput")
              && (f == "utilization" ==> r[k].yField == "util")
              && (f == "tokensPerSecondPerUser" ==> r[k].yField == "tps_usr")
              && (f != "totalThroughput" && f != "utilization" && f != "tokensPerSecondPerUser" ==> r[k].yField == f)
              && r[k].yLabel == raw[k].yLabel && r[k].stepDirection == raw[k].stepDirection
              && r[k].description == raw[k].description
  {
    map k | k in raw :: raw[k].(yField := RenameYField(raw[k].yField))
  }

  /**
   * parseParetoData; current is the module's view modes at the time of the
   * call, which it falls back to when the document has none.
   */
  function ParseParetoData(doc: ParetoDoc, current: map<string, ViewMode>): (r: Parsed)
    ensures |r.series| == |doc.configs|
    ensures forall i :: 0 <= i < |r.series| ==>
              var c := doc.configs[i];
              var s := r.series[i];
              && s.id == c.id && s.legendLabel == c.legendLabel && s.hardwareConfig == c.hardwareConfig && s.color == c.color
              && s.maxThroughput == c.maxThroughput && s.minConcurrency == c.minConcurrency
              && s.maxConcurrency == c.maxConcurrency
              && s.vendor == VendorName(doc.vendors, c.vendorId)
              && s.points == PointsFor(doc.points, c.id)
    ensures r.annotations == GroupAnnotations(doc.annotations)
    ensures doc.viewModes == map[] ==> r.viewModes == current
    ensures doc.viewModes != map[] ==> r.viewModes == TransformViewModes(doc.viewModes)
  {
    var transformed := TransformViewModes(doc.viewModes);
    assert doc.viewModes != map[] ==> exists k :: k in transformed;
    Parsed(Map(doc.configs, c => ToSeries(doc, c)),
           GroupAnnotations(doc.annotations),
           if |transformed| > 0 then transformed else current)
  }

  /**
   * A series' points are exactly the points of its configuration, renamed,
   * sorted ascending by concurrent clients; equal ones keep their order.
   */
  lemma SeriesPoints(points: seq<RawPoint>, configId: string, z: ParetoPoint)
    ensures var r := PointsFor(points, configId);
            var renamed := Map(Filter(points, ForConfig(configId)), ToParetoPoint);
            && multiset(r) == multiset(renamed)
            && |r| == |Filter(points, ForConfig(configId))|
            && SortedBy(r, ByClients())
            && Ties(r, z, ByClients()) == Ties(renamed, z, ByClients())
  {
    SortByStable(Map(Filter(points, ForConfig(configId)), ToParetoPoint), z, ByClients());
  }

  /**
   * Each view mode's annotations are that mode's raw annotations in input
   * order, and every raw annotation appears under its own mode.
   */
  lemma AnnotationsGrouped(raw: seq<RawAnnotation>)
    ensures forall m :: m in GroupAnnotations(raw) ==>
              && |GroupAnnotations(raw)[m]| >= 1
              && IsSubsequence(Filter(raw, InMode(m)), raw)
              && GroupAnnotations(raw)[m] == Map(Filter(raw, InMode(m)), Strip)
    ensures forall a :: a in raw ==> a.viewMode in GroupAnnotations(raw) && Strip(a) in GroupAnnotations(raw)[a.viewMode]
  {
    var g := GroupAnnotations(raw);
    forall m | m in g
      ensures |g[m]| >= 1 && IsSubsequence(Filter(raw, InMode(m)), raw)
    {
      FilterIsSubsequence(raw, InMode(m));
      var a :| a in raw && a.viewMode == m;
      assert a in Filter(raw, InMode(m));
    }
    forall a | a in raw
      ensures a.viewMode in g && Strip(a) in g[a.viewMode]
    {
      var f := Filter(raw, InMode(a.viewMode));
      assert a in f;
      var j :| 0 <= j < |f| && f[j] == a;
      assert g[a.viewMode][j] == Strip(a);
    }
  }

  // ----- views of the series -----

  /** `p[name]` for a point field. */
  function PointField(p: ParetoPoint, name: string): Option<FieldValue> {
    if name == "concurrent_clients" then Some(Num(p.concurrentClients))
    else if name == "total_tput" then Some(Num(p.totalTput))
    else if name == "tps_usr" then Some(Num(p.tpsUsr))
    else if name == "util" then Some(Num(p.util))
    else if name == "is_compliance_point" && p.isCompliancePoint.Some? then Some(Flag(p.isCompliancePoint.value))
    else None
  }

  function ViewOf(s: Series, yField: string): (r: ViewSeries)
    ensures |r.points| == |s.points|
  {
    ViewSeries(s.id, s.legendLabel, s.color, s.vendor,
               Map(s.points, (p: ParetoPoint) => ViewPoint(p.concurrentClients, PointField(p, yField),
                                                           p.isCompliancePoint.GetOr(false), p)))
  }

  /** getGlobalMaxThroughput: 0 for no series, else the largest max throughput. */
  function GetGlobalMaxThroughput(series: seq<Series>): (m: real)
    ensures series == [] ==> m == 0.0
    ensures forall i :: 0 <= i < |series| ==> series[i].maxThroughput <= m
    ensures series != [] ==> exists i :: 0 <= i < |series| && series[i].maxThroughput == m
    decreases |series|
  {
    if series == [] then 0.0
    else if |series| == 1 then series[0].maxThroughput
    else
      var rest := GetGlobalMaxThroughput(series[1..]);
      assert forall i :: 1 <= i < |series| ==> series[i] == series[1..][i - 1];
      if series[0].maxThroughput >= rest then series[0].maxThroughput else rest
  }

  function Rescaled(p: ParetoPoint, globalMax: real): ParetoPoint
    requires globalMax != 0.0
  {
    p.(util := p.totalTput / globalMax * 100.0)
  }

  /** normalizeToGlobalMax: utilisation recomputed against the largest max throughput. */
  function NormalizeToGlobalMax(series: seq<Series>): (r: seq<Series>)
    ensures GetGlobalMaxThroughput(series) == 0.0 ==> r == series
    ensures |r| == |series|
    ensures forall i :: 0 <= i < |r| ==>
              && r[i] == series[i].(points := r[i].points)
              && |r[i].points| == |series[i].points|
              && forall j :: 0 <= j < |r[i].points| ==>
                   && r[i].points[j] == series[i].points[j].(util := r[i].points[j].util)
                   && (GetGlobalMaxThroughput(series) != 0.0 ==>
                         r[i].points[j].util == series[i].points[j].totalTput / GetGlobalMaxThroughput(series) * 100.0)
  {
    var globalMax := GetGlobalMaxThroughput(series);
    if globalMax == 0.0 then series
    else Map(series, (s: Series) => s.(points := Map(s.points, (p: ParetoPoint) => Rescaled(p, globalMax))))
  }

  function ByXDescending(): (TradeoffPoint, TradeoffPoint) -> bool {
    (a: TradeoffPoint, b: TradeoffPoint) => a.x >= b.x
  }

  function TradeoffPoints(s: Series): seq<TradeoffPoint> {
    Map(s.points, (p: ParetoPoint) => TradeoffPoint(p.tpsUsr, p.totalTput, p))
  }

  /** generateTradeoffView: throughput against interactivity, interactivity descending. */
  function GenerateTradeoffView(series: seq<Series>): (r: seq<TradeoffSeries>)
    ensures |r| == |series|
    ensures forall i :: 0 <= i < |r| ==>
              && r[i].id == series[i].id && r[i].legendLabel == series[i].legendLabel
              && r[i].color == series[i].color && r[i].vendor == series[i].vendor
              && multiset(r[i].points) == multiset(TradeoffPoints(series[i]))
              && SortedBy(r[i].points, ByXDescending())
  {
    Map(series, (s: Series) => TradeoffSeries(s.id, s.legendLabel, s.color, s.vendor,
                                             SortBy(TradeoffPoints(s), ByXDescending())))
  }

  /** The trade-off sort is stable: points of equal interactivity keep their series order. */
  lemma TradeoffViewStable(series: seq<Series>, i: nat, z: TradeoffPoint)
    requires i < |series|
    ensures Ties(GenerateTradeoffView(series)[i].points, z, ByXDescending())
            == Ties(TradeoffPoints(series[i]), z, ByXDescending())
  {
    assert TotalPreorder(ByXDescending());
    SortByStable(TradeoffPoints(series[i]), z, ByXDescending());
  }

  /** Every trade-off point is (interactivity, throughput) of a point of its series. */
  lemma TradeoffPointsFromSeries(series: seq<Series>, i: nat)
    requires i < |series|
    ensures forall t :: t in GenerateTradeoffView(series)[i].points ==>
              t.original in series[i].points && t.x == t.original.tpsUsr && t.y == t.original.totalTput
  {
    var r := GenerateTradeoffView(series)[i].points;
    var m := TradeoffPoints(series[i]);
    forall t | t in r
      ensures t.original in series[i].points && t.x == t.original.tpsUsr && t.y == t.original.totalTput
    {
      assert t in multiset(r);
      assert t in m;
    }
  }

  /** The module-level state the charts read, set once the document is parsed. */
  class ParetoState {
    var series: seq<Series>
    var throughputAnnotations: seq<Annotation>
    var utilizationAnnotations: seq<Annotation>
    var interactivityAnnotations: seq<Annotation>
    var viewModes: map<string, ViewMode>

    constructor ()
      ensures series == [] && throughputAnnotations == [] && utilizationAnnotations == []
      ensures interactivityAnnotations == [] && viewModes == DefaultViewModes
    {
      series := [];
      throughputAnnotations := [];
      utilizationAnnotations := [];
      interactivityAnnotations := [];
      viewModes := DefaultViewModes;
    }

    /** initializeParetoData, given the parsed document. */
    method Initialize(result: Parsed)
      modifies this
      ensures series == result.series && viewModes == result.viewModes
      ensures throughputAnnotations == (if "throughput" in result.annotations then result.annotations["throughput"] else [])
      ensures utilizationAnnotations == (if "utilization" in result.annotations then result.annotations["utilization"] else [])
      ensures interactivityAnnotations == (if "interactivity" in result.annotations then result.annotations["interactivity"] else [])
    {
      series := result.series;
      throughputAnnotations := if "throughput" in result.annotations then result.annotations["throughput"] else [];
      utilizationAnnotations := if "utilization" in result.annotations then result.annotations["utilization"] else [];
      interactivityAnnotations := if "interactivity" in result.annotations then result.annotations["interactivity"] else [];
      viewModes := result.viewModes;
    }

    /** getAnnotationsForView: the annotations of one of the three views, else none. */
    function GetAnnotationsForView(viewMode: string): (r: seq<Annotation>)
      reads this
      ensures viewMode !in {"throughput", "utilization", "interactivity"} ==> r == []
      ensures viewMode == "throughput" ==> r == throughputAnnotations
      ensures viewMode == "utilization" ==> r == utilizationAnnotations
      ensures viewMode == "interactivity" ==> r == interactivityAnnotations
    {
      match viewMode
      case "throughput" => throughputAnnotations
      case "utilization" => utilizationAnnotations
      case "interactivity" => interactivityAnnotations
      case _ => []
    }

    /** transformForView; None where the source throws for an unknown view mode. */
    function TransformForView(s: seq<Series>, viewMode: string): (r: Option<seq<ViewSeries>>)
      reads this
      ensures r.None? <==> viewMode !in viewModes
      ensures r.Some? ==>
                && |r.value| == |s|
                && forall i :: 0 <= i < |s| ==>
                     var v := r.value[i];
                     && v.id == s[i].id && v.legendLabel == s[i].legendLabel && v.color == s[i].color && v.vendor == s[i].vendor
                     && |v.points| == |s[i].points|
                     && forall j :: 0 <= j < |v.points| ==>
                          && v.points[j].original == s[i].points[j]
                          && v.points[j].x == s[i].points[j].concurrentClients
                          && v.points[j].y == PointField(s[i].points[j], viewModes[viewMode].yField)
                          && (v.points[j].isCompliancePoint <==> s[i].points[j].isCompliancePoint == Some(true))
    {
      if viewMode !in viewModes then None
      else
        var yField := viewModes[viewMode].yField;
        Some(Map(s, (x: Series) => ViewOf(x, yField)))
    }
  }
}
