// The axis selector store of src/lib/stores/axisSelector.svelte.js: the
// custom chart's X and Y axis choices, the systems it plots and a loading
// flag, with the chart data, title and log-scale choices derived from them.

module AxisSelector {
  import opened Wrappers
  import opened Seqs
  import opened Sorting

  /** An axis choice: its id, its display label and the data field it reads. */
  datatype AxisOption = AxisOption(id: string, caption: string, field: string)

  const AxisOptions: seq<AxisOption> := [
    AxisOption("concurrent-users", "# Concurrent Users", "concurrentUsers"),
    AxisOption("ttft", "TTFT (ms)", "ttft"),
    AxisOption("system-throughput", "System Throughput (tok/s)", "systemThroughput"),
    AxisOption("interactivity", "Interactivity (tok/s/user)", "interactivity"),
    AxisOption("normalized-throughput", "Normalized Throughput", "normalizedThroughput")
  ]

  /** A data point's numeric fields; an absent key is undefined or null. */
  type DataPoint = map<string, real>

  /** A system; None is an undefined dataPoints. */
  datatype SystemEntry = SystemEntry(dataPoints: Option<seq<DataPoint>>)

  datatype ChartPoint = ChartPoint(x: real, y: real, original: DataPoint)

  /** The option with the id in a table of options (`axisOptions.find`). */
  function OptionFor(options: seq<AxisOption>, id: string): (r: Option<AxisOption>)
    ensures r.Some? <==> exists i :: 0 <= i < |options| && options[i].id == id
    ensures r.Some? ==> r.value in options && r.value.id == id
  {
    Find(options, (o: AxisOption) => o.id == id)
  }

  /** `point[field] ?? 0`. */
  function FieldOr0(p: DataPoint, field: string): real {
    if field in p then p[field] else 0.0
  }

  function Project(xField: string, yField: string): DataPoint -> ChartPoint {
    (p: DataPoint) => ChartPoint(FieldOr0(p, xField), FieldOr0(p, yField), p)
  }

  function NonZero(): ChartPoint -> bool {
    (c: ChartPoint) => c.x != 0.0 && c.y != 0.0
  }

  /** `(a, b) => a.x - b.x` as an order. */
  function ByX(): (ChartPoint, ChartPoint) -> bool {
    (a: ChartPoint, b: ChartPoint) => a.x <= b.x
  }

  /** The first system's points, when both axis options exist and it has any. */
  function PlottedPoints(xOption: Option<AxisOption>, yOption: Option<AxisOption>, systems: seq<SystemEntry>): Option<seq<DataPoint>> {
    if xOption.None? || yOption.None? || systems == [] then None
    else if systems[0].dataPoints.None? || systems[0].dataPoints.value == [] then None
    else systems[0].dataPoints
  }

  /** The projected points before sorting. */
  function Candidates(xField: string, yField: string, points: seq<DataPoint>): seq<ChartPoint> {
    Filter(Map(points, Project(xField, yField)), NonZero())
  }

  /** getChartData for the selected axis options and the systems. */
  function ChartData(xOption: Option<AxisOption>, yOption: Option<AxisOption>, systems: seq<SystemEntry>): (r: seq<ChartPoint>)
    ensures PlottedPoints(xOption, yOption, systems).None? ==> r == []
    ensures PlottedPoints(xOption, yOption, systems).Some? ==>
              var points := PlottedPoints(xOption, yOption, systems).value;
              && multiset(r) == multiset(Candidates(xOption.value.field, yOption.value.field, points))
              && |r| <= |points|
    ensures SortedBy(r, ByX())
    ensures forall c :: c in r ==> c.x != 0.0 && c.y != 0.0
  {
    match PlottedPoints(xOption, yOption, systems)
    case None => []
    case Some(points) =>
      var candidates := Candidates(xOption.value.field, yOption.value.field, points);
      SortedNonZero(candidates);
      SortBy(candidates, ByX())
  }

  /** The points sorted by x are drawn from the unsorted ones. */
  lemma SortedNonZero(candidates: seq<ChartPoint>)
    ensures TotalPreorder(ByX())
    ensures forall c :: c in SortBy(candidates, ByX()) ==> c in candidates
  {
    assert TotalPreorder(ByX());
    var r := SortBy(candidates, ByX());
    forall c | c in r ensures c in candidates {
      assert c in multiset(r);
    }
  }

  /**
   * Every chart point is the projection of a point of the first system, with
   * a missing field read as 0, and points with the same x keep their order.
   */
  lemma ChartDataFromFirstSystem(xOption: Option<AxisOption>, yOption: Option<AxisOption>, systems: seq<SystemEntry>, z: ChartPoint)
    requires PlottedPoints(xOption, yOption, systems).Some?
    ensures var points := PlottedPoints(xOption, yOption, systems).value;
            var xf := xOption.value.field;
            var yf := yOption.value.field;
            && (forall c :: c in ChartData(xOption, yOption, systems) ==>
                  exists p :: p in points && c == ChartPoint(FieldOr0(p, xf), FieldOr0(p, yf), p))
            && Ties(ChartData(xOption, yOption, systems), z, ByX()) == Ties(Candidates(xf, yf, points), z, ByX())
  {
    var points := PlottedPoints(xOption, yOption, systems).value;
    var xf := xOption.value.field;
    var yf := yOption.value.field;
    var projected := Map(points, Project(xf, yf));
    var candidates := Candidates(xf, yf, points);
    var r := ChartData(xOption, yOption, systems);
    forall c | c in r
      ensures exists p :: p in points && c == ChartPoint(FieldOr0(p, xf), FieldOr0(p, yf), p)
    {
      assert c in multiset(candidates);
      assert c in candidates;
      FilterIsSubsequence(projected, NonZero());
      assert c in projected;
      var i :| 0 <= i < |projected| && projected[i] == c;
      assert points[i] in points;
    }
    assert TotalPreorder(ByX());
    SortByStable(candidates, z, ByX());
  }

  /** getChartTitle: `<Y label> vs <X label>`, or `Custom Chart` for a missing option. */
  function ChartTitle(xOption: Option<AxisOption>, yOption: Option<AxisOption>): (r: string)
    ensures xOption.None? || yOption.None? ==> r == "Custom Chart"
    ensures xOption.Some? && yOption.Some? ==> r == yOption.value.caption + " vs " + xOption.value.caption
  {
    match (xOption, yOption)
    case (Some(x), Some(y)) => y.caption + " vs " + x.caption
    case _ => "Custom Chart"
  }

  /** The option of an id listed at index k of the table. */
  lemma OptionAt(options: seq<AxisOption>, id: string, k: nat)
    requires k < |options| && options[k].id == id
    requires forall j :: 0 <= j < k ==> options[j].id != id
    ensures OptionFor(options, id) == Some(options[k])
  {
    var p := (o: AxisOption) => o.id == id;
    assert FindIndex(options, p) == k;
  }

  /** The title of the initial axes. */
  lemma InitialTitle(options: seq<AxisOption>)
    requires options == AxisOptions
    ensures ChartTitle(OptionFor(options, "concurrent-users"), OptionFor(options, "ttft")) == "TTFT (ms)" + " vs " + "# Concurrent Users"
  {
    OptionAt(options, "concurrent-users", 0);
    assert options[0].id != "ttft";
    OptionAt(options, "ttft", 1);
  }

  /** useLogScaleX. */
  predicate UseLogScaleX(xAxis: string) {
    xAxis == "concurrent-users"
  }

  /** useLogScaleY. */
  predicate UseLogScaleY(yAxis: string) {
    yAxis == "system-throughput" || yAxis == "normalized-throughput"
  }

  /** Log scales are chosen only for known axes: users on X, throughputs on Y. */
  lemma LogScaleAxesAreKnown(options: seq<AxisOption>, xAxis: string, yAxis: string)
    requires options == AxisOptions
    ensures UseLogScaleX(xAxis) ==> OptionFor(options, xAxis).Some? && OptionFor(options, xAxis).value.field == "concurrentUsers"
    ensures UseLogScaleY(yAxis) ==>
              OptionFor(options, yAxis).Some? && OptionFor(options, yAxis).value.field in {"systemThroughput", "normalizedThroughput"}
  {
    if UseLogScaleX(xAxis) {
      OptionAt(options, xAxis, 0);
    }
    if yAxis == "system-throughput" {
      OptionAt(options, yAxis, 2);
    } else if yAxis == "normalized-throughput" {
      OptionAt(options, yAxis, 4);
    }
  }

  class AxisStore {
    var selectedXAxis: string
    var selectedYAxis: string
    var systemsData: seq<SystemEntry>
    var loading: bool

    constructor()
      ensures selectedXAxis == "concurrent-users" && selectedYAxis == "ttft"
      ensures systemsData == [] && loading
    {
      selectedXAxis := "concurrent-users";
      selectedYAxis := "ttft";
      systemsData := [];
      loading := true;
    }

    method SetSelectedXAxis(axis: string)
      modifies this
      ensures selectedXAxis == axis
      ensures selectedYAxis == old(selectedYAxis) && systemsData == old(systemsData) && loading == old(loading)
    {
      selectedXAxis := axis;
    }

    method SetSelectedYAxis(axis: string)
      modifies this
      ensures selectedYAxis == axis
      ensures selectedXAxis == old(selectedXAxis) && systemsData == old(systemsData) && loading == old(loading)
    {
      selectedYAxis := axis;
    }

    method SetSystemsData(data: seq<SystemEntry>)
      modifies this
      ensures systemsData == data
      ensures selectedXAxis == old(selectedXAxis) && selectedYAxis == old(selectedYAxis) && loading == old(loading)
    {
      systemsData := data;
    }

    method SetLoading(isLoading: bool)
      modifies this
      ensures loading == isLoading
      ensures selectedXAxis == old(selectedXAxis) && selectedYAxis == old(selectedYAxis) && systemsData == old(systemsData)
    {
      loading := isLoading;
    }

    /** getChartData. */
    function GetChartData(): (r: seq<ChartPoint>)
      reads this
      ensures r == ChartData(OptionFor(AxisOptions, selectedXAxis), OptionFor(AxisOptions, selectedYAxis), systemsData)
      ensures (forall i :: 0 <= i < |AxisOptions| ==> AxisOptions[i].id != selectedXAxis) ==> r == []
      ensures (forall i :: 0 <= i < |AxisOptions| ==> AxisOptions[i].id != selectedYAxis) ==> r == []
      ensures systemsData == [] ==> r == []
      ensures SortedBy(r, ByX())
      ensures forall c :: c in r ==> c.x != 0.0 && c.y != 0.0
    {
      ChartData(OptionFor(AxisOptions, selectedXAxis), OptionFor(AxisOptions, selectedYAxis), systemsData)
    }

    /** getChartTitle. */
    function GetChartTitle(): (r: string)
      reads this
      ensures (forall i :: 0 <= i < |AxisOptions| ==> AxisOptions[i].id != selectedXAxis) ==> r == "Custom Chart"
      ensures (forall i :: 0 <= i < |AxisOptions| ==> AxisOptions[i].id != selectedYAxis) ==> r == "Custom Chart"
      ensures forall x, y :: 0 <= x < |AxisOptions| && 0 <= y < |AxisOptions| && AxisOptions[x].id == selectedXAxis
                && AxisOptions[y].id == selectedYAxis
                && (forall j :: 0 <= j < x ==> AxisOptions[j].id != selectedXAxis)
                && (forall j :: 0 <= j < y ==> AxisOptions[j].id != selectedYAxis)
                ==> r == AxisOptions[y].caption + " vs " + AxisOptions[x].caption
    {
      forall x, y | 0 <= x < |AxisOptions| && 0 <= y < |AxisOptions| && AxisOptions[x].id == selectedXAxis
                    && AxisOptions[y].id == selectedYAxis
                    && (forall j :: 0 <= j < x ==> AxisOptions[j].id != selectedXAxis)
                    && (forall j :: 0 <= j < y ==> AxisOptions[j].id != selectedYAxis)
        ensures ChartTitle(OptionFor(AxisOptions, selectedXAxis), OptionFor(AxisOptions, selectedYAxis))
                == AxisOptions[y].caption + " vs " + AxisOptions[x].caption
      {
        OptionAt(AxisOptions, selectedXAxis, x);
        OptionAt(AxisOptions, selectedYAxis, y);
      }
      ChartTitle(OptionFor(AxisOptions, selectedXAxis), OptionFor(AxisOptions, selectedYAxis))
    }
  }
}
