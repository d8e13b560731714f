// buildChartConfig of src/lib/utils/chartConfigUtils.js: the displayed
// Pareto curves become chart models whose points take x and y from two run
// fields and carry the run, its curve's system and its model as metadata.

module ChartConfig {
  import opened Wrappers
  import opened Seqs
  import opened EndpointsData

  /** A metadata value: a run field, or the curve's system or model object. */
  datatype MetaValue = Plain(field: Field) | SystemValue(system: Option<System>) | ModelValue(model: Option<Model>)

  datatype ChartPoint = ChartPoint(x: Option<Field>, y: Option<Field>, meta: map<string, MetaValue>)

  datatype ChartModel = ChartModel(id: string, name: string, color: string, points: seq<ChartPoint>)

  /** The options object; None is an option left undefined. */
  datatype ChartOptions = ChartOptions(
    title: string,
    subtitle: string,
    subline: Option<string>,
    xLabel: string,
    yLabel: string,
    xScale: Option<string>,
    yScale: Option<string>,
    xKey: string,
    yKey: string)

  /** The chart configuration; subline is None when the key is absent. */
  datatype Config = Config(
    title: string,
    subtitle: string,
    subline: Option<string>,
    xLabel: string,
    yLabel: string,
    xScale: string,
    yScale: string,
    models: seq<ChartModel>)

  /** `run[key]`; None is undefined. */
  function RunField(run: Run, key: string): Option<Field> {
    var fields := RunFields(run);
    if key in fields then Some(fields[key]) else None
  }

  /** `{ systemId, runId, system, model, ...run }`. */
  function Meta(curve: ParetoCurve, run: Run): map<string, MetaValue> {
    var fields := RunFields(run);
    map["systemId" := Plain(Text(curve.systemId)), "runId" := Plain(Text(run.runId)),
        "system" := SystemValue(curve.system), "model" := ModelValue(curve.model)]
    + map k | k in fields :: Plain(fields[k])
  }

  function PointOf(curve: ParetoCurve, run: Run, xKey: string, yKey: string): ChartPoint {
    ChartPoint(RunField(run, xKey), RunField(run, yKey), Meta(curve, run))
  }

  function ModelOf(curve: ParetoCurve, xKey: string, yKey: string): ChartModel {
    ChartModel(curve.id, curve.name, curve.color, Map(curve.runs, (run: Run) => PointOf(curve, run, xKey, yKey)))
  }

  /** buildChartConfig. */
  function BuildChartConfig(curves: seq<ParetoCurve>, opts: ChartOptions): (c: Config)
    ensures c.title == opts.title && c.subtitle == opts.subtitle
    ensures c.xLabel == opts.xLabel && c.yLabel == opts.yLabel
    ensures c.xScale == (if opts.xScale.Some? then opts.xScale.value else "log")
    ensures c.yScale == (if opts.yScale.Some? then opts.yScale.value else "linear")
    ensures c.subline.Some? <==> opts.subline.Some? && opts.subline.value != ""
    ensures c.subline.Some? ==> c.subline == opts.subline
    ensures |c.models| == |curves|
    ensures forall i :: 0 <= i < |curves| ==>
              var m := c.models[i];
              && m.id == curves[i].id && m.name == curves[i].name && m.color == curves[i].color
              && |m.points| == |curves[i].runs|
              && forall j :: 0 <= j < |m.points| ==>
                   && m.points[j].x == RunField(curves[i].runs[j], opts.xKey)
                   && m.points[j].y == RunField(curves[i].runs[j], opts.yKey)
                   && m.points[j].meta == Meta(curves[i], curves[i].runs[j])
  {
    Config(
      opts.title,
      opts.subtitle,
      if opts.subline.Some? && opts.subline.value != "" then opts.subline else None,
      opts.xLabel,
      opts.yLabel,
      opts.xScale.GetOr("log"),
      opts.yScale.GetOr("linear"),
      Map(curves, (curve: ParetoCurve) => ModelOf(curve, opts.xKey, opts.yKey)))
  }

  /**
   * The metadata holds every field of the run with the run's value, since
   * the run is spread last, and the curve's system id, run id, system and model
   * under the keys the run does not use.
   */
  lemma MetaKeepsRunFields(curve: ParetoCurve, run: Run)
    ensures var meta := Meta(curve, run);
            && (forall k :: k in RunFields(run) ==> k in meta && meta[k] == Plain(RunFields(run)[k]))
            && ("runId" !in RunFields(run) ==> meta["runId"] == Plain(Text(run.runId)))
            && ("systemId" !in RunFields(run) ==> meta["systemId"] == Plain(Text(curve.systemId)))
            && ("system" !in RunFields(run) ==> meta["system"] == SystemValue(curve.system))
            && ("model" !in RunFields(run) ==> meta["model"] == ModelValue(curve.model))
            && meta.Keys == RunFields(run).Keys + {"systemId", "runId", "system", "model"}
  {
  }
}
