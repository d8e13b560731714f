// The benchmark data service of src/lib/services/benchmarkService.js: the
// whitelist schema the filters must pass, the issue list a rejection
// reports, the two entry points that turn a validation into chart data or
// an error, and the display URL. The schema library's own issue texts are
// a parameter, and so are the query-string encoder and the chart generator,
// which the service uses as a black box; PlaceholderService puts the
// placeholder generator in its place.

module BenchmarkService {
  import opened Wrappers
  import opened Seqs
  import opened Strs
  import opened ChartFilters
  import opened Placeholders

  // ---------------------------------------------------------------------------
  // The schema
  // ---------------------------------------------------------------------------

  const ModelIds: seq<string> := ["gpt-oss-120b", "deepseek-r1-0528", "llama-3.3-70b"]
  const IslOslIds: seq<string> := ["1k/1k", "1k/8k", "8k/1k"]
  const PrecisionIds: seq<string> := ["FP4", "FP8"]
  const YAxisMetricIds: seq<string> := [
    "token-throughput-per-gpu", "input-token-throughput-per-gpu", "output-token-throughput-per-gpu",
    "token-throughput-per-mw", "cost-per-million-owning-hyperscaler", "cost-per-million-owning-neocloud",
    "cost-per-million-3yr-rental", "cost-per-million-customer-values"]

  /**
   * The value validateFilters receives: something that is not an object, or
   * an object given by its string-valued properties.
   */
  datatype Raw = NotAnObject | Object(fields: map<string, string>)

  /** The text the schema library gives an issue: None for the input as a whole, Some(key) for a property. */
  type Messages = Option<string> -> string

  /** An issue as the schema reports it: the keys leading to it, when it has a path. */
  datatype SchemaIssue = SchemaIssue(path: Option<seq<string>>, message: string)

  /** The schema's safeParse result. */
  datatype ParseResult = Parsed(output: Filters) | Failed(issues: seq<SchemaIssue>)

  /** The key, when the object's property under it is missing or not in the picklist. */
  function Check(key: string, accepted: seq<string>, fields: map<string, string>): seq<string> {
    if key in fields && fields[key] in accepted then [] else [key]
  }

  /** The keys of the schema properties the object fails, in the schema's order. */
  function Rejected(fields: map<string, string>): seq<string> {
    Check("model", ModelIds, fields) + Check("islOsl", IslOslIds, fields)
    + Check("precision", PrecisionIds, fields) + Check("yAxisMetric", YAxisMetricIds, fields)
  }

  /** The whitelist rule, written out: an object whose four properties each hold an accepted id. */
  predicate Accepted(raw: Raw) {
    && raw.Object?
    && "model" in raw.fields && raw.fields["model"] in ModelIds
    && "islOsl" in raw.fields && raw.fields["islOsl"] in IslOslIds
    && "precision" in raw.fields && raw.fields["precision"] in PrecisionIds
    && "yAxisMetric" in raw.fields && raw.fields["yAxisMetric"] in YAxisMetricIds
  }

  /** The four validated values, read off an accepted object. */
  function Output(raw: Raw): Filters
    requires Accepted(raw)
  {
    Filters(raw.fields["model"], raw.fields["islOsl"], raw.fields["precision"], raw.fields["yAxisMetric"])
  }

  /** The rejected keys are none exactly when the object meets the whitelist rule, and at most four. */
  lemma RejectedNoneIffAccepted(fields: map<string, string>)
    ensures Rejected(fields) == [] <==> Accepted(Object(fields))
    ensures |Rejected(fields)| <= 4
  {
  }

  /**
   * v.safeParse(filterSchema, filters): a non-object fails as a whole, with
   * no path; an object fails with one issue per rejected property, whose path
   * is that property's key; otherwise it yields the four values.
   */
  function SafeParse(raw: Raw, msg: Messages): (r: ParseResult)
    ensures r.Parsed? <==> Accepted(raw)
    ensures r.Parsed? ==> r.output == Output(raw)
    ensures raw.NotAnObject? ==> r == Failed([SchemaIssue(None, msg(None))])
    ensures raw.Object? && r.Failed? ==>
              var keys := Rejected(raw.fields);
              && |r.issues| == |keys| >= 1
              && forall j :: 0 <= j < |keys| ==> r.issues[j] == SchemaIssue(Some([keys[j]]), msg(Some(keys[j])))
  {
    match raw
    case NotAnObject => Failed([SchemaIssue(None, msg(None))])
    case Object(fields) =>
      RejectedNoneIffAccepted(fields);
      var keys := Rejected(fields);
      if keys == [] then Parsed(Output(raw))
      else Failed(Map(keys, (key: string) => SchemaIssue(Some([key]), msg(Some(key)))))
  }

  // ---------------------------------------------------------------------------
  // validateFilters
  // ---------------------------------------------------------------------------

  /** An issue as validateFilters reports it. */
  datatype Issue = Issue(path: string, message: string)

  datatype Validation = Valid(data: Filters) | Invalid(issues: seq<Issue>)

  /** `issue.path?.map((p) => p.key).join('.') ?? 'unknown'`. */
  function IssuePath(issue: SchemaIssue): string {
    if issue.path.Some? then Join(issue.path.value, '.') else "unknown"
  }

  /** A path with keys reads back as those keys, when no key holds a dot; one without reads "unknown". */
  lemma IssuePathRoundTrip(issue: SchemaIssue)
    requires issue.path.Some? ==> issue.path.value != [] && forall i :: 0 <= i < |issue.path.value| ==> '.' !in issue.path.value[i]
    ensures issue.path.Some? ==> Split(IssuePath(issue), '.') == issue.path.value
    ensures issue.path.None? ==> IssuePath(issue) == "unknown"
  {
    if issue.path.Some? {
      SplitJoin(issue.path.value, '.');
    }
  }

  function ReportIssue(issue: SchemaIssue): Issue {
    Issue(IssuePath(issue), issue.message)
  }

  /** validateFilters. */
  function ValidateFilters(raw: Raw, msg: Messages): (r: Validation)
    ensures r.Valid? <==> Accepted(raw)
    ensures r.Valid? ==> r.data == Output(raw)
    ensures r.Valid? ==> r.data.model in ModelIds && r.data.islOsl in IslOslIds
                         && r.data.precision in PrecisionIds && r.data.yAxisMetric in YAxisMetricIds
    ensures raw.NotAnObject? ==> r == Invalid([Issue("unknown", msg(None))])
    ensures raw.Object? && r.Invalid? ==>
              var keys := Rejected(raw.fields);
              && |r.issues| == |keys| >= 1
              && forall j :: 0 <= j < |keys| ==> r.issues[j] == Issue(keys[j], msg(Some(keys[j])))
  {
    match SafeParse(raw, msg)
    case Parsed(output) => Valid(output)
    case Failed(issues) => Invalid(Map(issues, ReportIssue))
  }

  /** The chart filters' defaults pass the whitelist. */
  lemma DefaultFiltersAccepted(msg: Messages)
    ensures var f := DefaultFilters;
            var raw := Object(map["model" := f.model, "islOsl" := f.islOsl, "precision" := f.precision,
                                  "yAxisMetric" := f.yAxisMetric]);
            ValidateFilters(raw, msg) == Valid(f)
  {
  }

  // ---------------------------------------------------------------------------
  // getBenchmarkData and simulateApiRequest
  // ---------------------------------------------------------------------------

  /** What getBenchmarkData settles to: the chart data, or the message of the error it throws. */
  datatype Outcome = Data(chart: ChartData) | Thrown(message: string)

  function DescribeIssue(issue: Issue): string {
    issue.path + ": " + issue.message
  }

  /** The issues described and joined with ", ". */
  function IssueList(issues: seq<Issue>): (r: string)
    ensures |issues| == 1 ==> r == DescribeIssue(issues[0])
    ensures |issues| > 1 ==> IsPrefix(DescribeIssue(issues[0]) + ", ", r)
    ensures forall i :: 0 <= i < |issues| ==> Contains(r, DescribeIssue(issues[i]))
    decreases |issues|
  {
    if issues == [] then ""
    else if |issues| == 1 then
      ContainsStart(DescribeIssue(issues[0]), "");
      assert DescribeIssue(issues[0]) + "" == DescribeIssue(issues[0]);
      DescribeIssue(issues[0])
    else
      var head := DescribeIssue(issues[0]) + ", ";
      var rest := IssueList(issues[1..]);
      assert head + rest == DescribeIssue(issues[0]) + (", " + rest);
      ContainsStart(DescribeIssue(issues[0]), ", " + rest);
      forall i | 1 <= i < |issues| ensures Contains(head + rest, DescribeIssue(issues[i])) {
        assert issues[1..][i - 1] == issues[i];
        ContainsInSuffix(head, rest, DescribeIssue(issues[i]));
      }
      head + rest
  }

  const ErrorPrefix: string := "Invalid filter parameters: "

  /** getBenchmarkData, with the chart generator it calls given as generate. */
  function GetBenchmarkData(raw: Raw, msg: Messages, generate: Filters -> ChartData): (r: Outcome)
    ensures r.Data? <==> Accepted(raw)
    ensures r.Data? ==> r.chart == generate(Output(raw))
    ensures r.Thrown? ==> IsPrefix(ErrorPrefix, r.message)
    ensures raw.NotAnObject? ==> r == Thrown(ErrorPrefix + "unknown: " + msg(None))
    ensures ValidateFilters(raw, msg).Invalid? ==> r == Thrown(ErrorPrefix + IssueList(ValidateFilters(raw, msg).issues))
  {
    match ValidateFilters(raw, msg)
    case Valid(data) => Data(generate(data))
    case Invalid(issues) => Thrown(ErrorPrefix + IssueList(issues))
  }

  datatype ApiError = ApiError(message: string, issues: seq<Issue>)

  /** The mock response, without its measured latency. */
  datatype Response = Response(ok: bool, status: int, statusText: string, data: Option<ChartData>, error: Option<ApiError>)

  /** simulateApiRequest, without its delay and timing, with the chart generator given as generate. */
  function SimulateApiRequest(raw: Raw, msg: Messages, generate: Filters -> ChartData): (r: Response)
    ensures r.ok <==> Accepted(raw)
    ensures r.ok ==> r.status == 200 && r.statusText == "OK" && r.error.None?
                     && r.data == Some(generate(Output(raw)))
    ensures !r.ok ==> && r.status == 400 && r.statusText == "Bad Request" && r.data.None?
                      && r.error == Some(ApiError("Invalid filter parameters", ValidateFilters(raw, msg).issues))
  {
    match ValidateFilters(raw, msg)
    case Valid(data) => Response(true, 200, "OK", Some(generate(data)), None)
    case Invalid(issues) =>
      Response(false, 400, "Bad Request", None, Some(ApiError("Invalid filter parameters", issues)))
  }

  /** The simulated response and the service call agree: the same inputs succeed, with the same data. */
  lemma SimulateMatchesService(raw: Raw, msg: Messages, generate: Filters -> ChartData)
    ensures SimulateApiRequest(raw, msg, generate).ok <==> GetBenchmarkData(raw, msg, generate).Data?
    ensures GetBenchmarkData(raw, msg, generate).Data? ==>
              SimulateApiRequest(raw, msg, generate).data == Some(GetBenchmarkData(raw, msg, generate).chart)
  {
  }

  // ---------------------------------------------------------------------------
  // buildEndpointUrl
  // ---------------------------------------------------------------------------

  const EndpointPath: string := "/api/benchmarks?"

  /** One `name=value` pair of the query, the value through the encoder. */
  function Param(name: string, value: string, encode: string -> string): string {
    name + "=" + encode(value)
  }

  /** buildEndpointUrl, with URLSearchParams' value encoding given as encode. */
  function BuildEndpointUrl(f: Filters, encode: string -> string): string {
    EndpointPath + Join([Param("model", f.model, encode), Param("islOsl", f.islOsl, encode),
                         Param("precision", f.precision, encode), Param("yAxisMetric", f.yAxisMetric, encode)], '&')
  }

  /**
   * The URL starts with the endpoint path, and its query splits back into the
   * four parameters in order, each into its name and encoded value, when the
   * encoder escapes `&` and `=`.
   */
  lemma EndpointUrlRoundTrip(f: Filters, encode: string -> string)
    requires forall s :: '&' !in encode(s) && '=' !in encode(s)
    ensures var url := BuildEndpointUrl(f, encode);
            && IsPrefix(EndpointPath, url)
            && var params := Split(url[|EndpointPath|..], '&');
            && params == [Param("model", f.model, encode), Param("islOsl", f.islOsl, encode),
                          Param("precision", f.precision, encode), Param("yAxisMetric", f.yAxisMetric, encode)]
            && Split(params[0], '=') == ["model", encode(f.model)]
            && Split(params[1], '=') == ["islOsl", encode(f.islOsl)]
            && Split(params[2], '=') == ["precision", encode(f.precision)]
            && Split(params[3], '=') == ["yAxisMetric", encode(f.yAxisMetric)]
  {
    var params := [Param("model", f.model, encode), Param("islOsl", f.islOsl, encode),
                   Param("precision", f.precision, encode), Param("yAxisMetric", f.yAxisMetric, encode)];
    var url := BuildEndpointUrl(f, encode);
    assert url[|EndpointPath|..] == Join(params, '&');
    ParamSplits("model", f.model, encode);
    ParamSplits("islOsl", f.islOsl, encode);
    ParamSplits("precision", f.precision, encode);
    ParamSplits("yAxisMetric", f.yAxisMetric, encode);
    SplitJoin(params, '&');
  }

  /** A parameter holds no `&`, and splits at `=` into its name and value. */
  lemma ParamSplits(name: string, value: string, encode: string -> string)
    requires '&' !in name && '=' !in name
    requires '&' !in encode(value) && '=' !in encode(value)
    ensures '&' !in Param(name, value, encode)
    ensures Split(Param(name, value, encode), '=') == [name, encode(value)]
  {
    SplitAppend(name, '=', encode(value));
    SplitNoSeparator(name, '=');
    SplitNoSeparator(encode(value), '=');
  }

  // ---------------------------------------------------------------------------
  // The service over the placeholder generator
  // ---------------------------------------------------------------------------

  /** The generator the service calls: generateChartData, Math.pow given as pow. */
  function Placeholder(pow: (real, real) -> real): Filters -> ChartData {
    (f: Filters) => GenerateChartData(f, pow)
  }

  /**
   * Accepted filters give the placeholder charts: one series of nine bounded
   * points per GPU configuration on both line charts, and one bounded bar per
   * configuration.
   */
  lemma PlaceholderService(raw: Raw, msg: Messages, pow: (real, real) -> real)
    requires Accepted(raw)
    ensures var r := GetBenchmarkData(raw, msg, Placeholder(pow));
            && r.Data?
            && CurveSeries(r.chart.latencyChart.models, AllGpuConfigs, 1)
            && CurveSeries(r.chart.interactivityChart.models, AllGpuConfigs, 5)
            && ReliabilityBars(r.chart.gpuReliabilityChart.data, AllGpuConfigs)
  {
    var chart := GenerateChartData(Output(raw), pow);
    assert GetBenchmarkData(raw, msg, Placeholder(pow)) == Data(chart);
  }
}
