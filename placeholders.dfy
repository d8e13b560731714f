// The placeholder chart generator of src/lib/data/placeholders.js. The
// string hash that seeds it and the linear congruential generator it draws
// from are exact integer computations; Math.pow is a parameter, and the
// other real arithmetic is exact here where the source uses doubles.

module Placeholders {
  import opened Seqs
  import opened ChartFilters
  import opened Strs
  import opened JsMath

  // ---------------------------------------------------------------------------
  // Tables
  // ---------------------------------------------------------------------------

  const AllGpuConfigs: seq<string> :=
    ["h100-vllm", "h200-vllm", "h200-trt", "b200-trt", "b200-vllm", "ml300x-vllm", "ml325x-vllm", "ml355-vllm"]

  const GpuColors: map<string, string> := map[
    "h100-vllm" := "#22c55e", "h200-vllm" := "#3b82f6", "h200-trt" := "#f59e0b", "b200-trt" := "#ec4899",
    "b200-vllm" := "#8b5cf6", "ml300x-vllm" := "#06b6d4", "ml325x-vllm" := "#ef4444", "ml355-vllm" := "#84cc16"]

  const GpuNames: map<string, string> := map[
    "h100-vllm" := "H100 (vLLM)", "h200-vllm" := "H200 (vLLM)", "h200-trt" := "H200 (TRT)",
    "b200-trt" := "B200 (TRT)", "b200-vllm" := "B200 (vLLM)", "ml300x-vllm" := "ML300X (vLLM)",
    "ml325x-vllm" := "ML325X (vLLM)", "ml355-vllm" := "ML355 (vLLM)"]

  const ModelNames: map<string, string> := map[
    "gpt-oss-120b" := "gpt-oss 120B", "deepseek-r1-0528" := "DeepSeek R1 0528",
    "llama-3.3-70b" := "Llama 3.3 70B Instruct"]

  const DefaultYLabel: string := "Token Throughput per GPU (toks/s/gpu)"

  const YAxisLabels: map<string, string> := map[
    "token-throughput-per-gpu" := DefaultYLabel,
    "input-token-throughput-per-gpu" := "Input Token Throughput per GPU (toks/s/gpu)",
    "output-token-throughput-per-gpu" := "Output Token Throughput per GPU (toks/s/gpu)",
    "token-throughput-per-mw" := "Token Throughput per All in Utility (toks/s/MW)",
    "cost-per-million-owning-hyperscaler" := "Cost per Million Tokens ($)",
    "cost-per-million-owning-neocloud" := "Cost per Million Tokens ($)",
    "cost-per-million-3yr-rental" := "Cost per Million Tokens ($)",
    "cost-per-million-customer-values" := "Cost per Million Tokens ($)"]

  const ModelMultipliers: map<string, real> := map["gpt-oss-120b" := 1.0, "deepseek-r1-0528" := 0.85, "llama-3.3-70b" := 1.25]

  datatype IslOslConfig = IslOslConfig(scale: real, xShift: real, curveShape: real)

  const DefaultIslOsl: IslOslConfig := IslOslConfig(1.0, 0.0, 1.0)

  const IslOslMultipliers: map<string, IslOslConfig> := map[
    "1k/1k" := IslOslConfig(1.0, 0.0, 1.0),
    "1k/8k" := IslOslConfig(0.7, 20.0, 0.85),
    "8k/1k" := IslOslConfig(0.85, -10.0, 1.15)]

  const PrecisionMultipliers: map<string, real> := map["FP4" := 1.2, "FP8" := 1.0]

  datatype MetricTransform = MetricTransform(baseMultiplier: real, isInverted: bool, noiseLevel: real)

  const DefaultTransform: MetricTransform := MetricTransform(1.0, false, 0.05)

  const YAxisMetricTransforms: map<string, MetricTransform> := map[
    "token-throughput-per-gpu" := MetricTransform(1.0, false, 0.05),
    "input-token-throughput-per-gpu" := MetricTransform(1.15, false, 0.08),
    "output-token-throughput-per-gpu" := MetricTransform(0.9, false, 0.06),
    "token-throughput-per-mw" := MetricTransform(0.012, false, 0.1),
    "cost-per-million-owning-hyperscaler" := MetricTransform(0.015, true, 0.12),
    "cost-per-million-owning-neocloud" := MetricTransform(0.012, true, 0.1),
    "cost-per-million-3yr-rental" := MetricTransform(0.018, true, 0.15),
    "cost-per-million-customer-values" := MetricTransform(0.022, true, 0.08)]

  const GpuMultipliers: map<string, real> := map[
    "h100-vllm" := 1.0, "h200-vllm" := 1.3, "h200-trt" := 1.45, "b200-trt" := 1.7,
    "b200-vllm" := 1.55, "ml300x-vllm" := 1.2, "ml325x-vllm" := 1.35, "ml355-vllm" := 1.5]

  const BaseFailureRates: map<string, real> := map[
    "h100-vllm" := 8.5, "h200-vllm" := 6.2, "h200-trt" := 5.8, "b200-trt" := 3.5,
    "b200-vllm" := 4.2, "ml300x-vllm" := 7.1, "ml325x-vllm" := 5.5, "ml355-vllm" := 4.8]

  const FallbackColor: string := "#64748b"

  /** `table[key] ?? fallback`. */
  function Lookup<V>(table: map<string, V>, key: string, fallback: V): (r: V)
    ensures key in table ==> r == table[key]
    ensures key !in table ==> r == fallback
  {
    if key in table then table[key] else fallback
  }

  // ---------------------------------------------------------------------------
  // 32-bit integers
  // ---------------------------------------------------------------------------

  const TwoTo32: int := 0x1_0000_0000
  const TwoTo31: int := 0x8000_0000

  /** ECMAScript ToInt32 on an integer: wrap into [-2^31, 2^31). */
  function Int32(n: int): (r: int)
    ensures -TwoTo31 <= r < TwoTo31
    ensures (r - n) % TwoTo32 == 0
  {
    var m := n % TwoTo32;
    if m >= TwoTo31 then m - TwoTo32 else m
  }

  /** Values equal modulo 2^32 wrap to the same 32-bit integer. */
  lemma Int32Congruent(a: int, b: int)
    requires (a - b) % TwoTo32 == 0
    ensures Int32(a) == Int32(b)
  {
    var k := (a - b) / TwoTo32;
    assert a == b + k * TwoTo32;
    assert a % TwoTo32 == b % TwoTo32 by {
      ModAddMultiple(b, k);
    }
  }

  lemma ModAddMultiple(b: int, k: int)
    ensures (b + k * TwoTo32) % TwoTo32 == b % TwoTo32
  {
  }

  // ---------------------------------------------------------------------------
  // generateSeed
  // ---------------------------------------------------------------------------

  /** One loop step: `(hash << 5) - hash + char`, then `hash & hash`. */
  function HashStep(hash: int, c: char): int {
    Int32(Int32(hash * 32) - hash + (c as int))
  }

  /** The step is the usual `hash * 31 + char` in 32-bit arithmetic. */
  lemma HashStepIsTimes31(hash: int, c: char)
    ensures HashStep(hash, c) == Int32(hash * 31 + c as int)
  {
    var shifted := Int32(hash * 32);
    assert (shifted - hash * 32) % TwoTo32 == 0;
    Int32Congruent(shifted - hash + c as int, hash * 31 + c as int);
  }

  /** The hash of a string: the steps folded over its characters from 0. */
  function Hash(s: string): (h: int)
    ensures -TwoTo31 <= h < TwoTo31
    decreases |s|
  {
    if s == [] then 0 else HashStep(Hash(s[..|s| - 1]), s[|s| - 1])
  }

  /** The string generateSeed hashes. */
  function SeedKey(model: string, islOsl: string, precision: string, yAxisMetric: string, gpuId: string): string {
    model + "-" + islOsl + "-" + precision + "-" + yAxisMetric + "-" + gpuId
  }

  function Seed(model: string, islOsl: string, precision: string, yAxisMetric: string, gpuId: string): (r: nat)
    ensures r <= TwoTo31
  {
    Abs(Hash(SeedKey(model, islOsl, precision, yAxisMetric, gpuId)))
  }

  /** generateSeed: a loop folding the hash step over the key. */
  method GenerateSeed(model: string, islOsl: string, precision: string, yAxisMetric: string, gpuId: string)
    returns (seed: nat)
    ensures seed == Seed(model, islOsl, precision, yAxisMetric, gpuId)
    ensures seed <= TwoTo31
  {
    var str := SeedKey(model, islOsl, precision, yAxisMetric, gpuId);
    var hash := 0;
    var i := 0;
    while i < |str|
      invariant 0 <= i <= |str|
      invariant hash == Hash(str[..i])
    {
      assert str[..i + 1][..i] == str[..i];
      hash := Int32(Int32(hash * 32) - hash + (str[i] as int));
      i := i + 1;
    }
    assert str[..|str|] == str;
    seed := if hash < 0 then -hash else hash;
  }

  // ---------------------------------------------------------------------------
  // seededRandom
  // ---------------------------------------------------------------------------

  const Modulus: int := 233280

  /** `seed = (seed * 9301 + 49297) % 233280`. */
  function Lcg(seed: int): int {
    JsRem(seed * 9301 + 49297, Modulus)
  }

  /** From a non-negative seed the state stays in [0, 233280). */
  lemma LcgRange(seed: int)
    requires seed >= 0
    ensures 0 <= Lcg(seed) < Modulus
  {
  }

  /** The state after n draws. */
  function LcgIterate(seed: int, n: nat): int
    decreases n
  {
    if n == 0 then seed else Lcg(LcgIterate(seed, n - 1))
  }

  /** The k-th value (from 0) the generator returns. */
  function Draw(seed: int, k: nat): real {
    LcgIterate(seed, k + 1) as real / Modulus as real
  }

  /** Every draw from a non-negative seed lies in [0, 1). */
  lemma DrawRange(seed: int, k: nat)
    requires seed >= 0
    ensures 0.0 <= Draw(seed, k) < 1.0
  {
    LcgIterateRange(seed, k);
    LcgIterateRange(seed, k + 1);
    FractionRange(LcgIterate(seed, k + 1));
  }

  /** The state stays non-negative, and below the modulus after the first draw. */
  lemma {:induction false} LcgIterateRange(seed: int, n: nat)
    requires seed >= 0
    ensures LcgIterate(seed, n) >= 0
    ensures n > 0 ==> LcgIterate(seed, n) < Modulus
    decreases n
  {
    if n > 0 {
      LcgIterateRange(seed, n - 1);
      LcgRange(LcgIterate(seed, n - 1));
    }
  }

  lemma FractionRange(n: int)
    requires 0 <= n < Modulus
    ensures 0.0 <= n as real / Modulus as real < 1.0
  {
    var d := Modulus as real;
    assert n as real < d;
  }

  /** The closure seededRandom returns: a generator whose captured seed each call advances. */
  class SeededRandom {
    const initial: int
    var seed: int
    ghost var draws: nat

    ghost predicate Valid()
      reads this
    {
      seed == LcgIterate(initial, draws)
    }

    constructor(s: int)
      ensures initial == s && seed == s && draws == 0 && Valid()
    {
      initial := s;
      seed := s;
      draws := 0;
    }

    method Next() returns (r: real)
      requires Valid()
      modifies this
      ensures Valid() && draws == old(draws) + 1
      ensures seed == Lcg(old(seed)) && r == seed as real / Modulus as real
      ensures r == Draw(initial, old(draws))
      ensures initial >= 0 ==> 0.0 <= r < 1.0
    {
      var next := seed * 9301 + 49297;
      seed := if next >= 0 then next % Modulus else -((-next) % Modulus);
      draws := draws + 1;
      r := seed as real / Modulus as real;
      if initial >= 0 {
        DrawRange(initial, draws - 1);
      }
    }
  }

  // ---------------------------------------------------------------------------
  // The charts
  // ---------------------------------------------------------------------------

  datatype Xy = Xy(x: int, y: int)

  datatype Series = Series(id: string, name: string, color: string, points: seq<Xy>)

  datatype LineChart = LineChart(title: string, subtitle: string, xLabel: string, yLabel: string, models: seq<Series>)

  datatype Reliability = Reliability(id: string, name: string, color: string, value: real)

  datatype BarChart = BarChart(title: string, subtitle: string, xLabel: string, yLabel: string, data: seq<Reliability>)

  datatype ChartData = ChartData(latencyChart: LineChart, interactivityChart: LineChart, gpuReliabilityChart: BarChart)

  const LatencyBase: seq<Xy> :=
    [Xy(5, 800), Xy(15, 1800), Xy(30, 2900), Xy(50, 4200), Xy(75, 5100),
     Xy(100, 5800), Xy(130, 6300), Xy(160, 6600), Xy(185, 6800)]

  const InteractivityBase: seq<Xy> :=
    [Xy(10, 1200), Xy(25, 2400), Xy(50, 3800), Xy(75, 5000), Xy(100, 5800),
     Xy(150, 6800), Xy(200, 7400), Xy(250, 7800), Xy(300, 8000)]

  /** The chart point of base point p, given the y value before clamping. */
  function ClampedPoint(x: real, minX: int, finalY: real): (r: Xy)
    ensures r.x >= minX && r.y >= 100
  {
    RoundAtLeast(MaxReal(100.0, finalY), 100);
    Xy(MaxInt(minX, Round(x)), Round(MaxReal(100.0, finalY)))
  }

  /** The per-filter factors both line charts use. */
  datatype Factors = Factors(isl: IslOslConfig, metric: MetricTransform, gpu: real, model: real, precision: real)

  function FactorsOf(gpuId: string, f: Filters): Factors {
    Factors(Lookup(IslOslMultipliers, f.islOsl, DefaultIslOsl),
            Lookup(YAxisMetricTransforms, f.yAxisMetric, DefaultTransform),
            Lookup(GpuMultipliers, gpuId, 1.0), Lookup(ModelMultipliers, f.model, 1.0),
            Lookup(PrecisionMultipliers, f.precision, 1.0))
  }

  /** Point i of the latency curve, drawing `random` for its noise. */
  function LatencyPoint(p: Xy, i: nat, fs: Factors, random: real, pow: (real, real) -> real): (r: Xy)
    ensures r.x >= 1 && r.y >= 100
  {
    var combined := fs.gpu * fs.model * fs.isl.scale * fs.precision * fs.metric.baseMultiplier;
    var curveAdjust := pow(i as real / 9.0, fs.isl.curveShape);
    var curvedY := p.y as real * (0.5 + 0.5 * curveAdjust * 2.0);
    var noise := 1.0 + (random - 0.5) * fs.metric.noiseLevel * 2.0;
    var y := curvedY * combined * noise;
    var finalY := if fs.metric.isInverted then 12000.0 * combined - y + 500.0 * combined else y;
    ClampedPoint(p.x as real + fs.isl.xShift, 1, finalY)
  }

  /** Point i of the interactivity curve, drawing `random` for its noise. */
  function InteractivityPoint(p: Xy, i: nat, fs: Factors, random: real, pow: (real, real) -> real): (r: Xy)
    ensures r.x >= 5 && r.y >= 100
  {
    var combined := fs.gpu * fs.model * pow(fs.isl.scale, 0.8) * fs.precision * fs.metric.baseMultiplier;
    var curveAdjust := pow((i + 1) as real / 9.0, fs.isl.curveShape * 1.1);
    var curvedY := p.y as real * (0.4 + 0.6 * curveAdjust * 1.8);
    var noise := 1.0 + (random - 0.5) * fs.metric.noiseLevel * 2.5;
    var y := curvedY * combined * noise;
    var finalY := if fs.metric.isInverted then 10000.0 * combined - y + 400.0 * combined else y;
    ClampedPoint(p.x as real + fs.isl.xShift * 1.5, 5, finalY)
  }

  /** Nine points, each at least minX across and at least 100 up. */
  predicate CurvePoints(points: seq<Xy>, minX: int) {
    && |points| == 9
    && forall j :: 0 <= j < |points| ==> points[j].x >= minX && points[j].y >= 100
  }

  /** generateLatencyPoints, Math.pow given as pow: point i draws the i-th random value. */
  function LatencyPoints(gpuId: string, f: Filters, pow: (real, real) -> real): (r: seq<Xy>)
    ensures |r| == |LatencyBase| && CurvePoints(r, 1)
  {
    var fs := FactorsOf(gpuId, f);
    var seed := Seed(f.model, f.islOsl, f.precision, f.yAxisMetric, gpuId);
    seq(|LatencyBase|, i requires 0 <= i < |LatencyBase| => LatencyPoint(LatencyBase[i], i, fs, Draw(seed, i), pow))
  }

  /** generateInteractivityPoints, Math.pow given as pow, seeded apart from the latency curve. */
  function InteractivityPoints(gpuId: string, f: Filters, pow: (real, real) -> real): (r: seq<Xy>)
    ensures |r| == |InteractivityBase| && CurvePoints(r, 5)
  {
    var fs := FactorsOf(gpuId, f);
    var seed := Seed(f.model, f.islOsl, f.precision, f.yAxisMetric, gpuId + "-interactivity");
    seq(|InteractivityBase|, i requires 0 <= i < |InteractivityBase| =>
      InteractivityPoint(InteractivityBase[i], i, fs, Draw(seed, i), pow))
  }

  /** The failure rate of one GPU configuration. */
  function FailureRate(gpuId: string, f: Filters): (r: Reliability)
    ensures r.id == gpuId && r.name == Lookup(GpuNames, gpuId, gpuId) && r.color == Lookup(GpuColors, gpuId, FallbackColor)
    ensures 0.5 <= r.value <= 15.0
  {
    var seed := Seed(f.model, f.islOsl, f.precision, f.yAxisMetric, gpuId + "-reliability");
    var variation := (Draw(seed, 0) - 0.5) * 4.0;
    var finalRate := MaxReal(0.5, MinReal(15.0, Lookup(BaseFailureRates, gpuId, 6.0) + variation));
    var tenths := Round(finalRate * 10.0);
    assert 5 <= tenths <= 150 by {
      RoundAtLeast(finalRate * 10.0, 5);
    }
    Reliability(gpuId, Lookup(GpuNames, gpuId, gpuId), Lookup(GpuColors, gpuId, FallbackColor), tenths as real / 10.0)
  }

  /** One bar per GPU configuration, in order, named and coloured from the tables, its rate in [0.5, 15]. */
  predicate ReliabilityBars(data: seq<Reliability>, gpus: seq<string>) {
    && |data| == |gpus|
    && forall i :: 0 <= i < |data| ==>
         && data[i].id == gpus[i]
         && data[i].name == Lookup(GpuNames, gpus[i], gpus[i])
         && data[i].color == Lookup(GpuColors, gpus[i], FallbackColor)
         && 0.5 <= data[i].value <= 15.0
  }

  /** generateGpuReliabilityData. */
  function GpuReliabilityData(gpus: seq<string>, f: Filters): (r: seq<Reliability>)
    ensures ReliabilityBars(r, gpus)
  {
    Map(gpus, (gpuId: string) => FailureRate(gpuId, f))
  }

  function SeriesOf(gpuId: string, points: seq<Xy>): Series {
    Series(gpuId, Lookup(GpuNames, gpuId, gpuId), Lookup(GpuColors, gpuId, FallbackColor), points)
  }

  /** The subtitle: the model's display name or raw id, the precision, the sequence lengths, the source. */
  function Subtitle(f: Filters): string {
    Lookup(ModelNames, f.model, f.model) + Separator + f.precision + Separator + f.islOsl + Separator + SourceNote
  }

  /** One series per GPU configuration, in order, each a curve of nine points. */
  predicate CurveSeries(models: seq<Series>, gpus: seq<string>, minX: int) {
    && |models| == |gpus|
    && forall i :: 0 <= i < |models| ==> models[i].id == gpus[i] && CurvePoints(models[i].points, minX)
  }

  /** The latency chart's models: one series per GPU configuration, in order. */
  function LatencySeries(gpus: seq<string>, f: Filters, pow: (real, real) -> real): (r: seq<Series>)
    ensures CurveSeries(r, gpus, 1)
  {
    if gpus == [] then []
    else [SeriesOf(gpus[0], LatencyPoints(gpus[0], f, pow))] + LatencySeries(gpus[1..], f, pow)
  }

  /** The interactivity chart's models: one series per GPU configuration, in order. */
  function InteractivitySeries(gpus: seq<string>, f: Filters, pow: (real, real) -> real): (r: seq<Series>)
    ensures CurveSeries(r, gpus, 5)
  {
    if gpus == [] then []
    else [SeriesOf(gpus[0], InteractivityPoints(gpus[0], f, pow))] + InteractivitySeries(gpus[1..], f, pow)
  }

  /** generateChartData, Math.pow given as pow. */
  function GenerateChartData(f: Filters, pow: (real, real) -> real): (r: ChartData)
    ensures CurveSeries(r.latencyChart.models, AllGpuConfigs, 1)
    ensures CurveSeries(r.interactivityChart.models, AllGpuConfigs, 5)
    ensures ReliabilityBars(r.gpuReliabilityChart.data, AllGpuConfigs)
    ensures r.latencyChart.subtitle == Subtitle(f) && r.interactivityChart.subtitle == Subtitle(f)
    ensures r.latencyChart.yLabel == Lookup(YAxisLabels, f.yAxisMetric, DefaultYLabel)
    ensures r.interactivityChart.yLabel == r.latencyChart.yLabel
  {
    var subtitle := Subtitle(f);
    var yLabel := Lookup(YAxisLabels, f.yAxisMetric, DefaultYLabel);
    var latency := LatencySeries(AllGpuConfigs, f, pow);
    var interactivity := InteractivitySeries(AllGpuConfigs, f, pow);
    ChartData(
      LineChart("Token Throughput per GPU vs. End-to-end Latency", subtitle, "End-to-end Latency (s)", yLabel, latency),
      LineChart("Token Throughput per GPU vs. Interactivity", subtitle, "Interactivity (tok/s/user)", yLabel, interactivity),
      BarChart("GPU Reliability", "For each GPU model, the failure rate percentage of completed runs.",
               "Hardware Model", "Failure Rate (%)", GpuReliabilityData(AllGpuConfigs, f)))
  }

  /** The subtitle names a listed model by its display name, any other by its id. */
  lemma SubtitleModelName(f: Filters)
    ensures f.model == "deepseek-r1-0528" ==> IsPrefix("DeepSeek R1 0528" + Separator, Subtitle(f))
    ensures f.model !in ModelNames ==> IsPrefix(f.model + Separator, Subtitle(f))
  {
  }
}
