// The placeholder benchmark table of src/lib/data/benchmarkData.js: four
// serving configurations, each with nine (latency, throughput) points.

module BenchmarkData {
  import opened Wrappers
  import opened Seqs

  datatype Xy = Xy(x: int, y: int)

  datatype BenchModel = BenchModel(id: string, name: string, color: string, points: seq<Xy>)

  const Models: seq<BenchModel> := [
    BenchModel("h100-vllm", "H100 (vLLM)", "#22c55e",
      [Xy(5, 800), Xy(15, 1800), Xy(30, 2900), Xy(50, 4200), Xy(75, 5100),
       Xy(100, 5800), Xy(130, 6300), Xy(160, 6600), Xy(185, 6800)]),
    BenchModel("h200-vllm", "H200 (vLLM)", "#3b82f6",
      [Xy(5, 1200), Xy(15, 2600), Xy(30, 4100), Xy(50, 5600), Xy(75, 6900),
       Xy(100, 7800), Xy(130, 8400), Xy(160, 8800), Xy(185, 9000)]),
    BenchModel("h200-trt", "H200 (TRT)", "#f59e0b",
      [Xy(5, 1500), Xy(15, 3200), Xy(30, 4800), Xy(50, 6400), Xy(75, 7700),
       Xy(100, 8600), Xy(130, 9200), Xy(160, 9600), Xy(185, 9900)]),
    BenchModel("b200-trt", "B200 (TRT)", "#ec4899",
      [Xy(5, 2000), Xy(15, 4200), Xy(30, 6200), Xy(50, 8000), Xy(75, 9400),
       Xy(100, 10200), Xy(130, 10800), Xy(160, 11200), Xy(185, 11500)])
  ]

  /** getModelIds: the ids of a table, in table order. */
  function ModelIds(models: seq<BenchModel>): (r: seq<string>)
    ensures |r| == |models| && forall i :: 0 <= i < |models| ==> r[i] == models[i].id
  {
    Map(models, (m: BenchModel) => m.id)
  }

  /** getModelById: the first model with the id, or None for undefined. */
  function ModelById(models: seq<BenchModel>, id: string): (r: Option<BenchModel>)
    ensures r.None? <==> forall i :: 0 <= i < |models| ==> models[i].id != id
    ensures r.Some? ==> r.value in models && r.value.id == id
  {
    Find(models, (m: BenchModel) => m.id == id)
  }

  /** The table lists four distinct ids in this order. */
  lemma TableIds(models: seq<BenchModel>)
    requires models == Models
    ensures ModelIds(models) == ["h100-vllm", "h200-vllm", "h200-trt", "b200-trt"]
    ensures NoDuplicates(ModelIds(models))
  {
  }

  /** With distinct ids, the model found for an id is the one listed with it. */
  lemma ModelByIdExact(models: seq<BenchModel>, i: nat)
    requires NoDuplicates(ModelIds(models)) && i < |models|
    ensures ModelById(models, models[i].id) == Some(models[i])
  {
    var r := ModelById(models, models[i].id);
    var k :| 0 <= k < |models| && models[k] == r.value;
    var ids := ModelIds(models);
    assert ids[k] == ids[i];
  }

  predicate StrictlyIncreasing(s: seq<int>) {
    forall i, j :: 0 <= i < j < |s| ==> s[i] < s[j]
  }

  function Xs(m: BenchModel): seq<int> {
    Map(m.points, (p: Xy) => p.x)
  }

  function Ys(m: BenchModel): seq<int> {
    Map(m.points, (p: Xy) => p.y)
  }

  /** Consecutive increase is increase. */
  lemma {:induction false} StepwiseIncreasing(s: seq<int>)
    requires forall i :: 0 <= i < |s| - 1 ==> s[i] < s[i + 1]
    ensures StrictlyIncreasing(s)
    decreases |s|
  {
    if |s| > 1 {
      StepwiseIncreasing(s[1..]);
      forall j | 0 < j < |s| ensures s[0] < s[j] {
        assert s[1..][j - 1] == s[j];
        if j > 1 {
          assert s[1..][0] < s[1..][j - 1];
        }
      }
    }
  }

  /** Every model has the same nine latencies, strictly increasing, and throughput rising with them. */
  lemma PointsTrendUpward(models: seq<BenchModel>, i: nat)
    requires models == Models && i < |models|
    ensures Xs(models[i]) == [5, 15, 30, 50, 75, 100, 130, 160, 185]
    ensures StrictlyIncreasing(Xs(models[i])) && StrictlyIncreasing(Ys(models[i]))
  {
    StepwiseIncreasing(Xs(models[i]));
    StepwiseIncreasing(Ys(models[i]));
  }
}
