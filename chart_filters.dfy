// The chart filter store of src/lib/stores/chartFilters.svelte.js: the
// model, sequence-length, precision and Y-axis metric filters, the Pareto
// view mode, and the option tables the filter form offers.

module ChartFilters {
  import opened Wrappers
  import opened Seqs
  import opened Strs

  /** A form option: its id and its display label. */
  datatype Choice = Choice(id: string, caption: string)

  datatype ViewModeChoice = ViewModeChoice(id: string, caption: string, description: string)

  datatype Filters = Filters(model: string, islOsl: string, precision: string, yAxisMetric: string)

  const ModelOptions: seq<Choice> := [
    Choice("gpt-oss-120b", "gpt-oss 120B"),
    Choice("deepseek-r1-0528", "DeepSeek R1 0528"),
    Choice("llama-3.3-70b", "Llama 3.3 70B Instruct")
  ]

  const IslOslOptions: seq<Choice> := [Choice("1k/1k", "1k/1k"), Choice("1k/8k", "1k/8k"), Choice("8k/1k", "8k/1k")]

  const PrecisionOptions: seq<Choice> := [Choice("FP4", "FP4"), Choice("FP8", "FP8")]

  const YAxisMetricOptions: seq<Choice> := [
    Choice("token-throughput-per-gpu", "Token Throughput per GPU"),
    Choice("input-token-throughput-per-gpu", "Input Token Throughput per GPU"),
    Choice("output-token-throughput-per-gpu", "Output Token Throughput per GPU"),
    Choice("token-throughput-per-mw", "Token Throughput per All in Utility MW"),
    Choice("cost-per-million-owning-hyperscaler", "Cost per Million Tokens (Owning - Hyperscaler)"),
    Choice("cost-per-million-owning-neocloud", "Cost per Million Tokens (Owning - Neocloud Giant)"),
    Choice("cost-per-million-3yr-rental", "Cost per Million Tokens (3 Year rental)"),
    Choice("cost-per-million-customer-values", "Cost per Million Tokens (Customer User Values)")
  ]

  const ParetoViewModeOptions: seq<ViewModeChoice> := [
    ViewModeChoice("throughput", "Throughput", "Total system throughput at each concurrency level"),
    ViewModeChoice("utilization", "Utilization", "Percentage of maximum achievable throughput"),
    ViewModeChoice("interactivity", "Interactivity", "Per-user token throughput (user experience metric)")
  ]

  const DefaultFilters: Filters := Filters("gpt-oss-120b", "1k/8k", "FP4", "token-throughput-per-gpu")

  const DefaultViewMode: string := "utilization"

  const Separator: string := " \U{2022} "

  const SourceNote: string := "Source: SemiAnalysis InferenceMAX\U{2122}"

  /** The label of the first option with the id, or the id itself. */
  function LabelOr(options: seq<Choice>, id: string): (r: string)
    ensures (forall i :: 0 <= i < |options| ==> options[i].id != id) ==> r == id
    ensures (exists i :: 0 <= i < |options| && options[i].id == id) ==>
              exists i :: 0 <= i < |options| && options[i].id == id && r == options[i].caption
                          && forall j :: 0 <= j < i ==> options[j].id != id
  {
    match Find(options, (c: Choice) => c.id == id)
    case Some(c) => c.caption
    case None => id
  }

  /** getFilterSubtitle, with the model options as a parameter. */
  function FilterSubtitle(options: seq<Choice>, f: Filters): (r: string)
    ensures IsPrefix(LabelOr(options, f.model) + Separator, r)
  {
    LabelOr(options, f.model) + Separator + f.precision + Separator + f.islOsl + Separator + SourceNote
  }

  const Bullet: char := '\U{2022}'

  /**
   * When no part holds a bullet, the subtitle splits at its bullets back into
   * the model label, the precision, the sequence lengths and the source note,
   * each with the spaces around the bullets.
   */
  lemma SubtitleSplits(options: seq<Choice>, f: Filters)
    requires Bullet !in LabelOr(options, f.model) && Bullet !in f.precision && Bullet !in f.islOsl
    ensures Split(FilterSubtitle(options, f), Bullet)
            == [LabelOr(options, f.model) + " ", " " + f.precision + " ", " " + f.islOsl + " ", " " + SourceNote]
  {
    assert Bullet !in SourceNote;
    SplitAtBullets(LabelOr(options, f.model), f.precision, f.islOsl, SourceNote);
  }

  lemma SplitAtBullets(a: string, b: string, c: string, d: string)
    requires Bullet !in a && Bullet !in b && Bullet !in c && Bullet !in d
    ensures Split(a + Separator + b + Separator + c + Separator + d, Bullet)
            == [a + " ", " " + b + " ", " " + c + " ", " " + d]
  {
    var p0, p1, p2, p3 := a + " ", " " + b + " ", " " + c + " ", " " + d;
    NoBulletAround(a, "", " ");
    SplitNoSeparator(a + " ", Bullet);
    SplitBeforeLastSeparator(a, b);
    assert Split(a + Separator + b + " ", Bullet) == [p0, p1];
    SplitBeforeLastSeparator(a + Separator + b, c);
    assert Split(a + Separator + b + Separator + c + " ", Bullet) == [p0, p1, p2];
    SplitAtLastSeparator(a + Separator + b + Separator + c, d);
  }

  /** The text after the last separator is the last piece. */
  lemma SplitAtLastSeparator(x: string, y: string)
    requires Bullet !in y
    ensures Split(x + Separator + y, Bullet) == Split(x + " ", Bullet) + [" " + y]
  {
    assert x + Separator + y == (x + " ") + [Bullet] + (" " + y);
    SplitAppend(x + " ", Bullet, " " + y);
    NoBulletAround(y, " ", "");
    SplitNoSeparator(" " + y, Bullet);
  }

  /** The same, for text ending in the space before a further separator. */
  lemma SplitBeforeLastSeparator(x: string, y: string)
    requires Bullet !in y
    ensures Split(x + Separator + y + " ", Bullet) == Split(x + " ", Bullet) + [" " + y + " "]
  {
    assert x + Separator + y + " " == (x + " ") + [Bullet] + (" " + y + " ");
    SplitAppend(x + " ", Bullet, " " + y + " ");
    NoBulletAround(y, " ", " ");
    SplitNoSeparator(" " + y + " ", Bullet);
  }

  lemma NoBulletAround(s: string, before: string, after: string)
    requires Bullet !in s && Bullet !in before && Bullet !in after
    ensures Bullet !in before + s + after
  {
  }

  /** The subtitle of the default filters. */
  lemma DefaultSubtitle(options: seq<Choice>)
    requires options == ModelOptions
    ensures FilterSubtitle(options, DefaultFilters)
            == "gpt-oss 120B" + Separator + "FP4" + Separator + "1k/8k" + Separator + SourceNote
  {
    var name := LabelOr(options, "gpt-oss-120b");
    assert FindIndex(options, (c: Choice) => c.id == "gpt-oss-120b") == 0;
    assert name == "gpt-oss 120B";
  }

  class FilterStore {
    var filters: Filters
    var paretoViewMode: string

    constructor()
      ensures filters == DefaultFilters && paretoViewMode == DefaultViewMode
    {
      filters := DefaultFilters;
      paretoViewMode := DefaultViewMode;
    }

    method SetParetoViewMode(mode: string)
      modifies this
      ensures paretoViewMode == mode && filters == old(filters)
    {
      paretoViewMode := mode;
    }

    method SetModel(model: string)
      modifies this
      ensures filters == old(filters).(model := model) && paretoViewMode == old(paretoViewMode)
    {
      filters := filters.(model := model);
    }

    method SetIslOsl(islOsl: string)
      modifies this
      ensures filters == old(filters).(islOsl := islOsl) && paretoViewMode == old(paretoViewMode)
    {
      filters := filters.(islOsl := islOsl);
    }

    method SetPrecision(precision: string)
      modifies this
      ensures filters == old(filters).(precision := precision) && paretoViewMode == old(paretoViewMode)
    {
      filters := filters.(precision := precision);
    }

    method SetYAxisMetric(yAxisMetric: string)
      modifies this
      ensures filters == old(filters).(yAxisMetric := yAxisMetric) && paretoViewMode == old(paretoViewMode)
    {
      filters := filters.(yAxisMetric := yAxisMetric);
    }

    /** resetFilters: a fresh copy of the defaults, so repeating it changes nothing. */
    method ResetFilters()
      modifies this
      ensures filters == DefaultFilters && paretoViewMode == DefaultViewMode
    {
      filters := DefaultFilters;
      paretoViewMode := DefaultViewMode;
    }

    /** getFilterSubtitle. */
    function GetFilterSubtitle(): (r: string)
      reads this
      ensures IsPrefix(LabelOr(ModelOptions, filters.model) + Separator, r)
      ensures Bullet !in LabelOr(ModelOptions, filters.model) && Bullet !in filters.precision && Bullet !in filters.islOsl ==>
                Split(r, Bullet) == [LabelOr(ModelOptions, filters.model) + " ", " " + filters.precision + " ",
                                     " " + filters.islOsl + " ", " " + SourceNote]
    {
      var name := LabelOr(ModelOptions, filters.model);
      assert Bullet !in name && Bullet !in filters.precision && Bullet !in filters.islOsl ==>
        Split(FilterSubtitle(ModelOptions, filters), Bullet)
          == [name + " ", " " + filters.precision + " ", " " + filters.islOsl + " ", " " + SourceNote] by {
        if Bullet !in name && Bullet !in filters.precision && Bullet !in filters.islOsl {
          SubtitleSplits(ModelOptions, filters);
        }
      }
      FilterSubtitle(ModelOptions, filters)
    }
  }
}
