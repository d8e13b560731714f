// The chart settings store of src/lib/stores/chartSettings.svelte.js: which
// benchmark models are shown, and two display flags.

module ChartSettings {
  import opened BenchmarkData

  /** `Object.fromEntries(ids.map((id) => [id, true]))`. */
  function AllVisible(ids: seq<string>): (r: map<string, bool>)
    ensures forall id :: id in r <==> id in ids
    ensures forall id :: id in r ==> r[id]
  {
    map id | id in ids :: true
  }

  /** isModelVisible: `visibility[id] ?? true`. */
  predicate IsVisible(visibility: map<string, bool>, id: string) {
    if id in visibility then visibility[id] else true
  }

  /** The map after toggleModel: `!undefined` is true, so an absent id is stored as visible. */
  function ToggledModel(visibility: map<string, bool>, id: string): (r: map<string, bool>)
    ensures id in r && r.Keys == visibility.Keys + {id}
    ensures forall other :: other in visibility && other != id ==> r[other] == visibility[other]
  {
    visibility[id := if id in visibility then !visibility[id] else true]
  }

  /**
   * Toggling flips the visibility of a listed id and keeps an absent id
   * visible; toggling a listed id twice restores the map.
   */
  lemma ToggleModelMeaning(visibility: map<string, bool>, id: string)
    ensures id in visibility ==> IsVisible(ToggledModel(visibility, id), id) == !IsVisible(visibility, id)
    ensures id !in visibility ==> IsVisible(ToggledModel(visibility, id), id) && IsVisible(visibility, id)
    ensures id in visibility ==> ToggledModel(ToggledModel(visibility, id), id) == visibility
  {
  }

  /** Every model of the table starts visible, and so does any id the table lacks. */
  lemma InitiallyAllVisible(models: seq<BenchModel>, id: string)
    ensures IsVisible(AllVisible(ModelIds(models)), id)
  {
  }

  class Settings {
    const initialVisibility: map<string, bool>
    var modelVisibility: map<string, bool>
    var hideNonOptimal: bool
    var hideLabels: bool

    /** The store over a model table (the benchmark models in the application). */
    constructor(models: seq<BenchModel>)
      ensures initialVisibility == AllVisible(ModelIds(models))
      ensures modelVisibility == initialVisibility && !hideNonOptimal && !hideLabels
    {
      initialVisibility := AllVisible(ModelIds(models));
      modelVisibility := AllVisible(ModelIds(models));
      hideNonOptimal := false;
      hideLabels := false;
    }

    /** isModelVisible: a model is hidden only when its entry says so. */
    predicate IsModelVisible(id: string): (r: bool)
      reads this
      ensures !r <==> id in modelVisibility && !modelVisibility[id]
    {
      IsVisible(modelVisibility, id)
    }

    method ToggleModel(id: string)
      modifies this
      ensures modelVisibility == ToggledModel(old(modelVisibility), id)
      ensures hideNonOptimal == old(hideNonOptimal) && hideLabels == old(hideLabels)
    {
      modelVisibility := ToggledModel(modelVisibility, id);
    }

    method ToggleNonOptimal()
      modifies this
      ensures hideNonOptimal == !old(hideNonOptimal)
      ensures modelVisibility == old(modelVisibility) && hideLabels == old(hideLabels)
    {
      hideNonOptimal := !hideNonOptimal;
    }

    method ToggleLabels()
      modifies this
      ensures hideLabels == !old(hideLabels)
      ensures modelVisibility == old(modelVisibility) && hideNonOptimal == old(hideNonOptimal)
    {
      hideLabels := !hideLabels;
    }

    method ResetSettings()
      modifies this
      ensures modelVisibility == initialVisibility && !hideNonOptimal && !hideLabels
    {
      modelVisibility := initialVisibility;
      hideNonOptimal := false;
      hideLabels := false;
    }
  }
}
