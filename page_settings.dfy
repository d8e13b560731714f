// The page settings store of src/lib/stores/pageSettings.svelte.js: the bar
// chart's sort order and overlays, and the Pareto chart's display flags.

module PageSettings {

  /** The six settings together. */
  datatype Settings = Settings(
    barSortOrder: string,
    showLineOverlay: bool,
    showThresholds: bool,
    showParetoInterpolation: bool,
    showParetoAnnotations: bool,
    showParetoIdealLine: bool)

  const Defaults: Settings := Settings("original", false, false, false, true, false)

  class PageStore {
    var barSortOrder: string
    var showLineOverlay: bool
    var showThresholds: bool
    var showParetoInterpolation: bool
    var showParetoAnnotations: bool
    var showParetoIdealLine: bool

    /** The getters, read together. */
    function Current(): Settings
      reads this
    {
      Settings(barSortOrder, showLineOverlay, showThresholds, showParetoInterpolation,
               showParetoAnnotations, showParetoIdealLine)
    }

    constructor()
      ensures Current() == Defaults
    {
      barSortOrder := "original";
      showLineOverlay := false;
      showThresholds := false;
      showParetoInterpolation := false;
      showParetoAnnotations := true;
      showParetoIdealLine := false;
    }

    method SetBarSortOrder(order: string)
      modifies this
      ensures Current() == old(Current()).(barSortOrder := order)
    {
      barSortOrder := order;
    }

    method SetShowLineOverlay(show: bool)
      modifies this
      ensures Current() == old(Current()).(showLineOverlay := show)
    {
      showLineOverlay := show;
    }

    method SetShowThresholds(show: bool)
      modifies this
      ensures Current() == old(Current()).(showThresholds := show)
    {
      showThresholds := show;
    }

    method SetShowParetoInterpolation(show: bool)
      modifies this
      ensures Current() == old(Current()).(showParetoInterpolation := show)
    {
      showParetoInterpolation := show;
    }

    method SetShowParetoAnnotations(show: bool)
      modifies this
      ensures Current() == old(Current()).(showParetoAnnotations := show)
    {
      showParetoAnnotations := show;
    }

    method SetShowParetoIdealLine(show: bool)
      modifies this
      ensures Current() == old(Current()).(showParetoIdealLine := show)
    {
      showParetoIdealLine := show;
    }

    method ResetPageSettings()
      modifies this
      ensures Current() == Defaults
    {
      barSortOrder := "original";
      showLineOverlay := false;
      showThresholds := false;
      showParetoInterpolation := false;
      showParetoAnnotations := true;
      showParetoIdealLine := false;
    }
  }
}
