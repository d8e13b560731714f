// The cascading filter store of src/lib/stores/benchmarkFilters.svelte.js:
// a version, a model and four multi-selections narrow a fixed table of
// benchmark results; each level lists the values still available below it.

module BenchmarkFilters {
  import opened Seqs
  import opened Sorting
  import opened Strs

  datatype BenchmarkResult = BenchmarkResult(
    id: string,
    version: string,
    model: string,
    scenario: string,
    organization: string,
    accelerator: string,
    acceleratorCount: nat,
    systemName: string,
    performance: real)

  /** An `{ id, label }` option of a selector; the label is `caption` here. */
  datatype Choice = Choice(id: string, caption: string)

  /** The six selection fields of the store. */
  datatype Selection = Selection(
    version: string,
    model: string,
    scenarios: seq<string>,
    organizations: seq<string>,
    accelerators: seq<string>,
    acceleratorCounts: seq<string>)

  /** The summary of the filtered results; the average is left out. */
  datatype Stats = Stats(totalSubmissions: nat, uniqueOrgs: nat, uniqueAccelerators: nat, maxPerformance: real)

  const VersionOptions: seq<Choice> :=
    [Choice("v5.1", "v5.1"), Choice("v5.0", "v5.0"), Choice("v4.1", "v4.1"), Choice("v4.0", "v4.0")]

  const ScenarioOptions: seq<Choice> := [Choice("Offline", "Offline"), Choice("Server", "Server")]

  const DefaultVersion: string := "v5.1"

  const DefaultScenarios: seq<string> := ["Offline", "Server"]

  const SampleData: seq<BenchmarkResult> := [
    BenchmarkResult("1", "v5.1", "llama3.1-8b-datacenter", "Offline", "RedHat", "NVIDIA H100-SXM-80GB", 1,
                    "Dell PowerEdge XE8640 (1xH100-SXM-80GB vLLM)", 5776.32),
    BenchmarkResult("2", "v5.1", "llama3.1-8b-datacenter", "Offline", "RedHat", "NVIDIA L40S", 1,
                    "IBM Cloud gx3 instance 1xL40S-PCIE-48GB vLLM", 1641.89),
    BenchmarkResult("3", "v5.1", "llama3.1-8b-datacenter", "Server", "RedHat", "NVIDIA H100-SXM-80GB", 1,
                    "Dell PowerEdge XE8640 (1xH100-SXM-80GB vLLM)", 5102.45),
    BenchmarkResult("4", "v5.1", "llama3.1-8b-datacenter", "Server", "RedHat", "NVIDIA L40S", 1,
                    "IBM Cloud gx3 instance 1xL40S-PCIE-48GB vLLM", 1366.21),
    BenchmarkResult("5", "v5.1", "llama3.1-8b-datacenter", "Offline", "NVIDIA", "NVIDIA H100-SXM-80GB", 8,
                    "NVIDIA DGX H100 (8xH100-SXM-80GB TensorRT-LLM)", 42156.78),
    BenchmarkResult("6", "v5.1", "llama3.1-8b-datacenter", "Server", "NVIDIA", "NVIDIA H100-SXM-80GB", 8,
                    "NVIDIA DGX H100 (8xH100-SXM-80GB TensorRT-LLM)", 38921.34),
    BenchmarkResult("7", "v5.1", "llama3.1-70b-datacenter", "Offline", "NVIDIA", "NVIDIA H100-SXM-80GB", 8,
                    "NVIDIA DGX H100 (8xH100-SXM-80GB TensorRT-LLM)", 8234.56),
    BenchmarkResult("8", "v5.1", "llama3.1-70b-datacenter", "Server", "NVIDIA", "NVIDIA H100-SXM-80GB", 8,
                    "NVIDIA DGX H100 (8xH100-SXM-80GB TensorRT-LLM)", 7456.23),
    BenchmarkResult("9", "v5.1", "llama3.1-70b-datacenter", "Offline", "Intel", "Intel Gaudi2", 8,
                    "Intel Gaudi2 Server (8xGaudi2)", 4521.67),
    BenchmarkResult("10", "v5.0", "llama2-70b-datacenter", "Offline", "NVIDIA", "NVIDIA H100-SXM-80GB", 8,
                    "NVIDIA DGX H100 (8xH100-SXM-80GB TensorRT-LLM)", 7856.34),
    BenchmarkResult("11", "v5.0", "llama2-70b-datacenter", "Server", "NVIDIA", "NVIDIA H100-SXM-80GB", 8,
                    "NVIDIA DGX H100 (8xH100-SXM-80GB TensorRT-LLM)", 7123.45),
    BenchmarkResult("12", "v5.0", "gpt-j-datacenter", "Offline", "Dell", "NVIDIA A100-SXM-80GB", 4,
                    "Dell PowerEdge R750xa (4xA100-SXM-80GB)", 12456.78),
    BenchmarkResult("13", "v4.1", "bert-large", "Offline", "NVIDIA", "NVIDIA A100-SXM-80GB", 8,
                    "NVIDIA DGX A100 (8xA100-SXM-80GB)", 45678.9),
    BenchmarkResult("14", "v4.1", "bert-large", "Server", "NVIDIA", "NVIDIA A100-SXM-80GB", 8,
                    "NVIDIA DGX A100 (8xA100-SXM-80GB)", 42345.67),
    BenchmarkResult("15", "v4.1", "resnet50", "Offline", "Qualcomm", "Qualcomm Cloud AI 100", 16,
                    "Qualcomm Cloud AI 100 Server", 123456.78)
  ]

  /** An empty multi-selection admits everything; otherwise v must be selected. */
  predicate Admits(selected: seq<string>, v: string) {
    |selected| == 0 || v in selected
  }

  function AsChoices(values: seq<string>): (r: seq<Choice>)
    ensures |r| == |values| && forall i :: 0 <= i < |r| ==> r[i] == Choice(values[i], values[i])
  {
    Map(values, (v: string) => Choice(v, v))
  }

  function OfVersion(version: string): BenchmarkResult -> bool {
    (d: BenchmarkResult) => d.version == version
  }

  function OfVersionAndModel(version: string, model: string): BenchmarkResult -> bool {
    (d: BenchmarkResult) => d.version == version && d.model == model
  }

  /** getDataByVersion. */
  function DataByVersion(data: seq<BenchmarkResult>, sel: Selection): seq<BenchmarkResult> {
    Filter(data, OfVersion(sel.version))
  }

  /** getDataByVersionAndModel. */
  function DataByVersionAndModel(data: seq<BenchmarkResult>, sel: Selection): seq<BenchmarkResult> {
    Filter(data, OfVersionAndModel(sel.version, sel.model))
  }

  /** The models of a version, each once, in order of first appearance. */
  function ModelsOf(data: seq<BenchmarkResult>, version: string): (r: seq<string>)
    ensures NoDuplicates(r)
    ensures forall m :: m in r <==> exists d :: d in data && d.version == version && d.model == m
    ensures InFirstAppearanceOrder(r, Filter(data, OfVersion(version)), ModelField())
  {
    Values(Filter(data, OfVersion(version)), ModelField())
  }

  function ModelField(): BenchmarkResult -> string {
    (d: BenchmarkResult) => d.model
  }

  function ScenarioField(): BenchmarkResult -> string {
    (d: BenchmarkResult) => d.scenario
  }

  function OrganizationField(): BenchmarkResult -> string {
    (d: BenchmarkResult) => d.organization
  }

  function AcceleratorField(): BenchmarkResult -> string {
    (d: BenchmarkResult) => d.accelerator
  }

  function Ids(r: seq<Choice>): seq<string> {
    Map(r, (c: Choice) => c.id)
  }

  /**
   * The options offered for a field: each value the field takes on the rows,
   * once, as id and label, in the order the values first appear.
   */
  ghost predicate OptionsOf(r: seq<Choice>, rows: seq<BenchmarkResult>, f: BenchmarkResult -> string) {
    && (forall i :: 0 <= i < |r| ==> r[i].caption == r[i].id)
    && NoDuplicates(Ids(r))
    && (forall v :: v in Ids(r) <==> exists d :: d in rows && f(d) == v)
    && InFirstAppearanceOrder(Ids(r), rows, f)
  }

  lemma ChoicesOfValues(rows: seq<BenchmarkResult>, f: BenchmarkResult -> string)
    ensures OptionsOf(AsChoices(Values(rows, f)), rows, f)
  {
    var v := Values(rows, f);
    assert Ids(AsChoices(v)) == v;
  }

  /** getAvailableModels: the models of the selected version. */
  function AvailableModels(data: seq<BenchmarkResult>, sel: Selection): (r: seq<Choice>)
    ensures OptionsOf(r, Filter(data, OfVersion(sel.version)), ModelField())
  {
    ChoicesOfValues(Filter(data, OfVersion(sel.version)), ModelField());
    AsChoices(ModelsOf(data, sel.version))
  }

  /** The model a version change selects: the version's first model, or "" when it has none. */
  function FirstModel(data: seq<BenchmarkResult>, version: string): (m: string)
    ensures (forall d :: d in data ==> d.version != version) ==> m == ""
    ensures forall i :: (0 <= i < |data| && data[i].version == version &&
                         forall j :: 0 <= j < i ==> data[j].version != version) ==> m == data[i].model
  {
    var models := ModelsOf(data, version);
    if |models| > 0 then
      assert models[0] in models;
      forall i | 0 <= i < |data| && data[i].version == version
                 && (forall j :: 0 <= j < i ==> data[j].version != version)
        ensures models[0] == data[i].model
      {
        FilterFirst(data, OfVersion(version), i);
      }
      models[0]
    else
      assert forall d :: d in data ==> d.version != version;
      ""
  }

  /** The distinct values f takes on the given results, in order of first appearance. */
  function Values(data: seq<BenchmarkResult>, f: BenchmarkResult -> string): (r: seq<string>)
    ensures NoDuplicates(r)
    ensures forall v :: v in r <==> exists d :: d in data && f(d) == v
    ensures data != [] ==> r != [] && r[0] == f(data[0])
    ensures InFirstAppearanceOrder(r, data, f)
  {
    var values := Map(data, f);
    assert forall d :: d in data ==> f(d) in values by {
      forall d | d in data ensures f(d) in values {
        var i :| 0 <= i < |data| && data[i] == d;
        assert values[i] == f(d);
      }
    }
    DistinctValuesInOrder(data, f);
    Distinct(values)
  }

  /** getAvailableScenarios: the scenarios of the selected version and model. */
  function AvailableScenarios(data: seq<BenchmarkResult>, sel: Selection): (r: seq<Choice>)
    ensures OptionsOf(r, DataByVersionAndModel(data, sel), ScenarioField())
  {
    ChoicesOfValues(DataByVersionAndModel(data, sel), ScenarioField());
    AsChoices(Values(DataByVersionAndModel(data, sel), ScenarioField()))
  }

  function ScenarioAdmitted(sel: Selection): BenchmarkResult -> bool {
    (d: BenchmarkResult) => Admits(sel.scenarios, d.scenario)
  }

  function OrganizationAdmitted(sel: Selection): BenchmarkResult -> bool {
    (d: BenchmarkResult) => Admits(sel.scenarios, d.scenario) && Admits(sel.organizations, d.organization)
  }

  function AcceleratorAdmitted(sel: Selection): BenchmarkResult -> bool {
    (d: BenchmarkResult) =>
      Admits(sel.scenarios, d.scenario) && Admits(sel.organizations, d.organization)
      && Admits(sel.accelerators, d.accelerator)
  }

  /** getAvailableOrganizations: the organisations of the rows the scenario selection admits. */
  function AvailableOrganizations(data: seq<BenchmarkResult>, sel: Selection): (r: seq<Choice>)
    ensures OptionsOf(r, Filter(DataByVersionAndModel(data, sel), ScenarioAdmitted(sel)), OrganizationField())
  {
    var rows := Filter(DataByVersionAndModel(data, sel), ScenarioAdmitted(sel));
    ChoicesOfValues(rows, OrganizationField());
    AsChoices(Values(rows, OrganizationField()))
  }

  /** getAvailableAccelerators: the accelerators of the rows the scenario and organisation selections admit. */
  function AvailableAccelerators(data: seq<BenchmarkResult>, sel: Selection): (r: seq<Choice>)
    ensures OptionsOf(r, Filter(DataByVersionAndModel(data, sel), OrganizationAdmitted(sel)), AcceleratorField())
  {
    var rows := Filter(DataByVersionAndModel(data, sel), OrganizationAdmitted(sel));
    ChoicesOfValues(rows, AcceleratorField());
    AsChoices(Values(rows, AcceleratorField()))
  }

  function Ascending(): (nat, nat) -> bool {
    (a: nat, b: nat) => a <= b
  }

  /**
   * The accelerator counts still available: each once, in strictly
   * increasing numeric order.
   */
  function AcceleratorCountValues(data: seq<BenchmarkResult>, sel: Selection): (r: seq<nat>)
    ensures forall i, j :: 0 <= i < j < |r| ==> r[i] < r[j]
    ensures forall c :: c in r <==>
              exists d :: d in data && OfVersionAndModel(sel.version, sel.model)(d)
                          && AcceleratorAdmitted(sel)(d) && d.acceleratorCount == c
  {
    var admitted := Filter(DataByVersionAndModel(data, sel), AcceleratorAdmitted(sel));
    var counts := CountsOf(admitted);
    CountsOfAdmitted(admitted);
    var distinct := Distinct(counts);
    assert TotalPreorder(Ascending());
    var sorted := SortBy(distinct, Ascending());
    SortedDistinctIncreasing(distinct, sorted);
    sorted
  }

  /** The accelerator count of each row, in row order. */
  function CountsOf(rows: seq<BenchmarkResult>): seq<nat> {
    Map(rows, (d: BenchmarkResult) => d.acceleratorCount)
  }

  /** The counts list holds exactly the counts of the admitted rows. */
  lemma CountsOfAdmitted(admitted: seq<BenchmarkResult>)
    ensures forall c :: c in CountsOf(admitted) <==> exists d :: d in admitted && d.acceleratorCount == c
  {
    var counts := CountsOf(admitted);
    forall d | d in admitted ensures d.acceleratorCount in counts {
      var i :| 0 <= i < |admitted| && admitted[i] == d;
      assert counts[i] == d.acceleratorCount;
    }
  }

  /** An ascending permutation of a list without duplicates is strictly increasing. */
  lemma SortedDistinctIncreasing(s: seq<nat>, r: seq<nat>)
    requires NoDuplicates(s) && multiset(r) == multiset(s) && SortedBy(r, Ascending())
    ensures forall i, j :: 0 <= i < j < |r| ==> r[i] < r[j]
    ensures forall c :: c in r <==> c in s
  {
    PermutationNoDuplicates(s, r);
    forall c ensures c in r <==> c in s {
      assert c in r <==> c in multiset(r);
      assert c in s <==> c in multiset(s);
    }
    forall i, j | 0 <= i < j < |r| ensures r[i] < r[j] {
      assert Ascending()(r[i], r[j]) && r[i] != r[j];
    }
  }

  /** getAvailableAcceleratorCounts: the counts as strings. */
  function AvailableAcceleratorCounts(data: seq<BenchmarkResult>, sel: Selection): (r: seq<Choice>)
    ensures |r| == |AcceleratorCountValues(data, sel)|
    ensures forall i :: 0 <= i < |r| ==> r[i].id == NatToString(AcceleratorCountValues(data, sel)[i]) && r[i].caption == r[i].id
  {
    Map(AcceleratorCountValues(data, sel), (c: nat) => Choice(NatToString(c), NatToString(c)))
  }

  /** The filter of getFilteredResults; accelerator counts are compared as strings. */
  predicate Matches(sel: Selection, d: BenchmarkResult) {
    && d.version == sel.version
    && (sel.model == "" || d.model == sel.model)
    && Admits(sel.scenarios, d.scenario)
    && Admits(sel.organizations, d.organization)
    && Admits(sel.accelerators, d.accelerator)
    && Admits(sel.acceleratorCounts, NatToString(d.acceleratorCount))
  }

  function MatchesP(sel: Selection): BenchmarkResult -> bool {
    (d: BenchmarkResult) => Matches(sel, d)
  }

  /** getFilteredResults. */
  function FilteredResults(data: seq<BenchmarkResult>, sel: Selection): (r: seq<BenchmarkResult>)
    ensures forall d :: d in r <==> d in data && Matches(sel, d)
    ensures forall d :: d in r ==> d.version == sel.version && (sel.model != "" ==> d.model == sel.model)
  {
    Filter(data, MatchesP(sel))
  }

  /** The filtered results are the sample rows they came from, in table order. */
  lemma FilteredResultsInOrder(data: seq<BenchmarkResult>, sel: Selection)
    ensures IsSubsequence(FilteredResults(data, sel), data)
    ensures |FilteredResults(data, sel)| <= |data|
  {
    FilterIsSubsequence(data, MatchesP(sel));
  }

  /** With no model and nothing selected below it, only the version filters. */
  lemma EmptySelectionsAdmitAll(data: seq<BenchmarkResult>, version: string)
    ensures FilteredResults(data, Selection(version, "", [], [], [], [])) == DataByVersion(data, Selection(version, "", [], [], [], []))
  {
    var sel := Selection(version, "", [], [], [], []);
    FilterExtensional(data, MatchesP(sel), OfVersion(version));
  }

  /** Math.max over a non-empty list. */
  function MaxOf(s: seq<real>): (m: real)
    requires s != []
    ensures m in s && forall x :: x in s ==> x <= m
  {
    if |s| == 1 then s[0]
    else
      var rest := MaxOf(s[1..]);
      assert s == [s[0]] + s[1..];
      if s[0] >= rest then s[0] else rest
  }

  /** Math.max of the performances, or 0 for no results. */
  function MaxPerformance(results: seq<BenchmarkResult>): (m: real)
    ensures results == [] ==> m == 0.0
    ensures results != [] ==>
              (exists d :: d in results && d.performance == m)
              && forall d :: d in results ==> d.performance <= m
  {
    var performances := Map(results, (d: BenchmarkResult) => d.performance);
    if |performances| == 0 then 0.0
    else
      var max := MaxOf(performances);
      assert forall d :: d in results ==> d.performance <= max by {
        forall d | d in results ensures d.performance <= max {
          var i :| 0 <= i < |results| && results[i] == d;
          assert performances[i] in performances;
        }
      }
      max
  }

  /** getFilteredStats, without the average. */
  function FilteredStats(data: seq<BenchmarkResult>, sel: Selection): (r: Stats)
    ensures r.totalSubmissions == |FilteredResults(data, sel)|
    ensures r.uniqueOrgs == CountDistinct(Map(FilteredResults(data, sel), OrganizationField()))
    ensures r.uniqueAccelerators == CountDistinct(Map(FilteredResults(data, sel), AcceleratorField()))
    ensures FilteredResults(data, sel) == [] ==> r.maxPerformance == 0.0
  {
    var results := FilteredResults(data, sel);
    var orgs := Map(results, OrganizationField());
    var accelerators := Map(results, AcceleratorField());
    DistinctCount(orgs);
    DistinctCount(accelerators);
    Stats(|results|, |Distinct(orgs)|, |Distinct(accelerators)|, MaxPerformance(results))
  }

  /** Over the sample table the store starts on the first v5.1 model. */
  lemma InitialModel()
    ensures FirstModel(SampleData, DefaultVersion) == "llama3.1-8b-datacenter"
  {
    var data := SampleData;
    assert data[0].version == DefaultVersion && data[0].model == "llama3.1-8b-datacenter";
  }

  /** A toggle: remove every occurrence of v if present, else append it. */
  function Toggle(selected: seq<string>, v: string): (r: seq<string>)
    ensures v in r <==> v !in selected
    ensures forall w :: w != v ==> (w in r <==> w in selected)
  {
    if v in selected then Filter(selected, (w: string) => w != v) else selected + [v]
  }

  /** Toggling twice restores which values are selected. */
  lemma ToggleTwice(selected: seq<string>, v: string)
    ensures forall w :: w in Toggle(Toggle(selected, v), v) <==> w in selected
    ensures v !in selected ==> Toggle(Toggle(selected, v), v) == selected
  {
    if v !in selected {
      FilterAll(selected, (w: string) => w != v);
      FilterAppend(selected, [v], (w: string) => w != v);
    }
  }

  /** The store: six selection fields, updated by the setters and toggles. */
  class FilterStore {
    /** The benchmark table the store filters. */
    const data: seq<BenchmarkResult>
    var version: string
    var model: string
    var scenarios: seq<string>
    var organizations: seq<string>
    var accelerators: seq<string>
    var acceleratorCounts: seq<string>

    function Current(): Selection
      reads this
    {
      Selection(version, model, scenarios, organizations, accelerators, acceleratorCounts)
    }

    /**
     * The initial state over a table (the store is built over SampleData),
     * after the start-up selection of the first model.
     */
    constructor(table: seq<BenchmarkResult>)
      ensures data == table
      ensures Current() == Selection(DefaultVersion, FirstModel(table, DefaultVersion), DefaultScenarios, [], [], [])
    {
      data := table;
      version := DefaultVersion;
      model := FirstModel(table, DefaultVersion);
      scenarios := DefaultScenarios;
      organizations := [];
      accelerators := [];
      acceleratorCounts := [];
    }

    /** setVersion: the version's first model, both scenarios, nothing else selected. */
    method SetVersion(v: string)
      modifies this
      ensures Current() == Selection(v, FirstModel(data, v), DefaultScenarios, [], [], [])
    {
      version := v;
      var models := ModelsOf(data, v);
      model := if |models| > 0 then models[0] else "";
      scenarios := DefaultScenarios;
      organizations := [];
      accelerators := [];
      acceleratorCounts := [];
    }

    /** setModel: keeps version and scenarios, clears the selections below. */
    method SetModel(m: string)
      modifies this
      ensures Current() == Selection(old(version), m, old(scenarios), [], [], [])
    {
      model := m;
      organizations := [];
      accelerators := [];
      acceleratorCounts := [];
    }

    method ToggleScenario(s: string)
      modifies this
      ensures Current() == old(Current()).(scenarios := Toggle(old(scenarios), s))
    {
      scenarios := Toggle(scenarios, s);
    }

    method SetScenarios(ss: seq<string>)
      modifies this
      ensures Current() == old(Current()).(scenarios := ss)
    {
      scenarios := ss;
    }

    method ToggleOrganization(o: string)
      modifies this
      ensures Current() == old(Current()).(organizations := Toggle(old(organizations), o))
    {
      organizations := Toggle(organizations, o);
    }

    method SetOrganizations(os: seq<string>)
      modifies this
      ensures Current() == old(Current()).(organizations := os)
    {
      organizations := os;
    }

    method ToggleAccelerator(a: string)
      modifies this
      ensures Current() == old(Current()).(accelerators := Toggle(old(accelerators), a))
    {
      accelerators := Toggle(accelerators, a);
    }

    method SetAccelerators(as_: seq<string>)
      modifies this
      ensures Current() == old(Current()).(accelerators := as_)
    {
      accelerators := as_;
    }

    method ToggleAcceleratorCount(c: string)
      modifies this
      ensures Current() == old(Current()).(acceleratorCounts := Toggle(old(acceleratorCounts), c))
    {
      acceleratorCounts := Toggle(acceleratorCounts, c);
    }

    method SetAcceleratorCounts(cs: seq<string>)
      modifies this
      ensures Current() == old(Current()).(acceleratorCounts := cs)
    {
      acceleratorCounts := cs;
    }

    /** selectAllOrganizations: every organization still available. */
    method SelectAllOrganizations()
      modifies this
      ensures Current() == old(Current()).(organizations := Map(AvailableOrganizations(data, old(Current())), (c: Choice) => c.id))
    {
      organizations := Map(AvailableOrganizations(data, Current()), (c: Choice) => c.id);
    }

    /** resetFilters: the initial state again. */
    method ResetFilters()
      modifies this
      ensures Current() == Selection(DefaultVersion, FirstModel(data, DefaultVersion), DefaultScenarios, [], [], [])
    {
      version := DefaultVersion;
      var models := ModelsOf(data, DefaultVersion);
      model := if |models| > 0 then models[0] else "";
      scenarios := DefaultScenarios;
      organizations := [];
      accelerators := [];
      acceleratorCounts := [];
    }

    /** clearFilters: everything but the version is emptied. */
    method ClearFilters()
      modifies this
      ensures Current() == Selection(old(version), "", [], [], [], [])
    {
      model := "";
      scenarios := [];
      organizations := [];
      accelerators := [];
      acceleratorCounts := [];
    }
  }

}
