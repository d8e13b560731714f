// The join helpers of src/lib/utils/endpointsDataUtils.js: submissions are
// joined with their system, model and runs into Pareto curves; the other
// helpers sort submissions by date, pick a submission's runs and choose logos.

module EndpointsData {
  import opened Wrappers
  import opened Seqs
  import opened Sorting
  import opened Strs

  /** A benchmark run: its own fields, plus every other field it carries. */
  datatype Field = Num(n: real) | Text(t: string)

  datatype Run = Run(runId: string, submissionId: string, concurrency: real, extra: map<string, Field>)

  datatype System = System(id: string, systemName: Option<string>, color: Option<string>)

  datatype Model = Model(modelId: string, logoUrl: Option<string>)

  /** A submission; the date is its submission date as an ordered key. */
  datatype Submission = Submission(
    submissionId: string,
    systemId: string,
    modelId: string,
    date: int,
    submitterOrgNames: Option<string>)

  datatype EndpointsDoc = EndpointsDoc(
    submissions: seq<Submission>,
    systems: seq<System>,
    models: seq<Model>,
    runs: seq<Run>)

  datatype ParetoCurve = ParetoCurve(
    id: string,
    systemId: string,
    name: string,
    color: string,
    system: Option<System>,
    model: Option<Model>,
    runs: seq<Run>)

  const DefaultCurveColor: string := "#535869"

  const DefaultRecentLimit: nat := 10

  /** Every field of a run, as `...run` spreads it. */
  function RunFields(r: Run): map<string, Field> {
    r.extra["run_id" := Text(r.runId)]["submission_id" := Text(r.submissionId)]["concurrency" := Num(r.concurrency)]
  }

  /** Runs ordered by concurrency, ascending. */
  function ByConcurrency(): (Run, Run) -> bool {
    (a: Run, b: Run) => a.concurrency <= b.concurrency
  }

  /** Submissions ordered by date, newest first. */
  function NewestFirst(): (Submission, Submission) -> bool {
    (a: Submission, b: Submission) => a.date >= b.date
  }

  function OfSubmission(submissionId: string): Run -> bool {
    (r: Run) => r.submissionId == submissionId
  }

  /** getRunsForSubmission. */
  function GetRunsForSubmission(submissionId: string, runs: seq<Run>): seq<Run> {
    SortBy(Filter(runs, OfSubmission(submissionId)), ByConcurrency())
  }

  /**
   * A submission's runs are exactly its matching runs, each as often as in
   * the input, sorted by concurrency; runs of equal concurrency keep their order.
   */
  lemma RunsForSubmission(submissionId: string, runs: seq<Run>, z: Run)
    ensures var r := GetRunsForSubmission(submissionId, runs);
            && multiset(r) == multiset(Filter(runs, OfSubmission(submissionId)))
            && (forall x :: x in r <==> x in runs && x.submissionId == submissionId)
            && SortedBy(r, ByConcurrency())
            && Ties(r, z, ByConcurrency()) == Ties(Filter(runs, OfSubmission(submissionId)), z, ByConcurrency())
  {
    var f := Filter(runs, OfSubmission(submissionId));
    var r := GetRunsForSubmission(submissionId, runs);
    SortByStable(f, z, ByConcurrency());
    forall x ensures x in r <==> x in f {
      assert x in r <==> x in multiset(r);
      assert x in f <==> x in multiset(f);
    }
  }

  function CurveFor(doc: EndpointsDoc, s: Submission): ParetoCurve {
    var system := Find(doc.systems, (y: System) => y.id == s.systemId);
    var model := Find(doc.models, (m: Model) => m.modelId == s.modelId);
    ParetoCurve(
      s.submissionId,
      s.systemId,
      if system.Some? && system.value.systemName.Some? then system.value.systemName.value else s.submissionId,
      if system.Some? && system.value.color.Some? then system.value.color.value else DefaultCurveColor,
      system,
      model,
      GetRunsForSubmission(s.submissionId, doc.runs))
  }

  /** buildParetoCurves: one curve per submission, in submission order. */
  function BuildParetoCurves(doc: EndpointsDoc): (r: seq<ParetoCurve>)
    ensures |r| == |doc.submissions|
    ensures forall i :: 0 <= i < |r| ==>
              var s := doc.submissions[i];
              && r[i].id == s.submissionId
              && r[i].systemId == s.systemId
              && r[i].runs == GetRunsForSubmission(s.submissionId, doc.runs)
              && (r[i].system.None? <==> forall j :: 0 <= j < |doc.systems| ==> doc.systems[j].id != s.systemId)
              && (r[i].system.None? ==> r[i].name == s.submissionId && r[i].color == DefaultCurveColor)
              && (r[i].system.Some? ==> r[i].system.value.id == s.systemId
                                        && r[i].system.value in doc.systems)
              && (r[i].model.None? <==> forall j :: 0 <= j < |doc.models| ==> doc.models[j].modelId != s.modelId)
              && (r[i].model.Some? ==> r[i].model.value.modelId == s.modelId)
  {
    Map(doc.submissions, s => CurveFor(doc, s))
  }

  /**
   * A curve whose system is known takes that system's name and colour, when it
   * has them; its system and its model are the first in the document with the id.
   */
  lemma CurveNameAndColor(doc: EndpointsDoc, i: nat)
    requires i < |doc.submissions|
    ensures var c := BuildParetoCurves(doc)[i];
            var s := doc.submissions[i];
            && (c.system.Some? && c.system.value.systemName.Some? ==> c.name == c.system.value.systemName.value)
            && (c.system.Some? && c.system.value.systemName.None? ==> c.name == s.submissionId)
            && (c.system.Some? && c.system.value.color.Some? ==> c.color == c.system.value.color.value)
            && (c.system.Some? && c.system.value.color.None? ==> c.color == DefaultCurveColor)
            && (c.system.Some? ==> exists k :: 0 <= k < |doc.systems| && doc.systems[k] == c.system.value
                                     && forall j :: 0 <= j < k ==> doc.systems[j].id != s.systemId)
            && (c.model.Some? ==> exists k :: 0 <= k < |doc.models| && doc.models[k] == c.model.value
                                    && forall j :: 0 <= j < k ==> doc.models[j].modelId != s.modelId)
  {
    assert BuildParetoCurves(doc)[i] == CurveFor(doc, doc.submissions[i]);
  }

  /** getRecentSubmissions: the newest submissions first, at most limit of them. */
  function GetRecentSubmissions(submissions: seq<Submission>, limit: Option<nat>): (r: seq<Submission>)
    ensures var n := limit.GetOr(DefaultRecentLimit);
            && |r| == (if |submissions| <= n then |submissions| else n)
            && multiset(r) <= multiset(submissions)
            && SortedBy(r, NewestFirst())
    ensures r <= SortBy(submissions, NewestFirst())
  {
    var n := limit.GetOr(DefaultRecentLimit);
    var sorted := SortBy(submissions, NewestFirst());
    var r := if |sorted| <= n then sorted else sorted[..n];
    assert sorted == r + sorted[|r|..];
    assert multiset(sorted) == multiset(r) + multiset(sorted[|r|..]);
    r
  }

  /**
   * The sort is stable: the submissions kept that share a date are the first
   * of the submissions with that date, in input order.
   */
  lemma RecentSubmissionsStable(submissions: seq<Submission>, limit: Option<nat>, z: Submission)
    ensures Ties(GetRecentSubmissions(submissions, limit), z, NewestFirst()) <= Ties(submissions, z, NewestFirst())
  {
    var sorted := SortBy(submissions, NewestFirst());
    var r := GetRecentSubmissions(submissions, limit);
    assert sorted == r + sorted[|r|..];
    assert TotalPreorder(NewestFirst());
    SortByStable(submissions, z, NewestFirst());
    TiesAppend(r, sorted[|r|..], z, NewestFirst());
  }

  /** The newest submissions come first, and none left out is newer than one kept. */
  lemma RecentSubmissionsAreNewest(submissions: seq<Submission>, limit: Option<nat>, x: Submission)
    requires x in submissions && x !in GetRecentSubmissions(submissions, limit)
    ensures forall y :: y in GetRecentSubmissions(submissions, limit) ==> y.date >= x.date
  {
    var n := limit.GetOr(DefaultRecentLimit);
    var sorted := SortBy(submissions, NewestFirst());
    var r := GetRecentSubmissions(submissions, limit);
    assert x in multiset(sorted);
    var k :| 0 <= k < |sorted| && sorted[k] == x;
    assert r == sorted[..|r|];
    forall y | y in r ensures y.date >= x.date {
      var j :| 0 <= j < |r| && r[j] == y;
      assert k >= |r|;
    }
  }

  /** getModelLogoUrl: the logo of the first model with the submission's model id. */
  function GetModelLogoUrl(submission: Submission, models: seq<Model>): (r: Option<string>)
    ensures (forall j :: 0 <= j < |models| ==> models[j].modelId != submission.modelId) ==> r.None?
    ensures r.Some? ==> exists i :: 0 <= i < |models| && models[i].modelId == submission.modelId
                                    && models[i].logoUrl == r
                                    && forall j :: 0 <= j < i ==> models[j].modelId != submission.modelId
    ensures forall i :: 0 <= i < |models| && models[i].modelId == submission.modelId
                        && (forall j :: 0 <= j < i ==> models[j].modelId != submission.modelId)
                        ==> r == models[i].logoUrl
  {
    var i := FindIndex(models, (m: Model) => m.modelId == submission.modelId);
    if i == -1 then None else models[i].logoUrl
  }

  /** getHardwareLogoUrl, with the current theme passed in. */
  function GetHardwareLogoUrl(submission: Submission, theme: string): (r: Option<string>)
    ensures var org := ToLower(submission.submitterOrgNames.GetOr(""));
            && (Contains(org, "nvidia") ==>
                  r == Some(if theme == "dark" then "/logos/logo-nvidia-dark.svg" else "/logos/logo-nvidia.svg"))
            && (!Contains(org, "nvidia") && Contains(org, "amd") ==>
                  r == Some(if theme == "dark" then "/logos/logo-amd-dark.svg" else "/logos/logo-amd.svg"))
            && (r.None? <==> !Contains(org, "nvidia") && !Contains(org, "amd"))
  {
    var orgName := if submission.submitterOrgNames.Some? then ToLower(submission.submitterOrgNames.value) else "";
    var isDarkTheme := theme == "dark";
    if Contains(orgName, "nvidia") then
      Some(if isDarkTheme then "/logos/logo-nvidia-dark.svg" else "/logos/logo-nvidia.svg")
    else if Contains(orgName, "amd") then
      Some(if isDarkTheme then "/logos/logo-amd-dark.svg" else "/logos/logo-amd.svg")
    else None
  }

  /** The organisation name is matched without regard to ASCII case. */
  lemma HardwareLogoIgnoresCase(a: Submission, b: Submission, theme: string)
    requires a.submitterOrgNames.Some? && b.submitterOrgNames.Some?
    requires ToLower(a.submitterOrgNames.value) == ToLower(b.submitterOrgNames.value)
    ensures GetHardwareLogoUrl(a, theme) == GetHardwareLogoUrl(b, theme)
  {
  }
}
