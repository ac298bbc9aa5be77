/** The four indicator calculators. Each has a reference definition, a pure
    function stated with the filters of `Selection`, and a method that does
    what the handler's loop does: one pass over the fetched records with
    running counters, then the division. A failed fetch degrades to the zero
    result. */
module Calculators {
  import opened Optional
  import opened Text
  import opened GoTime
  import opened Records
  import opened Aggregates
  import opened Selection

  /** Deployment frequency with the two counts it is derived from. */
  datatype Deployments = Deployments(frequency: real, successful: nat, failed: nat)

  // ---------------------------------------------------------------------
  // Reference definitions

  /** Runs per day over the window. A run in the window is successful when
      its conclusion is "success" and failed otherwise, whether it failed,
      was cancelled or has not finished. */
  function DeploymentFrequency(fetch: Fetch<Run>, now: int): (d: Deployments)
    ensures fetch.FetchError? ==> d == Deployments(0.0, 0, 0)
    ensures fetch.Fetched? ==> d.successful + d.failed == |Windowed(fetch.items, Cutoff(now))|
    ensures fetch.Fetched? ==> d.successful == CountConclusion(Windowed(fetch.items, Cutoff(now)), Success)
    ensures fetch.Fetched? ==> d.failed == CountOtherConclusion(Windowed(fetch.items, Cutoff(now)), Success)
    ensures d.frequency == (d.successful + d.failed) as real / WindowDays as real
    ensures d.frequency >= 0.0
  {
    match fetch
    case FetchError => Deployments(0.0, 0, 0)
    case Fetched(runs) =>
      var w := Windowed(runs, Cutoff(now));
      ConclusionPartition(w, Success);
      var s := CountConclusion(w, Success);
      var f := CountOtherConclusion(w, Success);
      Deployments((s + f) as real / WindowDays as real, s, f)
  }

  /** Mean minutes from creation to last update over the runs that carry
      both timestamps and were created in the window; 0 when there are none. */
  function LeadTimeForChanges(fetch: Fetch<Run>, now: int): (minutes: real)
    ensures fetch.FetchError? ==> minutes == 0.0
    ensures fetch.Fetched? && |LeadQualifying(fetch.items, Cutoff(now))| == 0 ==> minutes == 0.0
    ensures fetch.Fetched? ==>
      var q := LeadQualifying(fetch.items, Cutoff(now));
      |q| > 0 ==> minutes * |q| as real == Sum(LeadTimesOf(q))
  {
    match fetch
    case FetchError => 0.0
    case Fetched(runs) => Mean(LeadTimesOf(LeadQualifying(runs, Cutoff(now))))
  }

  /** Mean hours from opening to closing over the fetched issues whose body
      mentions the branch; 0 when there are none. */
  function TimeToRestoreService(fetch: Fetch<Issue>, branch: string): (hours: real)
    ensures fetch.FetchError? ==> hours == 0.0
    ensures fetch.Fetched? && |Related(fetch.items, branch)| == 0 ==> hours == 0.0
    ensures fetch.Fetched? ==>
      var rel := Related(fetch.items, branch);
      |rel| > 0 ==> hours * |rel| as real == Sum(RestoreTimesOf(rel))
  {
    match fetch
    case FetchError => 0.0
    case Fetched(issues) => Mean(RestoreTimesOf(Related(issues, branch)))
  }

  /** The share of runs in the window whose conclusion is exactly "failure";
      0 when the window is empty. */
  function ChangeFailureRate(fetch: Fetch<Run>, now: int): (rate: real)
    ensures 0.0 <= rate <= 1.0
    ensures fetch.FetchError? ==> rate == 0.0
    ensures fetch.Fetched? && |Windowed(fetch.items, Cutoff(now))| == 0 ==> rate == 0.0
  {
    match fetch
    case FetchError => 0.0
    case Fetched(runs) =>
      var w := Windowed(runs, Cutoff(now));
      Ratio(CountConclusion(w, Failure), |w|)
  }

  /** Over a non-empty window the failure rate is the number of runs
      concluded exactly "failure" divided by the number of runs. */
  lemma FailureRateIsShare(runs: seq<Run>, now: int)
    ensures
      var w := Windowed(runs, Cutoff(now));
      |w| > 0 ==> ChangeFailureRate(Fetched(runs), now) == CountConclusion(w, Failure) as real / |w| as real
  {
  }

  /** `part` over `whole`, and 0 when `whole` is 0. */
  function Ratio(part: nat, whole: nat): (rate: real)
    requires part <= whole
    ensures 0.0 <= rate <= 1.0
    ensures whole == 0 ==> rate == 0.0
    ensures whole > 0 ==> rate == part as real / whole as real
  {
    if whole == 0 then 0.0
    else
      RatioInUnit(part, whole);
      part as real / whole as real
  }

  // ---------------------------------------------------------------------
  // The loops

  /** One pass over the runs counting those created after the cutoff as
      successful or failed. */
  method CalculateDeploymentFrequency(fetch: Fetch<Run>, now: int) returns (frequency: real, successful: nat, failed: nat)
    ensures Deployments(frequency, successful, failed) == DeploymentFrequency(fetch, now)
  {
    if fetch.FetchError? {
      return 0.0, 0, 0;
    }
    var runs := fetch.items;
    var cutoff := Cutoff(now);
    successful, failed := 0, 0;
    for i := 0 to |runs|
      invariant successful == CountConclusion(Windowed(runs[..i], cutoff), Success)
      invariant failed == CountOtherConclusion(Windowed(runs[..i], cutoff), Success)
    {
      var run := runs[i];
      ghost var w := Windowed(runs[..i], cutoff);
      WindowedPrefix(runs, i, cutoff);
      if After(TimeOr(run.createdAt), cutoff) {
        assert Windowed(runs[..i + 1], cutoff) == w + [run];
        CountSnoc(w, run, Success);
        if TextOr(run.conclusion) == Success {
          successful := successful + 1;
        } else {
          failed := failed + 1;
        }
      } else {
        assert Windowed(runs[..i + 1], cutoff) == w;
      }
    }
    assert runs[..|runs|] == runs;
    frequency := (successful + failed) as real / WindowDays as real;
  }

  /** What one more run does to the lead-time count and total. */
  lemma LeadStep(runs: seq<Run>, i: int, cutoff: int)
    requires 0 <= i < |runs|
    ensures
      var q := LeadQualifying(runs[..i], cutoff);
      var q' := LeadQualifying(runs[..i + 1], cutoff);
      if LeadQualifies(runs[i], cutoff) then
        |q'| == |q| + 1 && Sum(LeadTimesOf(q')) == Sum(LeadTimesOf(q)) + LeadMinutes(runs[i])
      else q' == q
  {
    var q := LeadQualifying(runs[..i], cutoff);
    LeadQualifyingPrefix(runs, i, cutoff);
    if LeadQualifies(runs[i], cutoff) {
      assert LeadTimesOf(q + [runs[i]]) == LeadTimesOf(q) + [LeadMinutes(runs[i])];
      SumSnoc(LeadTimesOf(q), LeadMinutes(runs[i]));
    }
  }

  /** What one more issue does to the restore-time count and total. */
  lemma RestoreStep(issues: seq<Issue>, i: int, branch: string)
    requires 0 <= i < |issues|
    ensures
      var rel := Related(issues[..i], branch);
      var rel' := Related(issues[..i + 1], branch);
      if Contains(TextOr(issues[i].body), branch) then
        |rel'| == |rel| + 1 && Sum(RestoreTimesOf(rel')) == Sum(RestoreTimesOf(rel)) + RestoreHours(issues[i])
      else rel' == rel
  {
    var rel := Related(issues[..i], branch);
    RelatedPrefix(issues, i, branch);
    if Contains(TextOr(issues[i].body), branch) {
      assert RestoreTimesOf(rel + [issues[i]]) == RestoreTimesOf(rel) + [RestoreHours(issues[i])];
      SumSnoc(RestoreTimesOf(rel), RestoreHours(issues[i]));
    }
  }

  /** One pass over the runs summing the lead times of those with both
      timestamps created after the cutoff, then the mean. */
  method CalculateLeadTimeForChanges(fetch: Fetch<Run>, now: int) returns (minutes: real)
    ensures minutes == LeadTimeForChanges(fetch, now)
  {
    if fetch.FetchError? {
      return 0.0;
    }
    var runs := fetch.items;
    var cutoff := Cutoff(now);
    var total := 0.0;
    var count := 0;
    for i := 0 to |runs|
      invariant count == |LeadQualifying(runs[..i], cutoff)|
      invariant total == Sum(LeadTimesOf(LeadQualifying(runs[..i], cutoff)))
    {
      var run := runs[i];
      LeadStep(runs, i, cutoff);
      if run.createdAt.Some? && run.updatedAt.Some? && After(run.createdAt.value, cutoff) {
        total := total + Minutes(Sub(run.updatedAt.value, run.createdAt.value));
        count := count + 1;
      }
    }
    assert runs[..|runs|] == runs;
    if count == 0 {
      return 0.0;
    }
    minutes := total / count as real;
  }

  /** One pass over the issues summing the restore times of those whose body
      mentions the branch, then the mean. */
  method CalculateTimeToRestoreService(fetch: Fetch<Issue>, branch: string) returns (hours: real)
    ensures hours == TimeToRestoreService(fetch, branch)
  {
    if fetch.FetchError? {
      return 0.0;
    }
    var issues := fetch.items;
    var total := 0.0;
    var count := 0;
    for i := 0 to |issues|
      invariant count == |Related(issues[..i], branch)|
      invariant total == Sum(RestoreTimesOf(Related(issues[..i], branch)))
    {
      var issue := issues[i];
      RestoreStep(issues, i, branch);
      if Contains(TextOr(issue.body), branch) {
        total := total + Hours(Sub(TimeOr(issue.closedAt), TimeOr(issue.createdAt)));
        count := count + 1;
      }
    }
    assert issues[..|issues|] == issues;
    if count == 0 {
      return 0.0;
    }
    hours := total / count as real;
  }

  /** One pass over the runs counting those created after the cutoff and,
      among them, those concluded "failure", then the ratio. */
  method CalculateChangeFailureRate(fetch: Fetch<Run>, now: int) returns (rate: real)
    ensures rate == ChangeFailureRate(fetch, now)
  {
    if fetch.FetchError? {
      return 0.0;
    }
    var runs := fetch.items;
    var cutoff := Cutoff(now);
    var total := 0;
    var failed := 0;
    for i := 0 to |runs|
      invariant total == |Windowed(runs[..i], cutoff)|
      invariant failed == CountConclusion(Windowed(runs[..i], cutoff), Failure)
    {
      var run := runs[i];
      ghost var w := Windowed(runs[..i], cutoff);
      WindowedPrefix(runs, i, cutoff);
      if After(TimeOr(run.createdAt), cutoff) {
        assert Windowed(runs[..i + 1], cutoff) == w + [run];
        CountSnoc(w, run, Failure);
        total := total + 1;
        if TextOr(run.conclusion) == Failure {
          failed := failed + 1;
        }
      } else {
        assert Windowed(runs[..i + 1], cutoff) == w;
      }
    }
    assert runs[..|runs|] == runs;
    if total == 0 {
      return 0.0;
    }
    rate := failed as real / total as real;
  }
}
