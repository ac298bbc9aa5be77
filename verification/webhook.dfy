/** The webhook's computation path: normalize the event, run the four
    calculators over what the upstream provider returned, assemble the
    snapshot and record it in the store. The provider's four responses are
    inputs, and so is the current time. */
module Webhook {
  import opened Optional
  import opened Text
  import opened GoTime
  import opened Records
  import opened Calculators
  import opened Events
  import opened Store

  /** What the provider returned to each calculator's request: all runs of
      the branch, its successful runs, its closed incident issues, and all
      its runs again. */
  datatype Upstream = Upstream(
    deploymentRuns: Fetch<Run>,
    leadTimeRuns: Fetch<Run>,
    incidents: Fetch<Issue>,
    failureRateRuns: Fetch<Run>)

  /** The snapshot the reference definitions give for `branch`. */
  function ExpectedSnapshot(branch: string, now: int, up: Upstream): (m: Snapshot)
    ensures m.branch == branch
    ensures m.deploymentFrequency == (m.successfulDeployments + m.failedDeployments) as real / WindowDays as real
    ensures 0.0 <= m.changeFailureRate <= 1.0
  {
    var d := DeploymentFrequency(up.deploymentRuns, now);
    Snapshot(
      d.frequency,
      LeadTimeForChanges(up.leadTimeRuns, now),
      TimeToRestoreService(up.incidents, branch),
      ChangeFailureRate(up.failureRateRuns, now),
      d.successful,
      d.failed,
      branch)
  }

  /** Runs the four calculators for `branch` and assembles their results.
      Every calculator request names the owner and the repository; a name
      without "/" has no repository part, the first lookup fails and the
      handler stops before any result exists. No other error is possible:
      a failed fetch only zeroes that one calculator's result. */
  method CalculateDoraMetrics(repoFullName: string, branch: string, now: int, up: Upstream) returns (r: Option<Snapshot>)
    ensures r.Some? <==> '/' in repoFullName
    ensures r.Some? ==> r.value == ExpectedSnapshot(branch, now, up)
    ensures r.Some? ==> r.value.branch == branch
  {
    if Repo(repoFullName).None? {
      return None;
    }
    var frequency, successful, failed := CalculateDeploymentFrequency(up.deploymentRuns, now);
    var lead := CalculateLeadTimeForChanges(up.leadTimeRuns, now);
    var restore := CalculateTimeToRestoreService(up.incidents, branch);
    var rate := CalculateChangeFailureRate(up.failureRateRuns, now);
    r := Some(Snapshot(frequency, lead, restore, rate, successful, failed, branch));
  }

  /** Handles one parsed event against `store`. Push and workflow-run events
      compute a snapshot for their branch, record it and reply with it;
      every other event, and a computation that stopped, leaves the store
      as it was and produces no snapshot. */
  method HandleEvent(e: Event, now: int, up: Upstream, store: Store) returns (reply: Option<Snapshot>, store': Store)
    ensures Normalize(e).None? ==> reply.None?
    ensures Normalize(e).Some? ==> (reply.Some? <==> '/' in Normalize(e).value.repoFullName)
    ensures reply.None? ==> store' == store
    ensures reply.Some? ==> reply.value == ExpectedSnapshot(Normalize(e).value.branch, now, up)
    ensures reply.Some? ==> store' == Record(store, reply.value)
  {
    var target := Normalize(e);
    if target.None? {
      return None, store;
    }
    reply := CalculateDoraMetrics(target.value.repoFullName, target.value.branch, now, up);
    if reply.None? {
      return None, store;
    }
    store' := Record(store, reply.value);
  }
}
