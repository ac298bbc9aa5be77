/** The records the engine reads and the one it produces: workflow runs and
    incident issues as the upstream provider returns them, the outcome of a
    fetch, and the metric snapshot. */
module Records {
  import opened Optional
  import opened GoTime

  /** The conclusion a run counts as successful under. */
  const Success: string := "success"
  /** The only conclusion the failure rate counts as failed. */
  const Failure: string := "failure"

  /** A workflow run; every field may be missing. A run that has not
      finished has no conclusion. */
  datatype Run = Run(createdAt: Option<int>, updatedAt: Option<int>, conclusion: Option<string>)

  /** An issue; its body associates it with a branch. */
  datatype Issue = Issue(createdAt: Option<int>, closedAt: Option<int>, body: Option<string>)

  /** The outcome of one request to the upstream provider. */
  datatype Fetch<T> = Fetched(items: seq<T>) | FetchError

  /** One computation's result for one branch. */
  datatype Snapshot = Snapshot(
    deploymentFrequency: real,
    leadTimeMinutes: real,
    restoreTimeHours: real,
    changeFailureRate: real,
    successfulDeployments: nat,
    failedDeployments: nat,
    branch: string)

  /** What a nil-safe time getter returns. */
  function TimeOr(t: Option<int>): int
  {
    t.GetOr(ZeroTime)
  }

  /** What a nil-safe string getter returns. */
  function TextOr(s: Option<string>): string
  {
    s.GetOr("")
  }

  /** The run was created strictly after `cutoff`; a run without a creation
      time is dated at the zero instant. */
  predicate InWindow(r: Run, cutoff: int)
  {
    After(TimeOr(r.createdAt), cutoff)
  }

  /** The run carries both timestamps and was created strictly after
      `cutoff`: the runs lead time is measured over. */
  predicate LeadQualifies(r: Run, cutoff: int)
  {
    r.createdAt.Some? && r.updatedAt.Some? && After(r.createdAt.value, cutoff)
  }

  /** From creation to last update, in minutes. */
  function LeadMinutes(r: Run): real
  {
    Minutes(Sub(TimeOr(r.updatedAt), TimeOr(r.createdAt)))
  }

  /** From opening to closing, in hours. */
  function RestoreHours(i: Issue): real
  {
    Hours(Sub(TimeOr(i.closedAt), TimeOr(i.createdAt)))
  }
}
