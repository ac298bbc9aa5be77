# DORA metrics engine — a Dafny model

This project models the computational core of a small webhook service. The
service receives GitHub delivery events and derives four delivery-performance
indicators per branch: deployment frequency, lead time for changes, time to
restore service and change failure rate. It keeps the latest reading of six
gauges per branch in a metrics store. The model covers:

- **Event normalizer.** It reduces a parsed webhook event to the repository
  and branch to compute for (`Events.Normalize`). Push events strip
  `refs/heads/` from the ref (`Events.BranchFromRef`). Workflow-run events use
  the head branch as given. Every other event yields nothing. The helpers that
  split `owner/name` are `Events.Owner` and `Events.Repo`.
- **Four calculators.** Each one reads one upstream response: a page of
  workflow runs or of issues, or an error. Each exists in two forms. A pure
  reference definition in `Calculators` is built from the filters in
  `Selection` and the mean in `Aggregates`. A `Calculate…` method does what
  the service's loop does: one pass with running counters, then the division.
  Each method's contract says it equals its reference definition. A failed
  fetch gives the zero result.
- **Orchestrator and store.** `Webhook.CalculateDoraMetrics` assembles the
  snapshot. `Store.Record` overwrites the six gauges of the snapshot's branch
  in a `map<(Kind, string), real>`. `Webhook.HandleEvent` ties normalizer,
  calculators and store together.

Conventions:

- An instant is an `int` count of Unix seconds.
- A Go pointer field that may be nil is an `Option`. The nil-safe getter the
  code calls is `GetOr` with the getter's zero value: `""` for strings, and
  for times Go's zero instant, January 1 of year 1 (`GoTime.ZeroTime`).
- `time.Time.Sub` saturates at the signed 64-bit nanosecond range
  (`GoTime.Sub`).
- `Duration.Minutes` and `Duration.Hours` are exact real divisions.
- The current time is a parameter `now`.
- The upstream provider's responses are inputs (`Webhook.Upstream`).

Notes on what the handler's code does:

- Lead time is measured to the run's `UpdatedAt`, not to a completion time.
- Restore time has no client-side 30-day window. The only date filter is the
  request's `Since` parameter, which the provider applies.
- An issue with a missing timestamp is not excluded from restore time. The
  getter substitutes the zero instant, and the saturated difference is
  averaged in.
- A repository name without `/` does not degrade to a zero result. Looking up
  its second part fails, and the handler stops with no snapshot and no store
  change.

## Model

| member | source | states |
|---|---|---|
| Text.TrimPrefix | main.go:313-315 | when the prefix is present, prefix + result is the input; otherwise the input comes back unchanged |
| Text.ContainsIffOccurs | main.go:249 | the substring search used to relate an issue to a branch succeeds exactly when the branch occurs at some index of the body |
| Text.JoinSplit | main.go:305-311 | splitting on "/" loses nothing: joining the parts with "/" gives the name back |
| Text.Split | main.go:305-311 | splitting yields one more part than there are separators, and no part contains the separator |
| Events.BranchFromRef | main.go:313-315 | a ref starting with "refs/heads/" gives the remainder; any other ref is returned unchanged |
| Events.BranchOfHeadsRef | main.go:313-315 | "refs/heads/" + name always gives name back, even when name contains "/" or the prefix again |
| Events.ReleaseRefExample | main.go:313-315 | the ref "refs/heads/release/1.2" names the branch "release/1.2" |
| Events.Owner | main.go:305-307 | the owner is a "/"-free prefix of the full name that ends where the name ends or just before a "/": the text before the first "/", or the whole name without one |
| Events.Repo | main.go:309-311 | the repository part exists exactly when the name contains "/"; without one the lookup of the second part fails |
| Events.RepoIsSecondPart | main.go:309-311 | for a name containing "/", owner + "/" + repository is a prefix of the name ending at its end or just before the next "/": the repository is the text between the first and second "/" |
| Events.OwnerRepoRoundTrip | main.go:305-311 | for a name with exactly one "/", owner + "/" + repository is the name |
| Events.Normalize | main.go:109-124 | only push and workflow-run events yield a (repository, branch): push uses the trimmed ref, workflow run its head branch; ping, check-run, check-suite and unhandled events yield nothing |
| Events.PushTargetsBranch | main.go:110-112 | a push to "refs/heads/" + name targets branch name of the pushed repository |
| GoTime.Cutoff | main.go:183 | an instant is strictly after the cutoff exactly when it is less than thirty days (of 86400 seconds) older than now |
| GoTime.Sub | main.go:217 | the duration between two instants in nanoseconds, saturated to the 64-bit range, with the sign of the difference |
| Aggregates.Mean | main.go:223-226 | the mean is 0 for no readings and otherwise times the count gives the total |
| Aggregates.MeanBounds | main.go:226 | a mean of readings within [lo, hi] lies within [lo, hi] |
| Selection.WindowedMembers | main.go:185-186 | a run is in the window exactly when it was fetched and created strictly after the cutoff, a missing creation time reading as the zero instant |
| Selection.WindowedSkips | main.go:186 | a run created at or before the cutoff leaves the window unchanged, wherever it sits |
| Selection.WindowedKeeps | main.go:186 | a run created after the cutoff enters the window in its own position |
| Selection.ConclusionPartition | main.go:187-191 | every run is counted exactly once, as concluded "success" or as anything else, a missing conclusion included |
| Selection.FailuresAmongUnsuccessful | main.go:282-284 | runs concluded exactly "failure" never outnumber runs not concluded "success" |
| Selection.LeadQualifyingMembers | main.go:216 | a run counts for lead time exactly when it has both timestamps and was created strictly after the cutoff |
| Selection.RelatedMembers | main.go:249 | an issue counts for restore time exactly when its body (missing reads as "") contains the branch |
| Calculators.DeploymentFrequency | main.go:181-197 | successful counts the runs in the window concluded "success", failed counts the other runs in the window, together all of them; frequency is their sum / 30 and is non-negative; a fetch error gives all zeros |
| Calculators.LeadTimeForChanges | main.go:213-228 | 0 on a fetch error or with no qualifying run; otherwise the result times the number of qualifying runs is their total lead time in minutes |
| Calculators.TimeToRestoreService | main.go:245-261 | 0 on a fetch error or with no related issue; otherwise the result times the number of related issues is their total restore time in hours |
| Calculators.ChangeFailureRate | main.go:276-293 | lies in [0, 1]; 0 on a fetch error or an empty window |
| Calculators.FailureRateIsShare | main.go:279-291 | over a non-empty window the failure rate is the number of runs concluded exactly "failure" divided by the window size |
| Calculators.CalculateDeploymentFrequency | main.go:169-197 | the one-pass loop with two counters yields exactly the reference deployment frequency and counts |
| Calculators.CalculateLeadTimeForChanges | main.go:200-229 | the one-pass loop summing qualifying lead times, then dividing, yields exactly the reference lead time |
| Calculators.CalculateTimeToRestoreService | main.go:231-262 | the one-pass loop summing related restore times, then dividing, yields exactly the reference restore time |
| Calculators.CalculateChangeFailureRate | main.go:264-294 | the one-pass loop counting window and failures, then dividing, yields exactly the reference failure rate |
| MetricProperties.StaleRunIgnored | main.go:183-186 | a run created at or before the cutoff, anywhere in the page, does not change deployment frequency or its counts |
| MetricProperties.StaleRunOutsideLeadTime | main.go:215-216 | a run created at or before the cutoff, anywhere in the page, does not change lead time |
| MetricProperties.StaleRunOutsideFailureRate | main.go:278-281 | a run created at or before the cutoff, anywhere in the page, does not change change failure rate |
| MetricProperties.RecentRunCounted | main.go:185-192 | a run created after the cutoff adds one to successful when its conclusion is "success" and one to failed otherwise |
| MetricProperties.RecentRunInFailureRate | main.go:279-285 | a run created after the cutoff adds one to the failure-rate denominator, and one to the numerator exactly when it concluded "failure" |
| MetricProperties.IncompleteRunIgnored | main.go:216 | a run missing its creation or update time does not change lead time |
| MetricProperties.CompleteRunAveraged | main.go:215-220 | a run with both timestamps created after the cutoff adds one to the count and its own minutes to the total |
| MetricProperties.LeadTimeNonNegative | main.go:213-228 | lead time is non-negative when no counted run was updated before it was created |
| MetricProperties.RestoreTimeNonNegative | main.go:245-261 | restore time is non-negative when no related issue was closed before it was opened |
| MetricProperties.UnrelatedIssueIgnored | main.go:247-254 | an issue whose body does not contain the branch does not change restore time |
| MetricProperties.EmptyBranchRelatesEveryIssue | main.go:249 | for an empty branch name every fetched issue is related, since every body contains "" |
| MetricProperties.QuietWindowIsZero | main.go:181-197 | with no run created after the cutoff, frequency, both counts, lead time and failure rate are all 0 |
| MetricProperties.FailureRateWithinFailedShare | main.go:276-293 | over the same runs, failure rate never exceeds the failed share failed / (successful + failed) of deployment frequency's counts |
| MetricProperties.SevenSuccessesThreeFailures | main.go:181-197 | ten recent runs, seven "success" and three "failure", give frequency 1/3, counts 7 and 3, and failure rate 0.3 |
| Store.Record | main.go:296-303 | after recording, the six gauges of the snapshot's branch hold its values, counts as reals; every other branch's entries are untouched; no key is removed |
| Store.LastWriteWins | main.go:296-303 | a second snapshot for the same branch replaces the first completely |
| Store.BranchesIndependent | main.go:296-303 | snapshots for different branches commute: neither touches the other's gauges |
| Webhook.ExpectedSnapshot | main.go:148-167 | the snapshot carries the input branch, frequency = (successful + failed) / 30, and a failure rate in [0, 1] |
| Webhook.CalculateDoraMetrics | main.go:148-167 | a snapshot exists exactly when the repository name contains "/"; it is the four calculators' results for the input branch |
| Webhook.HandleEvent | main.go:109-146 | events that normalize to nothing produce no snapshot and no store change; otherwise a snapshot exists exactly when the name has "/", and then it is recorded for its branch; no snapshot means the store is unchanged |

## Left out

- The HTTP server, body reading, the `"Pong!"` reply and JSON encoding of the snapshot: I/O. A ping event yields no snapshot.
- Webhook signature validation and payload parsing: library calls. The model starts from a parsed `Event`.
- Loading `.env` and environment variables, OAuth client setup and the fatal exit on missing credentials: startup configuration.
- The GitHub API calls: they are replaced by their responses (`Webhook.Upstream`).
  - The provider applies the branch, `status=success`, `state=closed`, `incident` label and `Since` filters. The records it returns are the input as they are.
  - Only the first page of at most 100 records is requested. The model accepts a page of any length.
- Prometheus registration and the exposition format: library code. Only the map semantics of the six labelled gauges is kept.
- Concurrent handlers and per-gauge atomicity: the store is a value, and interleaved writes are not modelled.
- `float64` rounding: readings are exact reals.
- Timestamps are whole seconds, not nanoseconds.
- `time.Now().AddDate(0, 0, -30)` is taken as exactly 30 × 86400 seconds. The calendar step in the local time zone can differ by a daylight-saving hour.
- The lead-time loop reads the clock on every iteration. The model uses one `now` for the whole pass.
- Each calculator reads the clock on its own (main.go:183, 216, 237, 278), so the cutoffs of deployment frequency, lead time and change failure rate, and the `Since` date of the incident request, can differ by the time between those reads. The model gives all calculators of one event the same `now`.
- The panic from a name without `/` is recovered by the HTTP server. The model turns it into "no snapshot, store unchanged".
- Strings are sequences of characters, not bytes. For the ASCII prefix `refs/heads/`, the ASCII separator `/` and substring search on valid UTF-8, the two agree.
- Logging.
