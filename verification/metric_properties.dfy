/** What the four indicators promise about the records they are computed
    from: which records count, which are ignored, and the ranges and zero
    cases of the results. */
module MetricProperties {
  import opened Optional
  import opened Text
  import opened GoTime
  import opened Records
  import opened Aggregates
  import opened Selection
  import opened Calculators

  /** A run created at or before the cutoff (thirty days before `now`) does
      not change deployment frequency, wherever it sits in the fetched page:
      the window test is strictly "after". */
  lemma StaleRunIgnored(a: seq<Run>, b: seq<Run>, r: Run, now: int)
    requires TimeOr(r.createdAt) <= Cutoff(now)
    ensures DeploymentFrequency(Fetched(a + [r] + b), now) == DeploymentFrequency(Fetched(a + b), now)
  {
    WindowedSkips(a, b, r, Cutoff(now));
  }

  /** Nor does such a run change lead time. */
  lemma StaleRunOutsideLeadTime(a: seq<Run>, b: seq<Run>, r: Run, now: int)
    requires TimeOr(r.createdAt) <= Cutoff(now)
    ensures LeadTimeForChanges(Fetched(a + [r] + b), now) == LeadTimeForChanges(Fetched(a + b), now)
  {
    LeadQualifyingSkips(a, b, r, Cutoff(now));
  }

  /** Nor does such a run change change failure rate. */
  lemma StaleRunOutsideFailureRate(a: seq<Run>, b: seq<Run>, r: Run, now: int)
    requires TimeOr(r.createdAt) <= Cutoff(now)
    ensures ChangeFailureRate(Fetched(a + [r] + b), now) == ChangeFailureRate(Fetched(a + b), now)
  {
    WindowedSkips(a, b, r, Cutoff(now));
  }

  /** A run created after the cutoff is counted once by deployment frequency:
      as successful when its conclusion is "success", as failed otherwise. */
  lemma RecentRunCounted(a: seq<Run>, b: seq<Run>, r: Run, now: int)
    requires InWindow(r, Cutoff(now))
    ensures
      var before := DeploymentFrequency(Fetched(a + b), now);
      var after := DeploymentFrequency(Fetched(a + [r] + b), now);
      && after.successful == before.successful + (if TextOr(r.conclusion) == Success then 1 else 0)
      && after.failed == before.failed + (if TextOr(r.conclusion) == Success then 0 else 1)
  {
    var c := Cutoff(now);
    var wa, wb := Windowed(a, c), Windowed(b, c);
    WindowedKeeps(a, b, r, c);
    WindowedAppend(a, b, c);
    CountAppend(wa + [r], wb, Success);
    CountAppend(wa, wb, Success);
    CountSnoc(wa, r, Success);
  }

  /** A run created after the cutoff adds one to the change-failure
      denominator, and one to its numerator exactly when it concluded "failure". */
  lemma RecentRunInFailureRate(a: seq<Run>, b: seq<Run>, r: Run, now: int)
    requires InWindow(r, Cutoff(now))
    ensures
      var c := Cutoff(now);
      && |Windowed(a + [r] + b, c)| == |Windowed(a + b, c)| + 1
      && CountConclusion(Windowed(a + [r] + b, c), Failure)
         == CountConclusion(Windowed(a + b, c), Failure) + (if TextOr(r.conclusion) == Failure then 1 else 0)
  {
    var c := Cutoff(now);
    var wa, wb := Windowed(a, c), Windowed(b, c);
    WindowedKeeps(a, b, r, c);
    WindowedAppend(a, b, c);
    CountAppend(wa + [r], wb, Failure);
    CountAppend(wa, wb, Failure);
    CountSnoc(wa, r, Failure);
  }

  /** A run missing either timestamp is ignored by lead time. */
  lemma IncompleteRunIgnored(a: seq<Run>, b: seq<Run>, r: Run, now: int)
    requires r.createdAt.None? || r.updatedAt.None?
    ensures LeadTimeForChanges(Fetched(a + [r] + b), now) == LeadTimeForChanges(Fetched(a + b), now)
  {
    LeadQualifyingSkips(a, b, r, Cutoff(now));
  }

  /** A run with both timestamps created after the cutoff is averaged in:
      it adds one to the count and its own lead time to the total. */
  lemma CompleteRunAveraged(a: seq<Run>, b: seq<Run>, r: Run, now: int)
    requires LeadQualifies(r, Cutoff(now))
    ensures
      var q := LeadQualifying(a + b, Cutoff(now));
      var q' := LeadQualifying(a + [r] + b, Cutoff(now));
      && |q'| == |q| + 1
      && Sum(LeadTimesOf(q')) == Sum(LeadTimesOf(q)) + LeadMinutes(r)
  {
    var c := Cutoff(now);
    var qa, qb := LeadQualifying(a, c), LeadQualifying(b, c);
    var ta, tb := LeadTimesOf(qa), LeadTimesOf(qb);
    LeadQualifyingKeeps(a, b, r, c);
    LeadQualifyingAppend(a, b, c);
    LeadTimesOfAppend(qa + [r], qb);
    LeadTimesOfAppend(qa, [r]);
    LeadTimesOfAppend(qa, qb);
    assert LeadTimesOf([r]) == [LeadMinutes(r)];
    SumAppend(ta + [LeadMinutes(r)], tb);
    SumAppend(ta, tb);
    SumSnoc(ta, LeadMinutes(r));
  }

  /** When every counted run was last updated no earlier than it was created,
      lead time is non-negative. */
  lemma LeadTimeNonNegative(runs: seq<Run>, now: int)
    requires forall r :: r in runs && LeadQualifies(r, Cutoff(now)) ==> r.updatedAt.value >= r.createdAt.value
    ensures LeadTimeForChanges(Fetched(runs), now) >= 0.0
  {
    var q := LeadQualifying(runs, Cutoff(now));
    LeadQualifyingMembers(runs, Cutoff(now));
    var ts := LeadTimesOf(q);
    forall i | 0 <= i < |ts|
      ensures ts[i] >= 0.0
    {
      assert q[i] in q;
    }
    MeanNonNegative(ts);
  }

  /** When every related issue was closed no earlier than it was opened,
      restore time is non-negative. */
  lemma RestoreTimeNonNegative(issues: seq<Issue>, branch: string)
    requires forall i :: i in issues && Contains(TextOr(i.body), branch) ==> TimeOr(i.closedAt) >= TimeOr(i.createdAt)
    ensures TimeToRestoreService(Fetched(issues), branch) >= 0.0
  {
    var rel := Related(issues, branch);
    RelatedMembers(issues, branch);
    var ts := RestoreTimesOf(rel);
    forall k | 0 <= k < |ts|
      ensures ts[k] >= 0.0
    {
      assert rel[k] in rel;
    }
    MeanNonNegative(ts);
  }

  /** An issue whose body does not mention the branch leaves restore time as it is. */
  lemma UnrelatedIssueIgnored(a: seq<Issue>, b: seq<Issue>, i: Issue, branch: string)
    requires !Contains(TextOr(i.body), branch)
    ensures TimeToRestoreService(Fetched(a + [i] + b), branch) == TimeToRestoreService(Fetched(a + b), branch)
  {
    RelatedSkips(a, b, i, branch);
  }

  /** Every body contains the empty string, so for an empty branch name every
      fetched issue is related. */
  lemma {:induction false} EmptyBranchRelatesEveryIssue(issues: seq<Issue>)
    ensures Related(issues, "") == issues
    decreases |issues|
  {
    if |issues| > 0 {
      var n := |issues| - 1;
      EmptyBranchRelatesEveryIssue(issues[..n]);
      ContainsEmpty(TextOr(issues[n].body));
      assert issues == issues[..n] + [issues[n]];
    }
  }

  /** With no run created after the cutoff, nothing is selected. */
  lemma {:induction false} NothingRecentSelected(runs: seq<Run>, cutoff: int)
    requires forall r :: r in runs ==> !InWindow(r, cutoff)
    ensures Windowed(runs, cutoff) == []
    ensures LeadQualifying(runs, cutoff) == []
    decreases |runs|
  {
    if |runs| > 0 {
      var n := |runs| - 1;
      assert runs == runs[..n] + [runs[n]];
      NothingRecentSelected(runs[..n], cutoff);
    }
  }

  /** With no run created after the cutoff, deployment frequency, both
      counts, lead time and change failure rate are all 0. */
  lemma QuietWindowIsZero(runs: seq<Run>, now: int)
    requires forall r :: r in runs ==> !InWindow(r, Cutoff(now))
    ensures DeploymentFrequency(Fetched(runs), now) == Deployments(0.0, 0, 0)
    ensures LeadTimeForChanges(Fetched(runs), now) == 0.0
    ensures ChangeFailureRate(Fetched(runs), now) == 0.0
  {
    NothingRecentSelected(runs, Cutoff(now));
  }

  /** Change failure rate counts only "failure" while deployment frequency
      counts every other conclusion as failed: over the same runs, the
      failure rate never exceeds the failed share of deployment frequency's
      counts. */
  lemma FailureRateWithinFailedShare(runs: seq<Run>, now: int)
    ensures
      var d := DeploymentFrequency(Fetched(runs), now);
      d.successful + d.failed > 0 ==>
        ChangeFailureRate(Fetched(runs), now) <= d.failed as real / (d.successful + d.failed) as real
  {
    var w := Windowed(runs, Cutoff(now));
    var d := DeploymentFrequency(Fetched(runs), now);
    FailuresAmongUnsuccessful(w);
    FailureRateIsShare(runs, now);
    assert d.failed == CountOtherConclusion(w, Success);
    if |w| > 0 {
      DivideMonotone(CountConclusion(w, Failure) as real, d.failed as real, |w| as real);
    }
  }

  /** With every run created after the cutoff, the window is the whole page. */
  lemma {:induction false} EverythingRecentSelected(runs: seq<Run>, cutoff: int)
    requires forall r :: r in runs ==> InWindow(r, cutoff)
    ensures Windowed(runs, cutoff) == runs
    decreases |runs|
  {
    if |runs| > 0 {
      var n := |runs| - 1;
      assert runs == runs[..n] + [runs[n]];
      EverythingRecentSelected(runs[..n], cutoff);
    }
  }

  /** Runs that all share conclusion `c` are all counted under `c` and none
      under any other conclusion. */
  lemma {:induction false} UniformConclusion(runs: seq<Run>, c: string, d: string)
    requires forall r :: r in runs ==> TextOr(r.conclusion) == c
    ensures CountConclusion(runs, d) == (if c == d then |runs| else 0)
    ensures CountOtherConclusion(runs, d) == (if c == d then 0 else |runs|)
    decreases |runs|
  {
    if |runs| > 0 {
      var n := |runs| - 1;
      assert runs == runs[..n] + [runs[n]];
      UniformConclusion(runs[..n], c, d);
    }
  }

  /** Ten runs in the window, seven concluded "success" and three "failure":
      a third of a deployment per day, 7 successful, 3 failed, and a change
      failure rate of 0.3. */
  lemma SevenSuccessesThreeFailures(now: int)
    ensures
      var ok := Run(Some(now - 3600), Some(now), Some(Success));
      var bad := Run(Some(now - 3600), Some(now), Some(Failure));
      var runs := [ok, ok, ok, ok, ok, ok, ok, bad, bad, bad];
      && DeploymentFrequency(Fetched(runs), now) == Deployments(10.0 / 30.0, 7, 3)
      && ChangeFailureRate(Fetched(runs), now) == 0.3
  {
    var ok := Run(Some(now - 3600), Some(now), Some(Success));
    var bad := Run(Some(now - 3600), Some(now), Some(Failure));
    var oks := [ok, ok, ok, ok, ok, ok, ok];
    var bads := [bad, bad, bad];
    var runs := [ok, ok, ok, ok, ok, ok, ok, bad, bad, bad];
    assert runs == oks + bads;
    EverythingRecentSelected(runs, Cutoff(now));
    CountAppend(oks, bads, Success);
    CountAppend(oks, bads, Failure);
    assert Success != Failure;
    UniformConclusion(oks, Success, Success);
    UniformConclusion(oks, Success, Failure);
    UniformConclusion(bads, Failure, Success);
    UniformConclusion(bads, Failure, Failure);
  }
}
