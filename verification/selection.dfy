/** The reference definitions the calculators are measured against: which
    records fall in the window, how many runs carry a given conclusion, and
    the per-record durations that get averaged. Every filter keeps the
    records it selects in their original order. */
module Selection {
  import opened Optional
  import opened Text
  import opened Records

  // ---------------------------------------------------------------------
  // Runs in the window

  /** The runs created strictly after `cutoff`. */
  function Windowed(runs: seq<Run>, cutoff: int): (w: seq<Run>)
    ensures |w| <= |runs|
    decreases |runs|
  {
    if |runs| == 0 then []
    else
      var n := |runs| - 1;
      Windowed(runs[..n], cutoff) + (if InWindow(runs[n], cutoff) then [runs[n]] else [])
  }

  /** Extending a prefix by one record extends the selection by at most that record. */
  lemma WindowedPrefix(runs: seq<Run>, i: int, cutoff: int)
    requires 0 <= i < |runs|
    ensures Windowed(runs[..i + 1], cutoff) == Windowed(runs[..i], cutoff) + (if InWindow(runs[i], cutoff) then [runs[i]] else [])
  {
    assert runs[..i + 1][..i] == runs[..i];
  }

  /** A record is selected exactly when it is among the inputs and passes the test. */
  lemma {:induction false} WindowedMembers(runs: seq<Run>, cutoff: int)
    ensures forall r :: r in Windowed(runs, cutoff) <==> r in runs && InWindow(r, cutoff)
    decreases |runs|
  {
    if |runs| > 0 {
      var n := |runs| - 1;
      WindowedMembers(runs[..n], cutoff);
      assert runs == runs[..n] + [runs[n]];
    }
  }

  /** The window of a concatenation is the concatenation of the windows. */
  lemma {:induction false} WindowedAppend(a: seq<Run>, b: seq<Run>, cutoff: int)
    ensures Windowed(a + b, cutoff) == Windowed(a, cutoff) + Windowed(b, cutoff)
    decreases |b|
  {
    if |b| == 0 {
      assert a + b == a;
    } else {
      var n := |b| - 1;
      WindowedAppend(a, b[..n], cutoff);
      var t := if InWindow(b[n], cutoff) then [b[n]] else [];
      assert (a + b)[..|a| + n] == a + b[..n];
      assert (a + b)[|a| + n] == b[n];
      assert Windowed(a + b, cutoff) == Windowed(a + b[..n], cutoff) + t;
      assert Windowed(b, cutoff) == Windowed(b[..n], cutoff) + t;
    }
  }

  /** A run created at or before the cutoff leaves the window as it is. */
  lemma WindowedSkips(a: seq<Run>, b: seq<Run>, r: Run, cutoff: int)
    requires !InWindow(r, cutoff)
    ensures Windowed(a + [r] + b, cutoff) == Windowed(a + b, cutoff)
  {
    WindowedAppend(a + [r], b, cutoff);
    WindowedAppend(a, [r], cutoff);
    WindowedAppend(a, b, cutoff);
    assert [r][..0] == [];
  }

  /** A run created after the cutoff enters the window, in its place. */
  lemma WindowedKeeps(a: seq<Run>, b: seq<Run>, r: Run, cutoff: int)
    requires InWindow(r, cutoff)
    ensures Windowed(a + [r] + b, cutoff) == Windowed(a, cutoff) + [r] + Windowed(b, cutoff)
  {
    WindowedAppend(a + [r], b, cutoff);
    WindowedAppend(a, [r], cutoff);
    assert [r][..0] == [];
  }

  // ---------------------------------------------------------------------
  // Counting conclusions

  /** How many runs have conclusion `c`; a run without one reads as "". */
  function CountConclusion(runs: seq<Run>, c: string): (n: nat)
    ensures n <= |runs|
    decreases |runs|
  {
    if |runs| == 0 then 0
    else
      var k := |runs| - 1;
      CountConclusion(runs[..k], c) + (if TextOr(runs[k].conclusion) == c then 1 else 0)
  }

  /** How many runs have any conclusion other than `c`, a missing one included. */
  function CountOtherConclusion(runs: seq<Run>, c: string): (n: nat)
    ensures n <= |runs|
    decreases |runs|
  {
    if |runs| == 0 then 0
    else
      var k := |runs| - 1;
      CountOtherConclusion(runs[..k], c) + (if TextOr(runs[k].conclusion) != c then 1 else 0)
  }

  /** Every run is counted exactly once, under `c` or under the others. */
  lemma {:induction false} ConclusionPartition(runs: seq<Run>, c: string)
    ensures CountConclusion(runs, c) + CountOtherConclusion(runs, c) == |runs|
    decreases |runs|
  {
    if |runs| > 0 {
      ConclusionPartition(runs[..|runs| - 1], c);
    }
  }

  /** A run concluded "failure" is also a run not concluded "success", so the
      exact-failure count never exceeds the not-success count. */
  lemma {:induction false} FailuresAmongUnsuccessful(runs: seq<Run>)
    ensures CountConclusion(runs, Failure) <= CountOtherConclusion(runs, Success)
    decreases |runs|
  {
    if |runs| > 0 {
      FailuresAmongUnsuccessful(runs[..|runs| - 1]);
    }
  }

  /** Appending one run adds its own contribution to both counts. */
  lemma CountSnoc(runs: seq<Run>, r: Run, c: string)
    ensures CountConclusion(runs + [r], c) == CountConclusion(runs, c) + (if TextOr(r.conclusion) == c then 1 else 0)
    ensures CountOtherConclusion(runs + [r], c) == CountOtherConclusion(runs, c) + (if TextOr(r.conclusion) != c then 1 else 0)
  {
    assert (runs + [r])[..|runs|] == runs;
  }

  /** Counting over a concatenation adds the counts of the pieces. */
  lemma {:induction false} CountAppend(a: seq<Run>, b: seq<Run>, c: string)
    ensures CountConclusion(a + b, c) == CountConclusion(a, c) + CountConclusion(b, c)
    ensures CountOtherConclusion(a + b, c) == CountOtherConclusion(a, c) + CountOtherConclusion(b, c)
    decreases |b|
  {
    if |b| == 0 {
      assert a + b == a;
    } else {
      var n := |b| - 1;
      CountAppend(a, b[..n], c);
      assert (a + b)[..|a| + n] == a + b[..n];
    }
  }

  // ---------------------------------------------------------------------
  // Lead time

  /** The runs with both timestamps that were created strictly after `cutoff`. */
  function LeadQualifying(runs: seq<Run>, cutoff: int): (q: seq<Run>)
    ensures |q| <= |runs|
    decreases |runs|
  {
    if |runs| == 0 then []
    else
      var n := |runs| - 1;
      LeadQualifying(runs[..n], cutoff) + (if LeadQualifies(runs[n], cutoff) then [runs[n]] else [])
  }

  /** Extending a prefix by one record extends the selection by at most that record. */
  lemma LeadQualifyingPrefix(runs: seq<Run>, i: int, cutoff: int)
    requires 0 <= i < |runs|
    ensures LeadQualifying(runs[..i + 1], cutoff) == LeadQualifying(runs[..i], cutoff) + (if LeadQualifies(runs[i], cutoff) then [runs[i]] else [])
  {
    assert runs[..i + 1][..i] == runs[..i];
  }

  /** A record is selected exactly when it is among the inputs and passes the test. */
  lemma {:induction false} LeadQualifyingMembers(runs: seq<Run>, cutoff: int)
    ensures forall r :: r in LeadQualifying(runs, cutoff) <==> r in runs && LeadQualifies(r, cutoff)
    decreases |runs|
  {
    if |runs| > 0 {
      var n := |runs| - 1;
      LeadQualifyingMembers(runs[..n], cutoff);
      assert runs == runs[..n] + [runs[n]];
    }
  }

  /** Qualifying runs of a concatenation are those of the pieces, in order. */
  lemma {:induction false} LeadQualifyingAppend(a: seq<Run>, b: seq<Run>, cutoff: int)
    ensures LeadQualifying(a + b, cutoff) == LeadQualifying(a, cutoff) + LeadQualifying(b, cutoff)
    decreases |b|
  {
    if |b| == 0 {
      assert a + b == a;
    } else {
      var n := |b| - 1;
      LeadQualifyingAppend(a, b[..n], cutoff);
      var t := if LeadQualifies(b[n], cutoff) then [b[n]] else [];
      assert (a + b)[..|a| + n] == a + b[..n];
      assert (a + b)[|a| + n] == b[n];
      assert LeadQualifying(a + b, cutoff) == LeadQualifying(a + b[..n], cutoff) + t;
      assert LeadQualifying(b, cutoff) == LeadQualifying(b[..n], cutoff) + t;
    }
  }

  /** A run that does not qualify leaves the qualifying runs as they are. */
  lemma LeadQualifyingSkips(a: seq<Run>, b: seq<Run>, r: Run, cutoff: int)
    requires !LeadQualifies(r, cutoff)
    ensures LeadQualifying(a + [r] + b, cutoff) == LeadQualifying(a + b, cutoff)
  {
    LeadQualifyingAppend(a + [r], b, cutoff);
    LeadQualifyingAppend(a, [r], cutoff);
    LeadQualifyingAppend(a, b, cutoff);
    assert [r][..0] == [];
  }

  /** A qualifying run is selected in its own position. */
  lemma LeadQualifyingKeeps(a: seq<Run>, b: seq<Run>, r: Run, cutoff: int)
    requires LeadQualifies(r, cutoff)
    ensures LeadQualifying(a + [r] + b, cutoff) == LeadQualifying(a, cutoff) + [r] + LeadQualifying(b, cutoff)
  {
    LeadQualifyingAppend(a + [r], b, cutoff);
    LeadQualifyingAppend(a, [r], cutoff);
    assert [r][..0] == [];
  }

  /** The lead time of each run, in minutes. */
  function LeadTimesOf(runs: seq<Run>): seq<real>
  {
    seq(|runs|, i requires 0 <= i < |runs| => LeadMinutes(runs[i]))
  }

  // ---------------------------------------------------------------------
  // Restore time

  /** The issues whose body mentions `branch`; a missing body reads as "". */
  function Related(issues: seq<Issue>, branch: string): (rel: seq<Issue>)
    ensures |rel| <= |issues|
    decreases |issues|
  {
    if |issues| == 0 then []
    else
      var n := |issues| - 1;
      Related(issues[..n], branch) + (if Contains(TextOr(issues[n].body), branch) then [issues[n]] else [])
  }

  /** Extending a prefix by one record extends the selection by at most that record. */
  lemma RelatedPrefix(issues: seq<Issue>, i: int, branch: string)
    requires 0 <= i < |issues|
    ensures Related(issues[..i + 1], branch) == Related(issues[..i], branch) + (if Contains(TextOr(issues[i].body), branch) then [issues[i]] else [])
  {
    assert issues[..i + 1][..i] == issues[..i];
  }

  /** A record is selected exactly when it is among the inputs and passes the test. */
  lemma {:induction false} RelatedMembers(issues: seq<Issue>, branch: string)
    ensures forall i :: i in Related(issues, branch) <==> i in issues && Contains(TextOr(i.body), branch)
    decreases |issues|
  {
    if |issues| > 0 {
      var n := |issues| - 1;
      RelatedMembers(issues[..n], branch);
      assert issues == issues[..n] + [issues[n]];
    }
  }

  /** Related issues of a concatenation are those of the pieces, in order. */
  lemma {:induction false} RelatedAppend(a: seq<Issue>, b: seq<Issue>, branch: string)
    ensures Related(a + b, branch) == Related(a, branch) + Related(b, branch)
    decreases |b|
  {
    if |b| == 0 {
      assert a + b == a;
    } else {
      var n := |b| - 1;
      RelatedAppend(a, b[..n], branch);
      var t := if Contains(TextOr(b[n].body), branch) then [b[n]] else [];
      assert (a + b)[..|a| + n] == a + b[..n];
      assert (a + b)[|a| + n] == b[n];
      assert Related(a + b, branch) == Related(a + b[..n], branch) + t;
      assert Related(b, branch) == Related(b[..n], branch) + t;
    }
  }

  /** An issue that does not mention the branch leaves the selection as it is. */
  lemma RelatedSkips(a: seq<Issue>, b: seq<Issue>, i: Issue, branch: string)
    requires !Contains(TextOr(i.body), branch)
    ensures Related(a + [i] + b, branch) == Related(a + b, branch)
  {
    RelatedAppend(a + [i], b, branch);
    RelatedAppend(a, [i], branch);
    RelatedAppend(a, b, branch);
    assert [i][..0] == [];
    assert Related([i], branch) == [];
  }

  /** Lead times of a concatenation are those of the pieces. */
  lemma LeadTimesOfAppend(x: seq<Run>, y: seq<Run>)
    ensures LeadTimesOf(x + y) == LeadTimesOf(x) + LeadTimesOf(y)
  {
  }

  /** The restore time of each issue, in hours. */
  function RestoreTimesOf(issues: seq<Issue>): seq<real>
  {
    seq(|issues|, i requires 0 <= i < |issues| => RestoreHours(issues[i]))
  }
}
