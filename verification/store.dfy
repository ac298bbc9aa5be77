/** The metrics store: the latest reading of each of the six gauges, per
    branch. Recording a snapshot overwrites the six readings of its branch
    and nothing else; there is no history. */
module Store {
  import opened Records

  /** The six gauges, each labelled by branch. */
  datatype Kind =
    | FrequencyGauge   // dora_deployment_frequency
    | LeadTimeGauge    // dora_lead_time_for_changes_minutes
    | RestoreTimeGauge // dora_time_to_restore_service
    | FailureRateGauge // dora_change_failure_rate
    | SuccessfulGauge  // dora_successful_deployments
    | FailedGauge      // dora_failed_deployments

  /** The latest reading per (gauge, branch). */
  type Store = map<(Kind, string), real>

  /** The value a snapshot gives gauge `k`; counts become reals. */
  function Reading(m: Snapshot, k: Kind): real
  {
    match k
    case FrequencyGauge => m.deploymentFrequency
    case LeadTimeGauge => m.leadTimeMinutes
    case RestoreTimeGauge => m.restoreTimeHours
    case FailureRateGauge => m.changeFailureRate
    case SuccessfulGauge => m.successfulDeployments as real
    case FailedGauge => m.failedDeployments as real
  }

  /** There are exactly six gauges. */
  lemma KindCases(k: Kind)
    ensures k in {FrequencyGauge, LeadTimeGauge, RestoreTimeGauge,
                  FailureRateGauge, SuccessfulGauge, FailedGauge}
  {
  }

  /** Sets the six gauges of the snapshot's branch, one after another. */
  function Record(store: Store, m: Snapshot): (r: Store)
    ensures forall key :: key in r <==> key in store || key.1 == m.branch
    ensures forall key :: key in r ==> r[key] == if key.1 == m.branch then Reading(m, key.0) else store[key]
  {
    var b := m.branch;
    var r := store[(FrequencyGauge, b) := m.deploymentFrequency]
                  [(LeadTimeGauge, b) := m.leadTimeMinutes]
                  [(RestoreTimeGauge, b) := m.restoreTimeHours]
                  [(FailureRateGauge, b) := m.changeFailureRate]
                  [(SuccessfulGauge, b) := m.successfulDeployments as real]
                  [(FailedGauge, b) := m.failedDeployments as real];
    assert forall key: (Kind, string) :: key.1 == b ==> key in r && r[key] == Reading(m, key.0) by {
      forall key: (Kind, string) | key.1 == b
        ensures key in r && r[key] == Reading(m, key.0)
      {
        KindCases(key.0);
      }
    }
    r
  }

  /** Last write wins: a second snapshot for the same branch replaces the
      first completely, nothing of the first is merged in. */
  lemma LastWriteWins(store: Store, first: Snapshot, second: Snapshot)
    requires first.branch == second.branch
    ensures Record(Record(store, first), second) == Record(store, second)
  {
  }

  /** Snapshots for different branches do not touch each other's readings:
      recording them in either order gives the same store. */
  lemma BranchesIndependent(store: Store, a: Snapshot, b: Snapshot)
    requires a.branch != b.branch
    ensures Record(Record(store, a), b) == Record(Record(store, b), a)
  {
  }
}
