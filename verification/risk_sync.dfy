/**
 * Stress-to-risk synchronisation (backend/utils/riskSync.js): a fixed table from the behavioural
 * stress label to the borrower risk level, and a field-executive assignment for the two elevated
 * levels when a borrower document is supplied.
 */
module RiskSync {
  import opened Wrappers
  import opened Schema
  import AutoAssignment

  /** `mapping[stressLevel] || 'PENDING'`: 'Unknown' and every label outside the table give PENDING. */
  function RiskForStress(stressLevel: string): (r: RiskLevel)
    ensures r == NormalRisk <==> stressLevel == "Low"
    ensures r == ModerateRisk <==> stressLevel == "Moderate"
    ensures r == HighRisk <==> stressLevel == "High"
    ensures r == CriticalRisk <==> stressLevel == "Critical"
    ensures r == PendingRisk <==> stressLevel !in {"Low", "Moderate", "High", "Critical"}
  {
    if stressLevel == "Low" then NormalRisk
    else if stressLevel == "Moderate" then ModerateRisk
    else if stressLevel == "High" then HighRisk
    else if stressLevel == "Critical" then CriticalRisk
    else PendingRisk
  }

  /** Every stress level the scoring produces keeps its name across the table: an elevated
      stress is an elevated risk and the other three are not. */
  lemma StressLabelsMapInOrder(s: StressLevel)
    ensures RiskForStress(s.Label()).IsElevated() <==> s == High || s == Critical
    ensures RiskForStress(s.Label()) == PendingRisk <==> s == UnknownStress
  {
  }

  /**
   * `syncRiskLevelWithStress(stressLevel, borrower)`: returns the mapped level; when a borrower is
   * given and the level is HIGH_RISK or CRITICAL_RISK it also runs the regional assignment on it.
   */
  method SyncRiskLevelWithStress(stressLevel: string, borrower: BorrowerDoc?,
                                 findByLocation: string -> Option<AutoAssignment.Executive>)
    returns (newRiskLevel: RiskLevel)
    modifies borrower
    ensures newRiskLevel == RiskForStress(stressLevel)
    ensures borrower != null && newRiskLevel.IsElevated() ==>
      var e := AutoAssignment.AssignmentFor(old(borrower.rec), findByLocation);
      borrower.rec == (if e.Some? then old(borrower.rec).(assignedFieldExecutive := Some(e.value.id))
                       else old(borrower.rec))
    ensures borrower != null && !newRiskLevel.IsElevated() ==> borrower.rec == old(borrower.rec)
  {
    newRiskLevel := RiskForStress(stressLevel);
    if borrower != null && newRiskLevel.IsElevated() {
      var _ := AutoAssignment.AssignRegionalExecutive(borrower, findByLocation);
    }
  }
}
