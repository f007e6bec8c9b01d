/**
 * The interactive governance gate check: a project is cleared for deployment
 * only when all four fairness gates are ticked.
 */
module GovernanceGates {

  /** Python's `all` over a list of flags. */
  function All(flags: seq<bool>): (r: bool)
    ensures r <==> forall i :: 0 <= i < |flags| ==> flags[i]
  {
    |flags| == 0 || (flags[0] && All(flags[1..]))
  }

  /** The two outcomes the page reports. */
  datatype GateStatus = Cleared | Blocked
  {
    function Message(): string
    {
      match this
      case Cleared => "All governance gates passed. The project is cleared for deployment."
      case Blocked => "Project cannot proceed until all governance gates are passed."
    }
  }

  /** The outcome for the four checkboxes: data review, design approval, pre-deployment, monitoring trigger. */
  function CheckGates(dataReview: bool, designApproval: bool, preDeployment: bool, monitoringTrigger: bool): (s: GateStatus)
    ensures s == Cleared <==> dataReview && designApproval && preDeployment && monitoringTrigger
  {
    var gates := [dataReview, designApproval, preDeployment, monitoringTrigger];
    assert gates[0] == dataReview && gates[1] == designApproval && gates[2] == preDeployment && gates[3] == monitoringTrigger;
    if All(gates) then Cleared else Blocked
  }

  /** Any one unticked gate, whichever it is, blocks the project. */
  lemma AnyUncheckedGateBlocks(gates: seq<bool>, i: nat)
    requires |gates| == 4 && i < 4 && !gates[i]
    ensures CheckGates(gates[0], gates[1], gates[2], gates[3]) == Blocked
  {
  }
}
