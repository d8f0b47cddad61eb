/** The reconciliation gate in front of every receipt. */
module Receipts {
  import opened Jobs
  import opened Wrappers

  datatype ReconciliationInput = ReconciliationInput(
    frozenAuthorization: Digest,
    authorizationAtExecution: Digest,
    finalAuthorization: Digest,
    selectedActionIndex: nat,
    bindingActionIndex: nat,
    governorFinalState: nat,
    requiredExecutedState: nat,
    coverage: Coverage,
    requiredAssertionsVerified: bool)

  datatype ReconciliationFailure =
    | AuthorizationMismatch
    | ActionIndexMismatch
    | GovernorNotExecuted
    | PostconditionCoverageIncomplete
    | PostconditionNotVerified

  predicate SameAuthorizations(i: ReconciliationInput) {
    i.frozenAuthorization == i.authorizationAtExecution == i.finalAuthorization
  }

  /** `None` is "verified"; otherwise the first leg that disagrees, in this order. */
  function ReconcileForReceipt(i: ReconciliationInput): (r: Option<ReconciliationFailure>)
    ensures r.None? <==>
              SameAuthorizations(i) && i.selectedActionIndex == i.bindingActionIndex &&
              i.governorFinalState == i.requiredExecutedState && i.coverage.Full? && i.requiredAssertionsVerified
    ensures r == Some(AuthorizationMismatch) <==> !SameAuthorizations(i)
    ensures r == Some(ActionIndexMismatch) <==>
              SameAuthorizations(i) && i.selectedActionIndex != i.bindingActionIndex
    ensures r == Some(GovernorNotExecuted) <==>
              SameAuthorizations(i) && i.selectedActionIndex == i.bindingActionIndex &&
              i.governorFinalState != i.requiredExecutedState
    ensures r == Some(PostconditionCoverageIncomplete) <==>
              SameAuthorizations(i) && i.selectedActionIndex == i.bindingActionIndex &&
              i.governorFinalState == i.requiredExecutedState && !i.coverage.Full?
  {
    if i.frozenAuthorization != i.authorizationAtExecution then Some(AuthorizationMismatch)
    else if i.frozenAuthorization != i.finalAuthorization then Some(AuthorizationMismatch)
    else if i.selectedActionIndex != i.bindingActionIndex then Some(ActionIndexMismatch)
    else if i.governorFinalState != i.requiredExecutedState then Some(GovernorNotExecuted)
    else if !i.coverage.Full? then Some(PostconditionCoverageIncomplete)
    else if !i.requiredAssertionsVerified then Some(PostconditionNotVerified)
    else None
  }
}
