/** The outcome graph of an external action (protected_actions/outcomes.py). */
module Outcomes {
  import opened Wrappers

  datatype OutcomeState =
    | Prepared | PendingApproval | Approved | Dispatching | Confirmed | FailedBeforeEffect
    | OutcomeUnknown | Reconciling | SafeToRetry | NeedsOperator

  datatype InvalidOutcomeTransition = InvalidOutcomeTransition(state: OutcomeState, next: OutcomeState)

  /** `_ALLOWED`. */
  function Allowed(state: OutcomeState): set<OutcomeState> {
    match state
    case Prepared => {PendingApproval}
    case PendingApproval => {Approved}
    case Approved => {Dispatching}
    case Dispatching => {Confirmed, FailedBeforeEffect, OutcomeUnknown}
    case OutcomeUnknown => {Reconciling}
    case Reconciling => {Confirmed, SafeToRetry, NeedsOperator}
    case SafeToRetry => {Dispatching}
    case FailedBeforeEffect => {Dispatching}
    case Confirmed => {}
    case NeedsOperator => {}
  }

  /** `OutcomeMachine.transition`. */
  function Transition(state: OutcomeState, next: OutcomeState): Result<OutcomeState, InvalidOutcomeTransition> {
    if next !in Allowed(state) then Err(InvalidOutcomeTransition(state, next)) else Ok(next)
  }

  /** A path of the outcome graph. */
  ghost predicate IsPath(states: seq<OutcomeState>) {
    forall k :: 0 < k < |states| ==> states[k] in Allowed(states[k - 1])
  }

  function Count<T(==)>(items: seq<T>, item: T): nat {
    if items == [] then 0
    else Count(items[..|items| - 1], item) + if items[|items| - 1] == item then 1 else 0
  }

  /** After an unknown outcome a path dispatches again only through a reconciliation that found it
      safe: between two dispatches there is a failure before the effect, or a reconciliation. */
  lemma {:induction false} RedispatchIsReconciled(states: seq<OutcomeState>, i: nat, j: nat)
    requires IsPath(states) && i < j < |states|
    requires states[i] == OutcomeUnknown && states[j] == Dispatching
    ensures exists k :: i < k < j && states[k] == SafeToRetry
  {
    var k := j - 1;
    assert states[j] in Allowed(states[k]);
    if states[k] != SafeToRetry {
      FirstAfterUnknown(states, i, j);
    }
  }

  lemma {:induction false} FirstAfterUnknown(states: seq<OutcomeState>, i: nat, j: nat)
    requires IsPath(states) && i < j < |states|
    requires states[i] == OutcomeUnknown && states[j] == Dispatching
    ensures i + 2 < j && states[i + 1] == Reconciling && states[i + 2] == SafeToRetry
  {
    assert states[i + 1] in Allowed(states[i]);
    assert states[i + 2] in Allowed(states[i + 1]);
    if i + 2 < j {
      assert states[i + 3] in Allowed(states[i + 2]);
    }
  }
}
