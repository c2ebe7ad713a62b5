/**
 * The status state machine of the ticket service (`validateTransition`).
 * `ExitOf` follows the code's branches in their order and names the
 * return or throw it reaches; `ValidateTransition` is the accept/reject
 * decision that results. `Allowed` is the rule table the decision is
 * proved to agree with.
 */
module Transition {
  import opened TicketEntity
  import opened Wrappers

  const InProgressNeedsAssignee := "Tickets in_progress must have an assignee"
  const MustPassThroughInProgress := "Tickets must move to in_progress before completed"
  const StartNeedsAssignee := "An assignee is required to start progress on a ticket"
  const InvalidTransition := "Invalid status transition"

  /** JavaScript truthiness of a `number | null` assignee: `null` and `0` are falsy. */
  predicate IsTruthy(assignee: Option<int>) {
    assignee.Some? && assignee.value != 0
  }

  /** The points where the validator stops, one per return or throw. */
  datatype Exit =
    | SameStatusMissingAssignee  // throw in the same-status case
    | SameStatusAccepted         // return in the same-status case
    | CreatedNotToInProgress     // throw: leaving created other than to in_progress
    | CreatedMissingAssignee     // throw: starting without an assignee
    | CreatedStarted             // return: created to in_progress
    | InProgressCompleted        // return: in_progress to completed
    | InProgressMissingAssignee  // throw in the in_progress to in_progress branch
    | InProgressReconfirmed      // return in the in_progress to in_progress branch
    | Fallthrough                // the final throw

  /** Which exit the validator reaches, testing conditions in the code's order. */
  function ExitOf(current: TicketStatus, next: TicketStatus, assignee: Option<int>): Exit {
    if current == next then
      if next == InProgress && !IsTruthy(assignee) then SameStatusMissingAssignee
      else SameStatusAccepted
    else if current == Created then
      if next != InProgress then CreatedNotToInProgress
      else if !IsTruthy(assignee) then CreatedMissingAssignee
      else CreatedStarted
    else if current == InProgress && next == Completed then InProgressCompleted
    else if current == InProgress && next == InProgress then
      if !IsTruthy(assignee) then InProgressMissingAssignee
      else InProgressReconfirmed
    else Fallthrough
  }

  datatype Verdict = Accept | Reject(reason: string)

  /** What each exit means to the caller: a return accepts, a throw carries its message. */
  function VerdictAt(e: Exit): Verdict {
    match e
    case SameStatusMissingAssignee => Reject(InProgressNeedsAssignee)
    case SameStatusAccepted => Accept
    case CreatedNotToInProgress => Reject(MustPassThroughInProgress)
    case CreatedMissingAssignee => Reject(StartNeedsAssignee)
    case CreatedStarted => Accept
    case InProgressCompleted => Accept
    case InProgressMissingAssignee => Reject(InProgressNeedsAssignee)
    case InProgressReconfirmed => Accept
    case Fallthrough => Reject(InvalidTransition)
  }

  /**
   * The rule table: staying put (an in_progress ticket only with an
   * assignee), starting work with an assignee, or completing work.
   */
  predicate Allowed(current: TicketStatus, next: TicketStatus, assignee: Option<int>) {
    || (current == next && (next == InProgress ==> IsTruthy(assignee)))
    || (current == Created && next == InProgress && IsTruthy(assignee))
    || (current == InProgress && next == Completed)
  }

  /** The validator: accepts exactly the table's transitions, and names the reason for each rejection. */
  function ValidateTransition(current: TicketStatus, next: TicketStatus, assignee: Option<int>): (v: Verdict)
    ensures v.Accept? <==> Allowed(current, next, assignee)
    ensures current == Created && next == Completed ==> v == Reject(MustPassThroughInProgress)
    ensures current == Created && next == InProgress && !IsTruthy(assignee) ==> v == Reject(StartNeedsAssignee)
    ensures current == InProgress && next == InProgress && !IsTruthy(assignee) ==> v == Reject(InProgressNeedsAssignee)
    ensures current == InProgress && next == Created ==> v == Reject(InvalidTransition)
    ensures current == Completed && next != Completed ==> v == Reject(InvalidTransition)
  {
    VerdictAt(ExitOf(current, next, assignee))
  }

  /** The in_progress to in_progress branch can never be reached: the same-status test comes first. */
  lemma ReconfirmBranchUnreachable(current: TicketStatus, next: TicketStatus, assignee: Option<int>)
    ensures ExitOf(current, next, assignee) != InProgressMissingAssignee
    ensures ExitOf(current, next, assignee) != InProgressReconfirmed
  {
  }

  /** Every rejection carries one of the four fixed messages. */
  lemma RejectionReasonsAreFixed(current: TicketStatus, next: TicketStatus, assignee: Option<int>)
    ensures ValidateTransition(current, next, assignee).Reject? ==>
      ValidateTransition(current, next, assignee).reason in
        {InProgressNeedsAssignee, MustPassThroughInProgress, StartNeedsAssignee, InvalidTransition}
  {
  }

  /**
   * Entering or staying in in_progress is accepted exactly when the
   * assignee is truthy; no transition out of in_progress goes backwards.
   */
  lemma InProgressNeedsTruthyAssignee(current: TicketStatus, assignee: Option<int>)
    requires current != Completed
    ensures ValidateTransition(current, InProgress, assignee).Accept? <==> IsTruthy(assignee)
    ensures ValidateTransition(InProgress, Created, assignee).Reject?
  {
  }
}
