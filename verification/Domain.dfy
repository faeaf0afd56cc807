/** Enumerations and capability sets shared by every component. */
module Domain {

  datatype Option<+T> = None | Some(value: T)

  datatype Result<+T, +E> = Success(value: T) | Failure(error: E)

  datatype CaseStatus =
    | Detected | Analyzing | Recommended | AwaitingApproval | Scheduled
    | Executing | WaitingForOutcome | Recovered | Failed | Stopped

  datatype ActionType =
    | Wait | RetrySameMethod | RequestAlternatePaymentMethod | CreatePaymentLink
    | SendRecoveryMessage | EscalateToHuman | Stop

  datatype ActionStatus =
    | PendingApproval | ActionScheduled | ActionExecuting | Succeeded
    | ActionFailed | Unknown | Cancelled

  datatype FailureCategory =
    | PaymentRailDowntime | InsufficientFunds | AuthenticationFailure
    | BankOrIssuerDecline | ExpiredOrInvalidMethod | CustomerAbandonment
    | MandateOrRecurringFailure | TechnicalFailure | UnknownFailure

  predicate IsTerminal(status: CaseStatus) {
    status == Recovered || status == Failed || status == Stopped
  }

  /** Actions whose only delivery mechanism is a provider payment link. */
  predicate UsesPaymentLink(action: ActionType) {
    action == CreatePaymentLink || action == RequestAlternatePaymentMethod
  }

  /** Actions the system carries out itself; the other two are advisory. */
  predicate IsExecutable(action: ActionType) {
    action == Wait || action == Stop || action == EscalateToHuman || UsesPaymentLink(action)
  }

  /** Statuses in which a payment-link action blocks creation of another one. */
  predicate IsBlocking(status: ActionStatus) {
    status == PendingApproval || status == ActionExecuting || status == Unknown
  }
}
