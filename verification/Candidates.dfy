/** Candidate generation and the heuristic fallback probabilities. */
module Candidates {
  import opened Domain
  import Text

  datatype CaseType = PaymentFailure | SubscriptionFailure | OverdueInvoice

  datatype CandidateContext = CandidateContext(
    category: FailureCategory,
    caseType: CaseType,
    subscriptionStatus: Option<string>,
    providerRetriesActive: bool,
    uncertainProviderState: bool,
    activeRailDowntime: bool,
    linkDataSufficient: bool)

  datatype Scenario =
    | ActiveDowntime
    | SubscriptionHalted
    | SubscriptionPendingRetries
    | SubscriptionConservative
    | ByCategory(category: FailureCategory)
    | UnknownScenario(linkDataSufficient: bool)

  /** Payment cases carry no subscription state. */
  predicate ValidContext(ctx: CandidateContext) {
    ctx.caseType == PaymentFailure ==> ctx.subscriptionStatus.None? && !ctx.providerRetriesActive
  }

  function NormalizedStatus(ctx: CandidateContext): string {
    if ctx.subscriptionStatus.None? then "" else Text.Lower(Text.Strip(ctx.subscriptionStatus.value))
  }

  predicate HasOwnMatrix(category: FailureCategory) {
    category != CustomerAbandonment && category != MandateOrRecurringFailure && category != UnknownFailure
  }

  function EffectiveScenario(ctx: CandidateContext): Scenario {
    if ctx.activeRailDowntime then ActiveDowntime
    else if ctx.caseType == SubscriptionFailure then
      var status := NormalizedStatus(ctx);
      if status == "halted" then SubscriptionHalted
      else if status == "pending" && ctx.providerRetriesActive then SubscriptionPendingRetries
      else SubscriptionConservative
    else if HasOwnMatrix(ctx.category) then ByCategory(ctx.category)
    else UnknownScenario(ctx.linkDataSufficient)
  }

  const DOWNTIME_MATRIX := [Wait, RequestAlternatePaymentMethod, CreatePaymentLink, Stop]

  function CategoryMatrix(category: FailureCategory): seq<ActionType>
    requires HasOwnMatrix(category)
  {
    match category
    case PaymentRailDowntime => DOWNTIME_MATRIX
    case InsufficientFunds => [Wait, SendRecoveryMessage, CreatePaymentLink, Stop]
    case AuthenticationFailure => [RetrySameMethod, RequestAlternatePaymentMethod, CreatePaymentLink, Stop]
    case BankOrIssuerDecline => [Wait, RequestAlternatePaymentMethod, CreatePaymentLink, Stop]
    case ExpiredOrInvalidMethod => [RequestAlternatePaymentMethod, CreatePaymentLink, SendRecoveryMessage, Stop]
    case TechnicalFailure => [Wait, RetrySameMethod, RequestAlternatePaymentMethod, Stop]
  }

  function ScenarioMatrix(scenario: Scenario): seq<ActionType>
    requires scenario.ByCategory? ==> HasOwnMatrix(scenario.category)
  {
    match scenario
    case ActiveDowntime => DOWNTIME_MATRIX
    case SubscriptionHalted => [RequestAlternatePaymentMethod, CreatePaymentLink, EscalateToHuman, Stop]
    case SubscriptionPendingRetries => [Wait, RequestAlternatePaymentMethod, SendRecoveryMessage, Stop]
    case SubscriptionConservative => [Wait, RequestAlternatePaymentMethod, SendRecoveryMessage, Stop]
    case UnknownScenario(sufficient) =>
      if sufficient then [Wait, EscalateToHuman, CreatePaymentLink, Stop] else [Wait, EscalateToHuman, Stop]
    case ByCategory(category) => CategoryMatrix(category)
  }

  predicate RetryBlocked(ctx: CandidateContext) {
    || ctx.activeRailDowntime
    || ctx.category == PaymentRailDowntime
    || ctx.uncertainProviderState
    || (ctx.caseType == SubscriptionFailure && NormalizedStatus(ctx) == "pending" && ctx.providerRetriesActive)
  }

  function Without(actions: seq<ActionType>, excluded: set<ActionType>): (r: seq<ActionType>)
    ensures forall a :: a in r <==> a in actions && a !in excluded
  {
    if actions == [] then []
    else
      var rest := Without(actions[..|actions| - 1], excluded);
      var last := actions[|actions| - 1];
      assert actions == actions[..|actions| - 1] + [last];
      if last in excluded then rest else rest + [last]
  }

  function WithStop(actions: seq<ActionType>): seq<ActionType> {
    if Stop in actions then actions else actions + [Stop]
  }

  function BlockedActions(ctx: CandidateContext): set<ActionType> {
    if RetryBlocked(ctx) then {RetrySameMethod} else {}
  }

  function CandidateActions(ctx: CandidateContext): seq<ActionType> {
    WithStop(Without(ScenarioMatrix(EffectiveScenario(ctx)), BlockedActions(ctx)))
  }

  method GenerateCandidates(ctx: CandidateContext) returns (actions: seq<ActionType>)
    ensures actions == CandidateActions(ctx)
  {
    var base := ScenarioMatrix(EffectiveScenario(ctx));
    var blockRetry := RetryBlocked(ctx);
    actions := [];
    for i := 0 to |base|
      invariant actions == Without(base[..i], BlockedActions(ctx))
    {
      assert base[..i + 1][..i] == base[..i];
      if !(base[i] == RetrySameMethod && blockRetry) {
        actions := actions + [base[i]];
      }
    }
    assert base[..|base|] == base;
    if Stop !in actions {
      actions := actions + [Stop];
    }
  }

  /** Candidates after the excluded types are taken out; STOP is put back when it was excluded. */
  function AfterExclusions(ctx: CandidateContext, excluded: set<ActionType>): seq<ActionType> {
    if excluded == {} then CandidateActions(ctx) else WithStop(Without(CandidateActions(ctx), excluded))
  }

  predicate NoRepeats(actions: seq<ActionType>) {
    forall i, j :: 0 <= i < j < |actions| ==> actions[i] != actions[j]
  }

  lemma {:induction false} WithoutKeepsNoRepeats(actions: seq<ActionType>, excluded: set<ActionType>)
    requires NoRepeats(actions)
    ensures NoRepeats(Without(actions, excluded))
  {
    if actions != [] {
      var front := actions[..|actions| - 1];
      WithoutKeepsNoRepeats(front, excluded);
      var rest := Without(front, excluded);
      assert forall i :: 0 <= i < |rest| ==> rest[i] in front;
    }
  }

  lemma MatrixHasNoRepeats(scenario: Scenario)
    requires scenario.ByCategory? ==> HasOwnMatrix(scenario.category)
    ensures NoRepeats(ScenarioMatrix(scenario)) && Stop in ScenarioMatrix(scenario)
  {
  }

  /** STOP is always offered, nothing is offered twice, and an excluded intervention is never offered. */
  lemma CandidatesAreWellFormed(ctx: CandidateContext, excluded: set<ActionType>)
    ensures var actions := AfterExclusions(ctx, excluded);
            && Stop in actions && NoRepeats(actions)
            && (forall a :: a in actions ==> a == Stop || a !in excluded)
            && (forall a :: a in actions && a != Stop ==> a in ScenarioMatrix(EffectiveScenario(ctx)))
            && (RetrySameMethod in actions ==> !RetryBlocked(ctx))
  {
    OffersAreWellFormed(ctx);
    WithoutKeepsNoRepeats(CandidateActions(ctx), excluded);
    if excluded != {} {
      WithStopIsWellFormed(Without(CandidateActions(ctx), excluded));
    }
  }

  lemma OffersAreWellFormed(ctx: CandidateContext)
    ensures var actions := CandidateActions(ctx);
            && Stop in actions && NoRepeats(actions)
            && (forall a :: a in actions && a != Stop ==> a in ScenarioMatrix(EffectiveScenario(ctx)))
            && (RetrySameMethod in actions ==> !RetryBlocked(ctx))
  {
    var matrix := ScenarioMatrix(EffectiveScenario(ctx));
    MatrixHasNoRepeats(EffectiveScenario(ctx));
    WithoutKeepsNoRepeats(matrix, BlockedActions(ctx));
    WithStopIsWellFormed(Without(matrix, BlockedActions(ctx)));
  }

  lemma WithStopIsWellFormed(actions: seq<ActionType>)
    requires NoRepeats(actions)
    ensures NoRepeats(WithStop(actions)) && forall a :: a in WithStop(actions) <==> a in actions || a == Stop
  {
  }

  // ------------------------------------------------------------ heuristic fallback

  const DOWNTIME_PROBABILITIES: map<ActionType, real> :=
    map[Wait := 0.60, RequestAlternatePaymentMethod := 0.72, CreatePaymentLink := 0.65, Stop := 0.0]

  function BaseTable(category: FailureCategory): map<ActionType, real> {
    match category
    case PaymentRailDowntime => DOWNTIME_PROBABILITIES
    case InsufficientFunds => map[Wait := 0.55, SendRecoveryMessage := 0.48, CreatePaymentLink := 0.62, Stop := 0.0]
    case AuthenticationFailure =>
      map[RetrySameMethod := 0.58, RequestAlternatePaymentMethod := 0.66, CreatePaymentLink := 0.61, Stop := 0.0]
    case BankOrIssuerDecline =>
      map[Wait := 0.52, RequestAlternatePaymentMethod := 0.64, CreatePaymentLink := 0.59, Stop := 0.0]
    case ExpiredOrInvalidMethod =>
      map[RequestAlternatePaymentMethod := 0.70, CreatePaymentLink := 0.68, SendRecoveryMessage := 0.45, Stop := 0.0]
    case TechnicalFailure =>
      map[Wait := 0.57, RetrySameMethod := 0.50, RequestAlternatePaymentMethod := 0.63, Stop := 0.0]
    case UnknownFailure => map[Wait := 0.35, EscalateToHuman := 0.40, CreatePaymentLink := 0.42, Stop := 0.0]
    case MandateOrRecurringFailure =>
      map[Wait := 0.50, RequestAlternatePaymentMethod := 0.58, SendRecoveryMessage := 0.46, Stop := 0.0]
    case CustomerAbandonment => map[Wait := 0.30, EscalateToHuman := 0.38, CreatePaymentLink := 0.40, Stop := 0.0]
  }

  function ProbabilityTable(ctx: CandidateContext): map<ActionType, real> {
    match EffectiveScenario(ctx)
    case ActiveDowntime => DOWNTIME_PROBABILITIES
    case SubscriptionPendingRetries =>
      map[Wait := 0.62, RequestAlternatePaymentMethod := 0.67, SendRecoveryMessage := 0.49, Stop := 0.0]
    case SubscriptionHalted =>
      map[RequestAlternatePaymentMethod := 0.55, CreatePaymentLink := 0.60, EscalateToHuman := 0.44, Stop := 0.0]
    case SubscriptionConservative =>
      map[Wait := 0.50, RequestAlternatePaymentMethod := 0.58, SendRecoveryMessage := 0.46, Stop := 0.0]
    case UnknownScenario(sufficient) =>
      if sufficient then BaseTable(UnknownFailure) else BaseTable(UnknownFailure) - {CreatePaymentLink}
    case ByCategory(category) => BaseTable(category)
  }

  /** None stands for the lookup error of an action missing from the table. */
  function FallbackProbability(ctx: CandidateContext, action: ActionType): Option<real> {
    if action == Stop then Some(0.0)
    else
      var table := ProbabilityTable(ctx);
      if action in table then Some(table[action]) else None
  }

  lemma TableCoversMatrix(ctx: CandidateContext)
    ensures forall a :: a in ScenarioMatrix(EffectiveScenario(ctx)) ==> a in ProbabilityTable(ctx)
  {
  }

  lemma TableIsProbability(ctx: CandidateContext, action: ActionType)
    requires action in ProbabilityTable(ctx)
    ensures 0.0 <= ProbabilityTable(ctx)[action] <= 1.0
  {
  }

  /** The fallback has an admissible probability for every action generated from any context. */
  lemma FallbackIsComplete(ctx: CandidateContext, excluded: set<ActionType>, action: ActionType)
    requires action in AfterExclusions(ctx, excluded)
    ensures FallbackProbability(ctx, action).Some? && 0.0 <= FallbackProbability(ctx, action).value <= 1.0
  {
    CandidatesAreWellFormed(ctx, excluded);
    if action != Stop {
      TableCoversMatrix(ctx);
      TableIsProbability(ctx, action);
    }
  }
}
