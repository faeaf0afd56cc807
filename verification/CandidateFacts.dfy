/** What an analysis offers, how likely, for how much and under which conditions, action by action. */
module CandidateFacts {
  import opened Domain
  import opened Candidates
  import opened Ranking
  import opened Selection
  import opened Analysis
  import Erv
  import Policy
  import Text

  // ------------------------------------------------------------ what is offered

  predicate RailIsDown(inputs: AnalysisInputs) {
    inputs.railDowntimeKnown || inputs.category == PaymentRailDowntime
  }

  predicate Halted(inputs: AnalysisInputs) {
    inputs.source.FromSubscription? && Text.Lower(Text.Strip(inputs.source.status)) == "halted"
  }

  predicate Retrying(inputs: AnalysisInputs) {
    inputs.source == FromSubscription("pending")
  }

  predicate Unexplained(category: FailureCategory) {
    category == UnknownFailure || category == CustomerAbandonment || category == MandateOrRecurringFailure
  }

  /** For each action the failures it is offered for. */
  predicate OfferedFor(inputs: AnalysisInputs, action: ActionType) {
    var payment, category := inputs.source.FromTransaction?, inputs.category;
    match action
    case Stop => true
    case Wait =>
      RailIsDown(inputs)
      || (if payment then category != AuthenticationFailure && category != ExpiredOrInvalidMethod else !Halted(inputs))
    case RequestAlternatePaymentMethod =>
      RailIsDown(inputs) || !payment || !(Unexplained(category) || category == InsufficientFunds)
    case CreatePaymentLink =>
      RailIsDown(inputs) || (if payment then category != TechnicalFailure else Halted(inputs))
    case RetrySameMethod =>
      !RailIsDown(inputs) && payment && (category == AuthenticationFailure || category == TechnicalFailure)
    case SendRecoveryMessage =>
      !RailIsDown(inputs)
      && (if payment then category == InsufficientFunds || category == ExpiredOrInvalidMethod else !Halted(inputs))
    case EscalateToHuman =>
      !RailIsDown(inputs) && (if payment then Unexplained(category) else Halted(inputs))
  }

  lemma OfferedByMatrix(inputs: AnalysisInputs, action: ActionType)
    ensures var ctx := BuildContext(inputs);
            action in ScenarioMatrix(EffectiveScenario(ctx)) && !(action == RetrySameMethod && RetryBlocked(ctx))
            <==> OfferedFor(inputs, action)
  {
  }

  lemma OfferedByContext(ctx: CandidateContext, excluded: set<ActionType>, action: ActionType)
    ensures action in AfterExclusions(ctx, excluded)
       <==> || action == Stop
            || (&& action in ScenarioMatrix(EffectiveScenario(ctx)) && !(action == RetrySameMethod && RetryBlocked(ctx))
                && action !in excluded)
  {
  }

  /** An analysis offers STOP and exactly the actions meant for the failure, less the excluded ones. */
  lemma OffersExactly(inputs: AnalysisInputs, excluded: set<ActionType>, action: ActionType)
    ensures action in AfterExclusions(BuildContext(inputs), excluded)
       <==> action == Stop || (OfferedFor(inputs, action) && action !in excluded)
  {
    OfferedByMatrix(inputs, action);
    OfferedByContext(BuildContext(inputs), excluded, action);
  }

  /** The same for any context, one without link data or with an unsettled provider state included. */
  predicate OfferedIn(ctx: CandidateContext, action: ActionType) {
    var subscription := ctx.caseType == SubscriptionFailure;
    var down := ctx.activeRailDowntime || (!subscription && ctx.category == PaymentRailDowntime);
    var halted := ctx.subscriptionStatus.Some? && Text.Lower(Text.Strip(ctx.subscriptionStatus.value)) == "halted";
    match action
    case Stop => true
    case Wait =>
      down || (if subscription then !halted
               else ctx.category != AuthenticationFailure && ctx.category != ExpiredOrInvalidMethod)
    case RequestAlternatePaymentMethod =>
      down || subscription || !(Unexplained(ctx.category) || ctx.category == InsufficientFunds)
    case CreatePaymentLink =>
      down || (if subscription then halted
               else ctx.category != TechnicalFailure && (Unexplained(ctx.category) ==> ctx.linkDataSufficient))
    case RetrySameMethod =>
      !down && !subscription && !ctx.uncertainProviderState
      && (ctx.category == AuthenticationFailure || ctx.category == TechnicalFailure)
    case SendRecoveryMessage =>
      !down && (if subscription then !halted
                else ctx.category == InsufficientFunds || ctx.category == ExpiredOrInvalidMethod)
    case EscalateToHuman => !down && (if subscription then halted else Unexplained(ctx.category))
  }

  lemma ContextOffersExactly(ctx: CandidateContext, action: ActionType)
    ensures action in CandidateActions(ctx) <==> OfferedIn(ctx, action)
  {
    OfferedByContext(ctx, {}, action);
    if action != Stop {
      InMatrixExactly(ctx, action);
    }
  }

  lemma InMatrixExactly(ctx: CandidateContext, action: ActionType)
    requires action != Stop
    ensures action in ScenarioMatrix(EffectiveScenario(ctx)) && !(action == RetrySameMethod && RetryBlocked(ctx))
       <==> OfferedIn(ctx, action)
  {
  }

  // ------------------------------------------------------------ heuristic probabilities

  /** For each action its probability without a model, in hundredths. */
  function FallbackFor(inputs: AnalysisInputs, action: ActionType): int
    requires OfferedFor(inputs, action)
  {
    var category := inputs.category;
    match action
    case Stop => 0
    case Wait =>
      if RailIsDown(inputs) then 60
      else if Retrying(inputs) then 62
      else if inputs.source.FromSubscription? then 50
      else if category == TechnicalFailure then 57
      else if category == InsufficientFunds then 55
      else if category == BankOrIssuerDecline then 52
      else 35
    case RequestAlternatePaymentMethod =>
      if RailIsDown(inputs) then 72
      else if Retrying(inputs) then 67
      else if Halted(inputs) then 55
      else if inputs.source.FromSubscription? then 58
      else if category == ExpiredOrInvalidMethod then 70
      else if category == AuthenticationFailure then 66
      else if category == BankOrIssuerDecline then 64
      else 63
    case CreatePaymentLink =>
      if RailIsDown(inputs) then 65
      else if Halted(inputs) then 60
      else if category == ExpiredOrInvalidMethod then 68
      else if category == InsufficientFunds then 62
      else if category == AuthenticationFailure then 61
      else if category == BankOrIssuerDecline then 59
      else 42
    case RetrySameMethod => if category == AuthenticationFailure then 58 else 50
    case SendRecoveryMessage =>
      if Retrying(inputs) then 49
      else if inputs.source.FromSubscription? then 46
      else if category == InsufficientFunds then 48
      else 45
    case EscalateToHuman => if Halted(inputs) then 44 else 40
  }

  lemma FallbackExactly(inputs: AnalysisInputs, action: ActionType)
    requires OfferedFor(inputs, action)
    ensures FallbackProbability(BuildContext(inputs), action) == Some(FallbackFor(inputs, action) as real / 100.0)
  {
    PendingIsNormal();
  }

  lemma PendingIsNormal()
    ensures Text.Lower(Text.Strip("pending")) == "pending"
  {
    assert Text.Strip("pending") == "pending";
    assert Text.Lower("pending") == "pending";
  }

  /**
   * Without a model the alternate method is the likeliest action wherever it is
   * offered, but on a halted subscription, where it is the link; where neither
   * rules, the link does.
   */
  lemma FallbackPrefers(inputs: AnalysisInputs, action: ActionType)
    requires OfferedFor(inputs, action)
    ensures var best := if OfferedFor(inputs, RequestAlternatePaymentMethod) && (RailIsDown(inputs) || !Halted(inputs))
                        then RequestAlternatePaymentMethod else CreatePaymentLink;
            OfferedFor(inputs, best) && FallbackFor(inputs, action) <= FallbackFor(inputs, best)
            && (action != best ==> FallbackFor(inputs, action) < FallbackFor(inputs, best))
  {
    HaltedIsNotRetrying(inputs);
  }

  lemma HaltedIsNotRetrying(inputs: AnalysisInputs)
    ensures !(Halted(inputs) && Retrying(inputs))
  {
    PendingIsNormal();
  }

  // ------------------------------------------------------------ values

  /** Nearest integer of a quotient, ties upward. */
  function Nearest(value: real): int {
    (value + 0.5).Floor
  }

  /** What an action costs outright, in minor units. */
  function OutrightCost(action: ActionType, contacts: int): int {
    match action
    case Wait => 0
    case Stop => 0
    case RetrySameMethod => 100
    case RequestAlternatePaymentMethod => 200
    case CreatePaymentLink => 300
    case SendRecoveryMessage => 750 + 250 * contacts
    case EscalateToHuman => 800
  }

  /** What an action risks of every ten thousand at stake. */
  function RiskRate(action: ActionType): int {
    match action
    case Stop => 0
    case Wait => 5
    case RequestAlternatePaymentMethod => 15
    case RetrySameMethod => 20
    case CreatePaymentLink => 25
    case SendRecoveryMessage => 30
    case EscalateToHuman => 40
  }

  /** Expected recovery less cost and risk; waiting also loses eight of every ten thousand to delay. */
  lemma ValueExactly(action: ActionType, amount: nat, probability: real, contacts: nat)
    requires 0.0 <= probability <= 1.0
    ensures Erv.Value(action, amount, probability, contacts)
         == if action == Stop then 0
            else Nearest(amount as real * probability) - OutrightCost(action, contacts)
                 - Nearest(amount as real * RiskRate(action) as real / 10000.0)
                 - (if action == Wait then Nearest(amount as real * 8.0 / 10000.0) else 0)
  {
    if action != Stop {
      Erv.ValueFromRecovered(action, amount, probability, contacts);
      RiskExactly(action, amount);
      DelayExactly(action, amount);
      NearestIsRounded(amount as real * probability);
    }
  }

  lemma NearestIsRounded(value: real)
    ensures Erv.RoundHalfUp(value) == Nearest(value)
  {
  }

  lemma RiskExactly(action: ActionType, amount: nat)
    ensures Erv.OperationalRiskPenalty(action, amount) == Nearest(amount as real * RiskRate(action) as real / 10000.0)
  {
    assert Erv.OperationalRiskBps(action) == RiskRate(action);
    NearestIsRounded(amount as real * RiskRate(action) as real / 10000.0);
  }

  lemma DelayExactly(action: ActionType, amount: nat)
    ensures Erv.DelayPenalty(action, amount) == if action == Wait then Nearest(amount as real * 8.0 / 10000.0) else 0
  {
    if action == Wait {
      assert Erv.BasisPoints(amount, 8) == amount as real * 8.0 / 10000.0;
      NearestIsRounded(amount as real * 8.0 / 10000.0);
    } else {
      assert Erv.BasisPoints(amount, 0) == 0.0;
    }
  }

  // ------------------------------------------------------------ one candidate

  function ScoreOf(inputs: AnalysisInputs, action: ActionType): Option<real> {
    match inputs.inference
    case ModelScores(scores) => if action in scores then Some(scores[action]) else None
    case ModelFailure =>
      if OfferedFor(inputs, action) then Some(FallbackFor(inputs, action) as real / 100.0) else None
  }

  function Distance(value: real): real {
    if value < 0.0 then -value else value
  }

  /** Weighted mean of completeness, certainty and evidence. */
  function WeightedConfidence(completeness: real, probability: real, evidence: real): real {
    0.45 * completeness + 0.70 * Distance(probability - 0.5) + 0.20 * evidence
  }

  /** May be taken at all under the merchant's policy. */
  predicate MayTake(inputs: AnalysisInputs, attempts: nat, policy: Policy.MerchantPolicyRow, action: ActionType) {
    action == Stop
    || (&& action in policy.allowed
        && (attempts < policy.maxRecoveryAttempts || (action == Wait && Retrying(inputs)))
        && (action == SendRecoveryMessage ==> policy.maxContactsPer24h > 0)
        && (action == SendRecoveryMessage || action == RetrySameMethod ==> policy.cooldownMinutes <= 999)
        && (action == RetrySameMethod ==> inputs.category != PaymentRailDowntime))
  }

  /** A candidate carries exactly what its inputs and the merchant's row say. */
  predicate Faithful(inputs: AnalysisInputs, amount: nat, attempts: nat, policy: Policy.MerchantPolicyRow,
                     c: Candidate)
  {
    && ScoreOf(inputs, c.action) == Some(c.probability) && 0.0 <= c.probability <= 1.0
    && c.confidence == WeightedConfidence(inputs.completeness, c.probability, inputs.evidence)
    && c.expectedValue == Erv.Value(c.action, amount, c.probability, 0)
    && c.expectedRecovered == (if c.action == Stop then 0 else Nearest(amount as real * c.probability))
    && (c.eligible <==> MayTake(inputs, attempts, policy, c.action))
    && (c.requiresApproval <==>
          c.action != Stop
          && (amount > policy.autoActionLimit || c.confidence < policy.minimumAutoConfidence
              || c.action == EscalateToHuman))
    && c.burden < |TRIED| && TRIED[c.burden] == c.action
  }

  lemma ConfidenceIsMean(completeness: real, probability: real, evidence: real)
    requires 0.0 <= completeness <= 1.0 && 0.0 <= probability <= 1.0 && 0.0 <= evidence <= 1.0
    ensures Confidence(completeness, probability, evidence) == WeightedConfidence(completeness, probability, evidence)
  {
  }

  lemma EligibleInAnalysis(inputs: AnalysisInputs, amount: nat, attempts: nat, confidence: real,
                           policy: Policy.MerchantPolicyRow, action: ActionType)
    ensures Policy.Eligible(Policy.AnalysisContext(action, amount, attempts, confidence,
                                                   inputs.category == PaymentRailDowntime, Retrying(inputs)),
                            Policy.FromMerchantRow(policy))
       <==> MayTake(inputs, attempts, policy, action)
  {
    var config := Policy.FromMerchantRow(policy);
    var ctx := Policy.AnalysisContext(action, amount, attempts, confidence, inputs.category == PaymentRailDowntime,
                                      Retrying(inputs));
    Policy.EligibleExactly(ctx, config);
  }

  /** The parts of a built candidate, each from its own source. */
  ghost predicate Parts(inputs: AnalysisInputs, amount: nat, attempts: nat, config: Policy.PolicyConfig, c: Candidate) {
    && Erv.CalculateErv(c.action, amount, c.probability, 0).Success?
    && (var erv := Erv.CalculateErv(c.action, amount, c.probability, 0).value;
        c.expectedRecovered == erv.expectedRecovered && c.expectedValue == erv.expectedValue)
    && c.confidence == Confidence(inputs.completeness, c.probability, inputs.evidence)
    && (var question := Policy.AnalysisContext(c.action, amount, attempts, c.confidence,
                                               inputs.category == PaymentRailDowntime, Retrying(inputs));
        && c.eligible == Policy.Eligible(question, config)
        && c.requiresApproval == (c.action != Stop && Policy.NeedsApproval(question, config)))
    && c.burden == OperationalBurden(c.action)
  }

  lemma BuiltParts(inputs: AnalysisInputs, amount: nat, attempts: nat, config: Policy.PolicyConfig,
                   scores: map<ActionType, real>, action: ActionType, c: Candidate)
    requires BuildCandidate(inputs, amount, attempts, config, scores, action) == Success(c)
    ensures action in scores && c.action == action && c.probability == scores[action]
    ensures Parts(inputs, amount, attempts, config, c)
  {
  }

  lemma PartsAreFaithful(inputs: AnalysisInputs, amount: nat, attempts: nat, policy: Policy.MerchantPolicyRow,
                         c: Candidate)
    requires 0.0 <= inputs.completeness <= 1.0 && 0.0 <= inputs.evidence <= 1.0
    requires Parts(inputs, amount, attempts, Policy.FromMerchantRow(policy), c)
    requires ScoreOf(inputs, c.action) == Some(c.probability)
    ensures Faithful(inputs, amount, attempts, policy, c)
  {
    MoneyExactly(c.action, amount, c.probability, Erv.CalculateErv(c.action, amount, c.probability, 0).value);
    ConfidenceIsMean(inputs.completeness, c.probability, inputs.evidence);
    VerdictExactly(inputs, amount, attempts, policy, c);
    BurdenIsPosition(c.action);
  }

  lemma VerdictExactly(inputs: AnalysisInputs, amount: nat, attempts: nat, policy: Policy.MerchantPolicyRow,
                       c: Candidate)
    requires Parts(inputs, amount, attempts, Policy.FromMerchantRow(policy), c)
    ensures c.eligible <==> MayTake(inputs, attempts, policy, c.action)
    ensures c.requiresApproval
       <==> c.action != Stop
            && (amount > policy.autoActionLimit || c.confidence < policy.minimumAutoConfidence
                || c.action == EscalateToHuman)
  {
    EligibleInAnalysis(inputs, amount, attempts, c.confidence, policy, c.action);
    if c.action != Stop {
      ApprovalGrounds(Policy.AnalysisContext(c.action, amount, attempts, c.confidence,
                                             inputs.category == PaymentRailDowntime, Retrying(inputs)), policy);
    }
  }

  /** The money of a candidate, once its value was computed. */
  lemma MoneyExactly(action: ActionType, amount: nat, probability: real, erv: Erv.ErvBreakdown)
    requires Erv.CalculateErv(action, amount, probability, 0) == Success(erv)
    ensures 0.0 <= probability <= 1.0
    ensures erv.expectedValue == Erv.Value(action, amount, probability, 0)
    ensures erv.expectedRecovered == if action == Stop then 0 else Nearest(amount as real * probability)
  {
    AcceptedProbability(action, amount, probability);
    RecoveredExactly(action, amount, probability);
  }

  lemma AcceptedProbability(action: ActionType, amount: nat, probability: real)
    requires Erv.CalculateErv(action, amount, probability, 0).Success?
    ensures 0.0 <= probability <= 1.0
  {
  }

  lemma RecoveredExactly(action: ActionType, amount: nat, probability: real)
    requires 0.0 <= probability <= 1.0
    ensures Erv.CalculateErv(action, amount, probability, 0).Success?
    ensures Erv.CalculateErv(action, amount, probability, 0).value.expectedRecovered
         == if action == Stop then 0 else Nearest(amount as real * probability)
  {
    NearestIsRounded(amount as real * probability);
  }

  lemma BurdenIsPosition(action: ActionType)
    ensures OperationalBurden(action) < |TRIED| && TRIED[OperationalBurden(action)] == action
  {
  }

  lemma ScoresAreScoreOf(inputs: AnalysisInputs, excluded: set<ActionType>, action: ActionType)
    requires var actions := AfterExclusions(BuildContext(inputs), excluded);
             ScoreActions(inputs, actions).Success? && action in actions
    ensures var scores := ScoreActions(inputs, AfterExclusions(BuildContext(inputs), excluded)).value;
            action in scores ==> ScoreOf(inputs, action) == Some(scores[action])
  {
    OffersExactly(inputs, excluded, action);
    if inputs.inference.ModelFailure? {
      FallbackIsScoreOf(inputs, AfterExclusions(BuildContext(inputs), excluded), action);
    }
  }

  lemma FallbackIsScoreOf(inputs: AnalysisInputs, actions: seq<ActionType>, action: ActionType)
    requires inputs.inference.ModelFailure? && OfferedFor(inputs, action)
    requires FallbackScores(BuildContext(inputs), actions).Success?
    ensures var scores := FallbackScores(BuildContext(inputs), actions).value;
            action in scores ==> ScoreOf(inputs, action) == Some(scores[action])
  {
    FallbackExactly(inputs, action);
    FallbackScoresAre(BuildContext(inputs), actions, action);
  }

  lemma {:induction false} FallbackScoresAre(ctx: CandidateContext, actions: seq<ActionType>, action: ActionType)
    requires FallbackScores(ctx, actions).Success?
    ensures var scores := FallbackScores(ctx, actions).value;
            action in scores ==> FallbackProbability(ctx, action) == Some(scores[action])
  {
    if actions != [] {
      FallbackScoresAre(ctx, actions[..|actions| - 1], action);
    }
  }

  /**
   * Every candidate of a finished analysis carries the score it was given, the
   * weighted confidence, the value, and the merchant's verdict, each told from
   * the inputs and the merchant's row; and it was meant for the failure.
   */
  lemma CandidatesAreFaithful(inputs: AnalysisInputs, amount: nat, attempts: nat, policy: Policy.MerchantPolicyRow,
                              excluded: set<ActionType>, r: Ranked)
    requires 0.0 <= inputs.completeness <= 1.0 && 0.0 <= inputs.evidence <= 1.0
    requires Compute(inputs, amount, attempts, Policy.FromMerchantRow(policy), excluded).Success?
    requires r in Compute(inputs, amount, attempts, Policy.FromMerchantRow(policy), excluded).value
    ensures Faithful(inputs, amount, attempts, policy, r.candidate)
    ensures r.candidate.action == Stop || (OfferedFor(inputs, r.candidate.action) && r.candidate.action !in excluded)
  {
    var config := Policy.FromMerchantRow(policy);
    var actions := AfterExclusions(BuildContext(inputs), excluded);
    var scores := ScoreActions(inputs, actions).value;
    var candidates := BuildAll(inputs, amount, attempts, config, scores, actions).value;
    BuildAllSucceeds(inputs, amount, attempts, config, scores, actions);
    var i := RankedIsCandidate(candidates, r);
    assert actions[i] in actions;
    ScoresAreScoreOf(inputs, excluded, actions[i]);
    BuiltParts(inputs, amount, attempts, config, scores, actions[i], candidates[i]);
    PartsAreFaithful(inputs, amount, attempts, policy, candidates[i]);
    OffersExactly(inputs, excluded, actions[i]);
  }

  lemma RankedIsCandidate(candidates: seq<Candidate>, r: Ranked) returns (i: nat)
    requires r in Rank(candidates)
    ensures i < |candidates| && candidates[i] == r.candidate
  {
    SortSorts(candidates);
    var k :| 0 <= k < |Rank(candidates)| && Rank(candidates)[k] == r;
    assert Sort(candidates)[k] in multiset(Sort(candidates));
    assert r.candidate in candidates;
    i :| 0 <= i < |candidates| && candidates[i] == r.candidate;
  }

  // ------------------------------------------------------------ stored rows

  /** Rounding keeps six places and moves a value by at most half a unit of the last one. */
  lemma StoredExactly(r: Ranked)
    ensures var row := ToRow(r);
            && row.action == r.candidate.action && row.rank == r.rank
            && row.expectedRecovered == r.candidate.expectedRecovered
            && row.expectedValue == r.candidate.expectedValue
            && row.eligible == r.candidate.eligible && row.requiresApproval == r.candidate.requiresApproval
            && SixPlaces(row.probability) && SixPlaces(row.confidence)
            && -0.0000005 <= row.probability - r.candidate.probability <= 0.0000005
            && -0.0000005 <= row.confidence - r.candidate.confidence <= 0.0000005
  {
    SixPlacesOf(r.candidate.probability);
    SixPlacesOf(r.candidate.confidence);
  }

  predicate SixPlaces(value: real) {
    value * 1000000.0 == (value * 1000000.0).Floor as real
  }

  lemma SixPlacesOf(value: real)
    ensures SixPlaces(Round6(value)) && -0.0000005 <= Round6(value) - value <= 0.0000005
  {
    var n := Erv.RoundHalfUp(value * 1000000.0);
    assert Round6(value) * 1000000.0 == n as real;
  }
}
