/** The analysis computation: candidates, scores, value, policy, ranking, selection. */
module Analysis {
  import opened Domain
  import opened Candidates
  import Erv
  import Policy
  import opened Ranking
  import opened Selection

  /** Where the money of the case comes from. */
  datatype RevenueSource = FromTransaction | FromSubscription(status: string)

  /** Whatever the propensity model returned; an unscored action is absent from the map. */
  datatype Inference = ModelScores(scores: map<ActionType, real>) | ModelFailure

  datatype AnalysisError =
    | ModelUnavailable
    | NoFallbackProbability(action: ActionType)
    | MissingProbability(action: ActionType)
    | InvalidErvInput(error: Erv.ErvError)

  /** Everything the computation reads about one case besides its own row. */
  datatype AnalysisInputs = AnalysisInputs(
    source: RevenueSource,
    category: FailureCategory,
    railDowntimeKnown: bool,
    inference: Inference,
    allowFallback: bool,
    completeness: real,
    evidence: real)

  function BuildContext(inputs: AnalysisInputs): (ctx: CandidateContext)
    ensures ValidContext(ctx)
  {
    var downtime := inputs.railDowntimeKnown || inputs.category == PaymentRailDowntime;
    match inputs.source
    case FromTransaction =>
      CandidateContext(inputs.category, PaymentFailure, None, false, false, downtime, true)
    case FromSubscription(status) =>
      CandidateContext(inputs.category, SubscriptionFailure, Some(status), status == "pending", false, downtime, true)
  }

  function Clamp(value: real): (r: real)
    ensures 0.0 <= r <= 1.0
    ensures 0.0 <= value <= 1.0 ==> r == value
  {
    if value < 0.0 then 0.0 else if value > 1.0 then 1.0 else value
  }

  function Abs(value: real): real {
    if value < 0.0 then -value else value
  }

  function Confidence(completeness: real, probability: real, evidence: real): (r: real)
    ensures 0.0 <= r <= 1.0
  {
    var certainty := Clamp(2.0 * Abs(Clamp(probability) - 0.5));
    Clamp(0.45 * Clamp(completeness) + 0.35 * certainty + 0.20 * Clamp(evidence))
  }

  function FallbackScores(ctx: CandidateContext, actions: seq<ActionType>)
    : Result<map<ActionType, real>, AnalysisError>
  {
    if actions == [] then Success(map[])
    else
      var last := actions[|actions| - 1];
      match FallbackScores(ctx, actions[..|actions| - 1])
      case Failure(e) => Failure(e)
      case Success(scores) =>
        var p := FallbackProbability(ctx, last);
        if p.None? then Failure(NoFallbackProbability(last)) else Success(scores[last := p.value])
  }

  function ScoreActions(inputs: AnalysisInputs, actions: seq<ActionType>)
    : Result<map<ActionType, real>, AnalysisError>
  {
    match inputs.inference
    case ModelScores(scores) => Success(scores)
    case ModelFailure =>
      if inputs.allowFallback then FallbackScores(BuildContext(inputs), actions) else Failure(ModelUnavailable)
  }

  /** The part of a candidate that policy and value decide. */
  function BuildCandidate(inputs: AnalysisInputs, amount: nat, attempts: nat, policy: Policy.PolicyConfig,
                          scores: map<ActionType, real>, action: ActionType): Result<Candidate, AnalysisError>
  {
    if action !in scores then Failure(MissingProbability(action))
    else
      match Erv.CalculateErv(action, amount, scores[action], 0)
      case Failure(e) => Failure(InvalidErvInput(e))
      case Success(erv) =>
        var confidence := Confidence(inputs.completeness, scores[action], inputs.evidence);
        var question := Policy.AnalysisContext(action, amount, attempts, confidence,
                                               inputs.category == PaymentRailDowntime,
                                               BuildContext(inputs).providerRetriesActive);
        Success(Candidate(action, scores[action], erv.expectedRecovered, erv.expectedValue, confidence,
                          Policy.Eligible(question, policy),
                          action != Stop && Policy.NeedsApproval(question, policy),
                          OperationalBurden(action)))
  }

  function BuildAll(inputs: AnalysisInputs, amount: nat, attempts: nat, policy: Policy.PolicyConfig,
                    scores: map<ActionType, real>, actions: seq<ActionType>): Result<seq<Candidate>, AnalysisError>
  {
    if actions == [] then Success([])
    else
      match BuildAll(inputs, amount, attempts, policy, scores, actions[..|actions| - 1])
      case Failure(e) => Failure(e)
      case Success(front) =>
        match BuildCandidate(inputs, amount, attempts, policy, scores, actions[|actions| - 1])
        case Failure(e) => Failure(e)
        case Success(c) => Success(front + [c])
  }

  function Compute(inputs: AnalysisInputs, amount: nat, attempts: nat, policy: Policy.PolicyConfig,
                   excluded: set<ActionType>): Result<seq<Ranked>, AnalysisError>
  {
    var actions := AfterExclusions(BuildContext(inputs), excluded);
    match ScoreActions(inputs, actions)
    case Failure(e) => Failure(e)
    case Success(scores) =>
      match BuildAll(inputs, amount, attempts, policy, scores, actions)
      case Failure(e) => Failure(e)
      case Success(candidates) => Success(Rank(candidates))
  }

  // ------------------------------------------------------------ the loops of the service

  method ComputeAnalysis(inputs: AnalysisInputs, amount: nat, attempts: nat, policy: Policy.PolicyConfig,
                         excluded: set<ActionType>) returns (r: Result<seq<Ranked>, AnalysisError>)
    ensures r == Compute(inputs, amount, attempts, policy, excluded)
  {
    var ctx := BuildContext(inputs);
    var actions := GenerateCandidates(ctx);
    if excluded != {} {
      actions := WithStop(Without(actions, excluded));
    }
    var inference := ScoreActions(inputs, actions);
    if inference.Failure? {
      return Failure(inference.error);
    }
    var built := BuildCandidates(inputs, amount, attempts, policy, inference.value, actions);
    if built.Failure? {
      return Failure(built.error);
    }
    var ranked := RankCandidates(built.value);
    r := Success(ranked);
  }

  method BuildCandidates(inputs: AnalysisInputs, amount: nat, attempts: nat, policy: Policy.PolicyConfig,
                         scores: map<ActionType, real>, actions: seq<ActionType>)
    returns (r: Result<seq<Candidate>, AnalysisError>)
    ensures r == BuildAll(inputs, amount, attempts, policy, scores, actions)
  {
    var candidates: seq<Candidate> := [];
    for i := 0 to |actions|
      invariant BuildAll(inputs, amount, attempts, policy, scores, actions[..i]) == Success(candidates)
    {
      assert actions[..i + 1][..i] == actions[..i];
      var built := BuildCandidate(inputs, amount, attempts, policy, scores, actions[i]);
      if built.Failure? {
        BuildAllFails(inputs, amount, attempts, policy, scores, actions, i);
        return Failure(built.error);
      }
      candidates := candidates + [built.value];
    }
    assert actions[..|actions|] == actions;
    r := Success(candidates);
  }

  /** A candidate that cannot be built ends the whole computation with its error. */
  lemma {:induction false} BuildAllFails(inputs: AnalysisInputs, amount: nat, attempts: nat,
                                         policy: Policy.PolicyConfig,
                                         scores: map<ActionType, real>, actions: seq<ActionType>, i: nat)
    requires i < |actions|
    requires BuildAll(inputs, amount, attempts, policy, scores, actions[..i]).Success?
    requires BuildCandidate(inputs, amount, attempts, policy, scores, actions[i]).Failure?
    ensures BuildAll(inputs, amount, attempts, policy, scores, actions)
         == Failure(BuildCandidate(inputs, amount, attempts, policy, scores, actions[i]).error)
  {
    var front := actions[..|actions| - 1];
    if i == |actions| - 1 {
      assert front == actions[..i];
    } else {
      assert front[..i] == actions[..i];
      BuildAllFails(inputs, amount, attempts, policy, scores, front, i);
    }
  }

  // ------------------------------------------------------------ totality

  /** The scores cover the candidates with probabilities. */
  predicate Covers(scores: map<ActionType, real>, actions: seq<ActionType>) {
    forall a :: a in actions ==> a in scores && 0.0 <= scores[a] <= 1.0
  }

  predicate UsableInference(inputs: AnalysisInputs, excluded: set<ActionType>) {
    match inputs.inference
    case ModelScores(scores) => Covers(scores, AfterExclusions(BuildContext(inputs), excluded))
    case ModelFailure => inputs.allowFallback
  }

  lemma {:induction false} FallbackScoresCover(ctx: CandidateContext, actions: seq<ActionType>)
    requires forall a :: a in actions ==>
               FallbackProbability(ctx, a).Some? && 0.0 <= FallbackProbability(ctx, a).value <= 1.0
    ensures FallbackScores(ctx, actions).Success? && Covers(FallbackScores(ctx, actions).value, actions)
  {
    if actions != [] {
      var front, last := actions[..|actions| - 1], actions[|actions| - 1];
      assert actions == front + [last];
      FallbackScoresCover(ctx, front);
    }
  }

  /** Candidates come out in action order, and only admissible scores let the computation finish. */
  lemma {:induction false} BuildAllSucceeds(inputs: AnalysisInputs, amount: nat, attempts: nat,
                                            policy: Policy.PolicyConfig,
                                            scores: map<ActionType, real>, actions: seq<ActionType>)
    ensures BuildAll(inputs, amount, attempts, policy, scores, actions).Success? <==> Covers(scores, actions)
    ensures BuildAll(inputs, amount, attempts, policy, scores, actions).Success? ==>
              var cs := BuildAll(inputs, amount, attempts, policy, scores, actions).value;
              && |cs| == |actions|
              && forall i :: 0 <= i < |cs| ==>
                   BuildCandidate(inputs, amount, attempts, policy, scores, actions[i]) == Success(cs[i])
                   && cs[i].action == actions[i]
  {
    if actions != [] {
      var front, last := actions[..|actions| - 1], actions[|actions| - 1];
      BuildAllSucceeds(inputs, amount, attempts, policy, scores, front);
      assert forall a :: a in actions <==> a in front || a == last by {
        assert actions == front + [last];
      }
      if last in scores {
        Erv.ErvBounds(last, amount, scores[last], 0);
      }
    }
  }

  /** Exactly the admissible inferences let the analysis finish. */
  lemma AnalysisFinishes(inputs: AnalysisInputs, amount: nat, attempts: nat, policy: Policy.PolicyConfig,
                         excluded: set<ActionType>)
    ensures Compute(inputs, amount, attempts, policy, excluded).Success? <==> UsableInference(inputs, excluded)
  {
    var ctx := BuildContext(inputs);
    var actions := AfterExclusions(ctx, excluded);
    if inputs.inference.ModelFailure? && inputs.allowFallback {
      forall a | a in actions
        ensures FallbackProbability(ctx, a).Some? && 0.0 <= FallbackProbability(ctx, a).value <= 1.0
      {
        FallbackIsComplete(ctx, excluded, a);
      }
      FallbackScoresCover(ctx, actions);
    }
    if ScoreActions(inputs, actions).Success? {
      BuildAllSucceeds(inputs, amount, attempts, policy, ScoreActions(inputs, actions).value, actions);
    }
  }

  /** STOP passes analysis policy whatever the policy says. */
  lemma StopIsEligible(amount: nat, attempts: nat, confidence: real, downtime: bool, retries: bool,
                       policy: Policy.PolicyConfig)
    ensures Policy.Eligible(Policy.AnalysisContext(Stop, amount, attempts, confidence, downtime, retries), policy)
  {
  }

  /** The candidates behind a finished analysis, in generation order. */
  lemma CandidatesOfAnalysis(inputs: AnalysisInputs, amount: nat, attempts: nat, policy: Policy.PolicyConfig,
                             excluded: set<ActionType>) returns (candidates: seq<Candidate>)
    requires Compute(inputs, amount, attempts, policy, excluded).Success?
    ensures Compute(inputs, amount, attempts, policy, excluded).value == Rank(candidates)
    ensures DistinctActions(candidates)
    ensures forall c :: c in candidates ==> c.action in AfterExclusions(BuildContext(inputs), excluded)
    ensures exists c :: c in candidates && c.action == Stop && c.eligible
  {
    var actions := AfterExclusions(BuildContext(inputs), excluded);
    var scores := ScoreActions(inputs, actions).value;
    candidates := BuildAll(inputs, amount, attempts, policy, scores, actions).value;
    CandidatesAreWellFormed(BuildContext(inputs), excluded);
    BuildAllSucceeds(inputs, amount, attempts, policy, scores, actions);
    var i :| 0 <= i < |actions| && actions[i] == Stop;
    StopIsEligible(amount, attempts, candidates[i].confidence, inputs.category == PaymentRailDowntime,
                   BuildContext(inputs).providerRetriesActive, policy);
    assert candidates[i] in candidates;
  }

  lemma RankIsCanonical(candidates: seq<Candidate>)
    requires DistinctActions(candidates)
    ensures Canonical(Rank(candidates))
  {
    SortSorts(candidates);
    PermutationKeepsDistinct(candidates, Sort(candidates));
  }

  /** A finished analysis selects something, and never an intervention that was excluded. */
  lemma AnalysisSelects(inputs: AnalysisInputs, amount: nat, attempts: nat, policy: Policy.PolicyConfig,
                        excluded: set<ActionType>)
    requires Compute(inputs, amount, attempts, policy, excluded).Success?
    ensures var ranked := Compute(inputs, amount, attempts, policy, excluded).value;
            && Canonical(ranked)
            && SelectRecommendation(ranked).Some?
            && var selected := SelectRecommendation(ranked).value.candidate;
               selected.action == Stop || selected.action !in excluded
  {
    var candidates := CandidatesOfAnalysis(inputs, amount, attempts, policy, excluded);
    var stop :| stop in candidates && stop.action == Stop && stop.eligible;
    StopMakesSelectionTotal(candidates, stop);
    RankIsCanonical(candidates);
    SortSorts(candidates);
    var selected := SelectRecommendation(Rank(candidates)).value.candidate;
    assert selected in multiset(Sort(candidates));
    CandidatesAreWellFormed(BuildContext(inputs), excluded);
  }

  /** Ranking a run in any scoring order and storing it leads the executor to the same action. */
  lemma ExecutorAgreesWithAnalysis(inputs: AnalysisInputs, amount: nat, attempts: nat, policy: Policy.PolicyConfig,
                                   excluded: set<ActionType>, ranked: seq<Ranked>, rows: seq<Row>)
    requires Compute(inputs, amount, attempts, policy, excluded) == Success(ranked)
    requires multiset(rows) == multiset(Persist(ranked))
    ensures SelectRecommendation(ranked).Some?
    ensures SelectCandidateRow(rows) == Some(ToRow(SelectRecommendation(ranked).value))
  {
    AnalysisSelects(inputs, amount, attempts, policy, excluded);
    SelectionSurvivesPersistence(ranked, rows);
  }

  /**
   * Analysis and execution may disagree about approval in one direction only:
   * the executor drops the requirement exactly when low confidence was its
   * only ground and rounding to six places lifted it to the threshold.
   */
  lemma ApprovalAtExecution(action: ActionType, amount: nat, currency: string, attempts: nat, confidence: real,
                            linkInFlight: bool, downtime: bool, retries: bool, row: Policy.MerchantPolicyRow)
    requires action != Stop && OnGrid(row.minimumAutoConfidence)
    ensures var policy := Policy.FromMerchantRow(row);
            var analysis := Policy.AnalysisContext(action, amount, attempts, confidence, downtime, retries);
            var execution := Policy.ExecutionContext(action, amount, currency, attempts, Round6(confidence),
                                                     linkInFlight);
            && (Policy.NeedsApproval(execution, policy) ==> Policy.NeedsApproval(analysis, policy))
            && (Policy.NeedsApproval(analysis, policy) && !Policy.NeedsApproval(execution, policy) <==>
                  && amount <= row.autoActionLimit && action != EscalateToHuman
                  && row.minimumAutoConfidence - 0.0000005 <= confidence < row.minimumAutoConfidence)
  {
    var policy := Policy.FromMerchantRow(row);
    RoundedConfidenceGap(confidence, row.minimumAutoConfidence);
    ApprovalGrounds(Policy.AnalysisContext(action, amount, attempts, confidence, downtime, retries), row);
    ApprovalGrounds(Policy.ExecutionContext(action, amount, currency, attempts, Round6(confidence), linkInFlight), row);
  }

  lemma ApprovalGrounds(ctx: Policy.PolicyContext, row: Policy.MerchantPolicyRow)
    requires ctx.action != Stop
    ensures Policy.NeedsApproval(ctx, Policy.FromMerchantRow(row))
       <==> ctx.amountAtRisk > row.autoActionLimit || ctx.confidence < row.minimumAutoConfidence
            || ctx.action == EscalateToHuman
  {
    var policy := Policy.FromMerchantRow(row);
    assert Policy.Raised(Policy.AmountAboveAutoActionLimit, ctx, policy) <==> ctx.amountAtRisk > row.autoActionLimit;
    assert Policy.Raised(Policy.ConfidenceBelowAutoThreshold, ctx, policy)
      <==> ctx.confidence < row.minimumAutoConfidence;
    assert Policy.Raised(Policy.ManualContactApprovalRequired, ctx, policy) <==> ctx.action == EscalateToHuman;
  }
}
