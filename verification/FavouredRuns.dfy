/**
 * Concrete runs of one case whose model favours one action. The merchant asks
 * for the most confidence an unexplained failure can have, and the model falls
 * short of it by less than the stored columns can show.
 */
module FavouredRuns {
  import opened Domain
  import opened Selection
  import opened Cases
  import opened Protocol
  import opened CaseInvariants
  import opened CaseRuns
  import opened CaseProgress
  import opened ServiceRuns
  import opened Candidates
  import opened Ranking
  import Analysis
  import CaseTheorems
  import AnalysisWorkflow
  import Erv
  import Evidence
  import Policy

  const MERCHANT :=
    Policy.MerchantPolicyRow(1_000_000, 3, 3, 0.86125, 0, true, {Wait, CreatePaymentLink, EscalateToHuman})

  const SCORE := 0.9999999
  const CONFIDENCE := 0.86124993

  const FAILED_PAYMENT := Opening("razorpay:payment_failed:pay_1", Some("pay_1"), 100_000, "INR")

  function Scores(favoured: ActionType): map<ActionType, real> {
    map[Wait := 0.0, Stop := 0.0, EscalateToHuman := if favoured == EscalateToHuman then SCORE else 0.0,
        CreatePaymentLink := if favoured == CreatePaymentLink then SCORE else 0.0]
  }

  /** A model that is all but certain of one action and gives the others nothing. */
  function InputsFor(favoured: ActionType): Analysis.AnalysisInputs {
    Analysis.AnalysisInputs(Analysis.FromTransaction, UnknownFailure, false, Analysis.ModelScores(Scores(favoured)),
                            false, 23.0 / 24.0, 0.40)
  }

  /** The inputs are those of a failed payment without a stated reason, for a known customer. */
  lemma InputsArise(favoured: ActionType)
    ensures Evidence.Arises(InputsFor(favoured))
  {
    Evidence.UnexplainedInputs(Analysis.ModelScores(Scores(favoured)), false);
  }

  /** Every analysis among the steps starts from inputs that arise. */
  ghost predicate Grounded(steps: seq<CaseStep>) {
    forall i :: 0 <= i < |steps| && steps[i].StoreRunStep? ==> Evidence.Arises(steps[i].inputs)
  }

  lemma GroundedConcat(first: seq<CaseStep>, more: seq<CaseStep>)
    requires Grounded(first) && Grounded(more)
    ensures Grounded(first + more)
  {
  }

  /** Below the merchant's threshold, hence in need of approval at analysis time. */
  predicate AlmostCertain(c: Candidate) {
    c.confidence == CONFIDENCE && c.requiresApproval
  }

  predicate Favourable(action: ActionType) {
    action == CreatePaymentLink || action == EscalateToHuman
  }

  lemma OfferedActions(favoured: ActionType, action: ActionType)
    ensures action in AfterExclusions(Analysis.BuildContext(InputsFor(favoured)), {})
       <==> action == Wait || action == EscalateToHuman || action == CreatePaymentLink || action == Stop
  {
    var ctx := Analysis.BuildContext(InputsFor(favoured));
    assert ScenarioMatrix(EffectiveScenario(ctx)) == [Wait, EscalateToHuman, CreatePaymentLink, Stop];
  }

  lemma ValueOf(action: ActionType, p: real)
    requires (p == 0.0 || p == SCORE) && action != SendRecoveryMessage
    ensures p == 0.0 ==> Erv.CalculateErv(action, 100_000, p, 0).value.expectedValue <= 0
    ensures p == SCORE && action != Stop ==> Erv.CalculateErv(action, 100_000, p, 0).value.expectedValue > 0
  {
  }

  lemma FavouredIsSelected(favoured: ActionType, attempts: nat)
    requires Favourable(favoured) && attempts < 3
    ensures var r := Analysis.Compute(InputsFor(favoured), 100_000, attempts, Policy.FromMerchantRow(MERCHANT), {});
            && r.Success?
            && SelectRecommendation(r.value).Some?
            && SelectRecommendation(r.value).value.candidate.action == favoured
            && AlmostCertain(SelectRecommendation(r.value).value.candidate)
  {
    var candidates := FavouredCandidates(favoured, attempts);
    FavouredWins(favoured, candidates);
  }

  lemma FavouredCandidates(favoured: ActionType, attempts: nat) returns (candidates: seq<Candidate>)
    requires Favourable(favoured) && attempts < 3
    ensures Analysis.Compute(InputsFor(favoured), 100_000, attempts, Policy.FromMerchantRow(MERCHANT), {})
         == Success(Rank(candidates))
    ensures forall c :: c in candidates ==> c.action == favoured || c.expectedValue <= 0
    ensures forall c :: c in candidates && c.action == favoured ==> AlmostCertain(c)
    ensures exists c :: c in candidates && c.action == favoured && c.expectedValue > 0 && c.eligible
  {
    var actions := OfferedList(favoured);
    OfferedAreScored(favoured, actions);
    candidates := BuiltCandidates(favoured, attempts, actions);
    FavouredIsAmong(favoured, candidates, actions);
  }

  lemma OfferedList(favoured: ActionType) returns (actions: seq<ActionType>)
    ensures actions == AfterExclusions(Analysis.BuildContext(InputsFor(favoured)), {})
    ensures forall a :: a in actions <==> a == Wait || a == EscalateToHuman || a == CreatePaymentLink || a == Stop
  {
    actions := AfterExclusions(Analysis.BuildContext(InputsFor(favoured)), {});
    forall a: ActionType
      ensures a in actions <==> a == Wait || a == EscalateToHuman || a == CreatePaymentLink || a == Stop
    {
      OfferedActions(favoured, a);
    }
  }

  lemma FavouredIsAmong(favoured: ActionType, candidates: seq<Candidate>, actions: seq<ActionType>)
    requires |candidates| == |actions| && favoured in actions
    requires forall i :: 0 <= i < |candidates| ==> candidates[i].action == actions[i]
    ensures exists c :: c in candidates && c.action == favoured
  {
    var i :| 0 <= i < |actions| && actions[i] == favoured;
    assert candidates[i] in candidates;
  }

  lemma OfferedAreScored(favoured: ActionType, actions: seq<ActionType>)
    requires forall a :: a in actions ==> a == Wait || a == EscalateToHuman || a == CreatePaymentLink || a == Stop
    ensures Analysis.Covers(Scores(favoured), actions)
  {
  }

  lemma BuiltCandidates(favoured: ActionType, attempts: nat, actions: seq<ActionType>)
    returns (candidates: seq<Candidate>)
    requires Favourable(favoured) && attempts < 3
    requires actions == AfterExclusions(Analysis.BuildContext(InputsFor(favoured)), {})
    requires forall a :: a in actions ==> a == Wait || a == EscalateToHuman || a == CreatePaymentLink || a == Stop
    requires Analysis.Covers(Scores(favoured), actions)
    ensures Analysis.Compute(InputsFor(favoured), 100_000, attempts, Policy.FromMerchantRow(MERCHANT), {})
         == Success(Rank(candidates))
    ensures |candidates| == |actions|
    ensures forall i :: 0 <= i < |candidates| ==> candidates[i].action == actions[i]
    ensures forall c :: c in candidates ==> c.action == favoured || c.expectedValue <= 0
    ensures forall c :: c in candidates && c.action == favoured ==>
              c.expectedValue > 0 && c.eligible && AlmostCertain(c)
  {
    var config := Policy.FromMerchantRow(MERCHANT);
    Analysis.BuildAllSucceeds(InputsFor(favoured), 100_000, attempts, config, Scores(favoured), actions);
    candidates := Analysis.BuildAll(InputsFor(favoured), 100_000, attempts, config, Scores(favoured), actions).value;
    CandidateValues(favoured, attempts, candidates, actions);
  }

  lemma FavouredWins(favoured: ActionType, candidates: seq<Candidate>)
    requires Favourable(favoured)
    requires forall c :: c in candidates ==> c.action == favoured || c.expectedValue <= 0
    requires exists c :: c in candidates && c.action == favoured && c.expectedValue > 0 && c.eligible
    ensures SelectRecommendation(Rank(candidates)).Some?
    ensures SelectRecommendation(Rank(candidates)).value.candidate.action == favoured
    ensures SelectRecommendation(Rank(candidates)).value.candidate in candidates
  {
    SelectionIsOptimal(candidates);
  }

  lemma CandidateValues(favoured: ActionType, attempts: nat, candidates: seq<Candidate>, actions: seq<ActionType>)
    requires Favourable(favoured) && attempts < 3 && |candidates| == |actions|
    requires forall a :: a in actions ==> a == Wait || a == EscalateToHuman || a == CreatePaymentLink || a == Stop
    requires forall i :: 0 <= i < |candidates| ==>
               candidates[i].action == actions[i]
               && Analysis.BuildCandidate(InputsFor(favoured), 100_000, attempts, Policy.FromMerchantRow(MERCHANT),
                                          Scores(favoured), actions[i]) == Success(candidates[i])
    ensures forall c :: c in candidates ==> c.action == favoured || c.expectedValue <= 0
    ensures forall c :: c in candidates && c.action == favoured ==>
              c.expectedValue > 0 && c.eligible && AlmostCertain(c)
  {
    forall i | 0 <= i < |candidates|
      ensures candidates[i].action == favoured || candidates[i].expectedValue <= 0
      ensures candidates[i].action == favoured ==>
                candidates[i].expectedValue > 0 && candidates[i].eligible && AlmostCertain(candidates[i])
    {
      assert actions[i] in actions;
      CandidateValue(favoured, attempts, actions[i], candidates[i]);
    }
  }

  lemma CandidateValue(favoured: ActionType, attempts: nat, action: ActionType, c: Candidate)
    requires Favourable(favoured) && attempts < 3
    requires action == Wait || action == EscalateToHuman || action == CreatePaymentLink || action == Stop
    requires Analysis.BuildCandidate(InputsFor(favoured), 100_000, attempts, Policy.FromMerchantRow(MERCHANT),
                                     Scores(favoured), action) == Success(c)
    ensures action == favoured || c.expectedValue <= 0
    ensures action == favoured ==> c.expectedValue > 0 && c.eligible && AlmostCertain(c)
  {
    ScoreOf(favoured, action);
    var p := if action == favoured then SCORE else 0.0;
    BuiltValue(InputsFor(favoured), attempts, Policy.FromMerchantRow(MERCHANT), Scores(favoured), action, c, p);
    if action == favoured {
      BuiltFavourite(favoured, attempts, c);
      BuiltConfidence(InputsFor(favoured), attempts, Scores(favoured), favoured, c);
    }
  }

  lemma ScoreOf(favoured: ActionType, action: ActionType)
    requires Favourable(favoured)
    requires action == Wait || action == EscalateToHuman || action == CreatePaymentLink || action == Stop
    ensures action in Scores(favoured) && Scores(favoured)[action] == if action == favoured then SCORE else 0.0
  {
  }

  lemma BuiltValue(inputs: Analysis.AnalysisInputs, attempts: nat, config: Policy.PolicyConfig,
                   scores: map<ActionType, real>, action: ActionType, c: Candidate, p: real)
    requires Analysis.BuildCandidate(inputs, 100_000, attempts, config, scores, action) == Success(c)
    requires action != SendRecoveryMessage && action in scores && scores[action] == p && (p == 0.0 || p == SCORE)
    ensures p == 0.0 ==> c.expectedValue <= 0
    ensures p == SCORE && action != Stop ==> c.expectedValue > 0
  {
    ValueOf(action, p);
  }

  lemma BuiltConfidence(inputs: Analysis.AnalysisInputs, attempts: nat, scores: map<ActionType, real>,
                        action: ActionType, c: Candidate)
    requires action in scores && scores[action] == SCORE && action != Stop
    requires inputs.completeness == 23.0 / 24.0 && inputs.evidence == 0.40
    requires Analysis.BuildCandidate(inputs, 100_000, attempts, Policy.FromMerchantRow(MERCHANT), scores, action)
          == Success(c)
    ensures AlmostCertain(c)
  {
    UnexplainedConfidence();
    var question := Policy.AnalysisContext(action, 100_000, attempts, CONFIDENCE,
                                           inputs.category == PaymentRailDowntime,
                                           Analysis.BuildContext(inputs).providerRetriesActive);
    Analysis.ApprovalGrounds(question, MERCHANT);
  }

  lemma UnexplainedConfidence()
    ensures Analysis.Confidence(23.0 / 24.0, SCORE, 0.40) == CONFIDENCE
  {
  }

  lemma BuiltFavourite(favoured: ActionType, attempts: nat, c: Candidate)
    requires Favourable(favoured) && attempts < 3
    requires Analysis.BuildCandidate(InputsFor(favoured), 100_000, attempts, Policy.FromMerchantRow(MERCHANT),
                                     Scores(favoured), favoured) == Success(c)
    ensures c.eligible
  {
    FavouredIsEligible(favoured, attempts, c.confidence);
  }

  lemma FavouredIsEligible(favoured: ActionType, attempts: nat, confidence: real)
    requires Favourable(favoured) && attempts < 3
    ensures Policy.Eligible(Policy.AnalysisContext(favoured, 100_000, attempts, confidence, false, false),
                            Policy.FromMerchantRow(MERCHANT))
  {
    Policy.ExecutionEligibleExactly(favoured, 100_000, "INR", attempts, confidence, false, MERCHANT);
    Policy.ExecutionRefinesAnalysis(favoured, 100_000, "INR", attempts, confidence, confidence, false, false, false,
                                    Policy.FromMerchantRow(MERCHANT));
  }

  // ------------------------------------------------------------ the run, stage by stage

  ghost predicate Ours(c: CaseState) {
    Inv(c, MERCHANT) && c.amountAtRisk == 100_000 && c.currency == "INR" && |c.actions| < 3
  }

  /** Stored with the approval requirement of its analysis, but at the confidence asked for. */
  predicate RoundedUp(row: Row) {
    row.confidence == 0.86125 && row.requiresApproval
  }

  ghost predicate Offers(c: CaseState, action: ActionType) {
    && c.status == Recommended && c.currentRun.Some? && c.currentRun.value < |c.runs|
    && SelectCandidateRow(c.runs[c.currentRun.value]).Some?
    && SelectCandidateRow(c.runs[c.currentRun.value]).value.action == action
    && RoundedUp(SelectCandidateRow(c.runs[c.currentRun.value]).value)
  }

  function AnalysisSteps(reason: AnalysisReason, favoured: ActionType): seq<CaseStep> {
    [BeginAnalysisStep(reason, 0)] + AnalyzedSteps(Some(InputsFor(favoured)), 0)
  }

  lemma AnalysisIsGrounded(reason: AnalysisReason, favoured: ActionType)
    ensures Grounded(AnalysisSteps(reason, favoured))
  {
    InputsArise(favoured);
  }

  lemma AnalysisOffers(c: CaseState, reason: AnalysisReason, favoured: ActionType)
    requires Ours(c) && Favourable(favoured)
    requires (c.status == Detected && reason == ManualAnalysis)
             || (c.status == WaitingForOutcome && reason == NewProviderEvidence)
    ensures var d := Run(c, MERCHANT, AnalysisSteps(reason, favoured));
            && Ours(d) && Offers(d, favoured) && d.actions == c.actions
            && d.currentRun == Some(|c.runs|) && |d.runs| == |c.runs| + 1
  {
    RunKeepsInv(c, MERCHANT, AnalysisSteps(reason, favoured));
    var begun := AnalysisBegins(c, reason);
    RunAppend(c, MERCHANT, [BeginAnalysisStep(reason, 0)], AnalyzedSteps(Some(InputsFor(favoured)), 0));
    AnalyzingOffers(begun, favoured);
    AnalyzedIsRun(begun, MERCHANT, Some(InputsFor(favoured)), 0);
  }

  lemma AnalysisBegins(c: CaseState, reason: AnalysisReason) returns (begun: CaseState)
    requires (c.status == Detected && reason == ManualAnalysis)
             || (c.status == WaitingForOutcome && reason == NewProviderEvidence)
    ensures begun == Run(c, MERCHANT, [BeginAnalysisStep(reason, 0)])
    ensures begun == c.(status := Analyzing, version := begun.version, audits := begun.audits,
                        analysis := Computing({}))
  {
    RunOne(c, MERCHANT, BeginAnalysisStep(reason, 0));
    begun := Keep(c, BeginAnalysis(c, reason, 0));
  }

  lemma AnalyzingOffers(c: CaseState, favoured: ActionType)
    requires c.status == Analyzing && c.analysis == Computing({}) && Favourable(favoured)
    requires c.amountAtRisk == 100_000 && |c.actions| < 3
    ensures var d := AnalysisWorkflow.Analyzed(c, MERCHANT, Some(InputsFor(favoured)), 0);
            && Offers(d, favoured) && d.actions == c.actions
            && d.currentRun == Some(|c.runs|) && |d.runs| == |c.runs| + 1
            && d.amountAtRisk == c.amountAtRisk && d.currency == c.currency
  {
    var inputs := InputsFor(favoured);
    var ranked := FavouredRow(favoured, |c.actions|);
    AnalysisWorkflow.StoresRun(c, MERCHANT, inputs, 0, ranked);
    AnalysisWorkflow.CompletesStored(StoreRun(c, MERCHANT, inputs, 0), 0);
  }

  lemma FavouredRow(favoured: ActionType, attempts: nat) returns (ranked: seq<Ranked>)
    requires Favourable(favoured) && attempts < 3
    ensures Analysis.Compute(InputsFor(favoured), 100_000, attempts, Policy.FromMerchantRow(MERCHANT),
                             {}) == Success(ranked)
    ensures SelectCandidateRow(Persist(ranked)).Some?
    ensures SelectCandidateRow(Persist(ranked)).value.action == favoured
    ensures RoundedUp(SelectCandidateRow(Persist(ranked)).value)
  {
    FavouredIsSelected(favoured, attempts);
    ranked := Analysis.Compute(InputsFor(favoured), 100_000, attempts, Policy.FromMerchantRow(MERCHANT), {}).value;
    StoredRow(InputsFor(favoured), 100_000, attempts, Policy.FromMerchantRow(MERCHANT), ranked, favoured);
  }

  lemma StoredRow(inputs: Analysis.AnalysisInputs, amount: nat, attempts: nat, config: Policy.PolicyConfig,
                  ranked: seq<Ranked>, action: ActionType)
    requires Analysis.Compute(inputs, amount, attempts, config, {}) == Success(ranked)
    requires SelectRecommendation(ranked).Some?
    requires var selected := SelectRecommendation(ranked).value.candidate;
             selected.action == action && AlmostCertain(selected)
    ensures SelectCandidateRow(Persist(ranked)).Some?
    ensures var row := SelectCandidateRow(Persist(ranked)).value; row.action == action && RoundedUp(row)
  {
    var selected := SelectRecommendation(ranked).value;
    RowRoundsUp(selected);
    assert SelectCandidateRow(Persist(ranked)) == Some(ToRow(selected)) by {
      Analysis.ExecutorAgreesWithAnalysis(inputs, amount, attempts, config, {}, ranked, Persist(ranked));
    }
  }

  lemma RowRoundsUp(r: Ranked)
    requires AlmostCertain(r.candidate)
    ensures ToRow(r).action == r.candidate.action && RoundedUp(ToRow(r))
  {
  }

  function LinkStep(c: CaseState): CaseStep
    requires c.currentRun.Some?
  {
    CreateActionStep(c.currentRun.value, CreatePaymentLink, NoClient, false, 0)
  }

  lemma LinkStarts(c: CaseState) returns (started: CaseState)
    requires Ours(c) && Offers(c, CreatePaymentLink) && c.actions == []
    ensures started == Run(c, MERCHANT, [LinkStep(c)])
    ensures started.status == Executing && started.executor == ReadyToPost(0) && |started.actions| == 1
    ensures started.actions[0].action == CreatePaymentLink && !started.actions[0].requiresApproval
    ensures started.amountAtRisk == 100_000 && started.currency == "INR"
  {
    KeepsIdentity(c, [LinkStep(c)]);
    CreatedByStep(c, CreatePaymentLink);
    LinkBranch(c, c.currentRun.value);
    BranchShapes(c, c.currentRun.value, CreatePaymentLink);
    started := Run(c, MERCHANT, [LinkStep(c)]);
  }

  /** The merchant's policy lets either action through, so creating the offered one succeeds. */
  lemma CreatedByStep(c: CaseState, action: ActionType)
    requires Ours(c) && Offers(c, action) && Favourable(action)
    requires action == CreatePaymentLink ==> c.actions == []
    ensures var r := CreateAction(c, MERCHANT, c.currentRun.value, action, NoClient, false, 0);
            && r.Success?
            && Run(c, MERCHANT, [CreateActionStep(c.currentRun.value, action, NoClient, false, 0)]) == r.value
  {
    RunOne(c, MERCHANT, CreateActionStep(c.currentRun.value, action, NoClient, false, 0));
    CreationSucceedsExactly(c, MERCHANT, c.currentRun.value, action, NoClient, false, 0);
  }

  lemma LinkBranch(c: CaseState, run: nat)
    requires Ours(c) && Offers(c, CreatePaymentLink) && c.currentRun == Some(run) && c.actions == []
    requires CreateAction(c, MERCHANT, run, CreatePaymentLink, NoClient, false, 0).Success?
    ensures CreateAction(c, MERCHANT, run, CreatePaymentLink, NoClient, false, 0)
         == Lift(BeginLink(c, run, CreatePaymentLink, 0))
  {
    var row := SelectCandidateRow(c.runs[run]).value;
    CreationDispatches(c, run, CreatePaymentLink);
    LinkNeedsNoApproval(c, row);
    UnattendedDispatch(c, run, row);
  }

  /** On the offer the guards before dispatch all pass. */
  lemma CreationDispatches(c: CaseState, run: nat, action: ActionType)
    requires Ours(c) && Offers(c, action) && c.currentRun == Some(run) && Favourable(action)
    ensures CreateAction(c, MERCHANT, run, action, NoClient, false, 0)
         == Dispatch(c, MERCHANT, run, SelectCandidateRow(c.runs[run]).value, 0)
  {
    assert GoodRun(c.runs[run]);
    assert RowForKey(c.actions, run, action).None?;
  }

  lemma UnattendedDispatch(c: CaseState, run: nat, row: Row)
    requires row.action == CreatePaymentLink && Dispatch(c, MERCHANT, run, row, 0).Success?
    requires !Policy.NeedsApproval(Question(c, row), Policy.FromMerchantRow(MERCHANT))
    ensures Dispatch(c, MERCHANT, run, row, 0) == Lift(BeginLink(c, run, CreatePaymentLink, 0))
  {
  }

  /** Asked again from the stored row, the merchant's policy lets the link run unattended. */
  lemma LinkNeedsNoApproval(c: CaseState, row: Row)
    requires c.amountAtRisk == 100_000 && row.action == CreatePaymentLink && row.confidence == 0.86125
    ensures !Policy.NeedsApproval(Question(c, row), Policy.FromMerchantRow(MERCHANT))
  {
    Analysis.ApprovalGrounds(Question(c, row), MERCHANT);
  }

  lemma BranchShapes(c: CaseState, run: nat, action: ActionType)
    requires c.status == Recommended
    ensures var r := BeginLink(c, run, action, 0);
            r.Success? ==> && r.value.status == Executing && r.value.executor == ReadyToPost(|c.actions|)
                           && r.value.actions == WithRow(c, action, ActionExecuting, run, false).actions
    ensures var r := StageApproval(c, run, action, 0);
            r.Success? ==> && r.value.status == AwaitingApproval
                           && r.value.actions == WithRow(c, action, PendingApproval, run, true).actions
  {
  }

  lemma KeepsIdentity(c: CaseState, steps: seq<CaseStep>)
    ensures var d := Run(c, MERCHANT, steps); d.amountAtRisk == c.amountAtRisk && d.currency == c.currency
  {
    CaseTheorems.RunExtends(c, MERCHANT, steps);
  }
}
