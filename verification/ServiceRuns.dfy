/** Whole service calls are runs of protocol steps, so everything proved of runs holds after every call. */
module ServiceRuns {
  import opened Domain
  import opened Registry
  import opened Cases
  import opened Protocol
  import opened CaseInvariants
  import opened CaseRuns
  import opened ActionService
  import opened AnalysisWorkflow
  import Analysis
  import Policy
  import Text

  function ProviderSteps(result: ProviderResult, at: int): seq<CaseStep> {
    (if result == ProviderNotConfigured then [] else [PostStep]) + [RecordResultStep(result), FinishSettlementStep(at)]
  }

  function EscalationSteps(at: int): seq<CaseStep> {
    [RecordEscalationStep, FinishSettlementStep(at)]
  }

  lemma {:induction false} RunAppend(c: CaseState, policy: Policy.MerchantPolicyRow, first: seq<CaseStep>,
                                     more: seq<CaseStep>)
    ensures Run(c, policy, first + more) == Run(Run(c, policy, first), policy, more)
  {
    if more == [] {
      assert first + more == first;
    } else {
      var shorter := more[..|more| - 1];
      RunAppend(c, policy, first, shorter);
      assert (first + more)[..|first + more| - 1] == first + shorter;
    }
  }

  lemma RunOne(c: CaseState, policy: Policy.MerchantPolicyRow, step: CaseStep)
    ensures Run(c, policy, [step]) == Next(c, policy, step)
  {
    assert [step][..0] == [];
    assert Run(c, policy, []) == c;
  }

  lemma RunTwo(c: CaseState, policy: Policy.MerchantPolicyRow, a: CaseStep, b: CaseStep)
    ensures Run(c, policy, [a, b]) == Next(Next(c, policy, a), policy, b)
  {
    assert [a, b] == [a] + [b];
    RunAppend(c, policy, [a], [b]);
    RunOne(c, policy, a);
    RunOne(Next(c, policy, a), policy, b);
  }

  lemma RecordingIsRun(c: CaseState, policy: Policy.MerchantPolicyRow, result: ProviderResult, at: int)
    ensures Run(c, policy, [RecordResultStep(result), FinishSettlementStep(at)])
         == FinishSettlement(RecordResult(c, policy, result), at)
  {
    RunTwo(c, policy, RecordResultStep(result), FinishSettlementStep(at));
  }

  lemma EscalatedIsRun(c: CaseState, policy: Policy.MerchantPolicyRow, at: int)
    ensures Run(c, policy, EscalationSteps(at)) == Escalated(c, at)
  {
    RunTwo(c, policy, RecordEscalationStep, FinishSettlementStep(at));
  }

  lemma PostIsStep(c: CaseState, policy: Policy.MerchantPolicyRow)
    ensures Run(c, policy, [PostStep]) == SendPost(c)
  {
    RunOne(c, policy, PostStep);
  }

  lemma InvokedIsRun(c: CaseState, policy: Policy.MerchantPolicyRow, result: ProviderResult, at: int)
    ensures Invoked(c, policy, result, at) == Run(c, policy, ProviderSteps(result, at))
  {
    var recording := [RecordResultStep(result), FinishSettlementStep(at)];
    if result == ProviderNotConfigured {
      assert ProviderSteps(result, at) == recording;
      RecordingIsRun(c, policy, result, at);
    } else {
      RunAppend(c, policy, [PostStep], recording);
      PostIsStep(c, policy);
      RecordingIsRun(SendPost(c), policy, result, at);
    }
  }

  /** Creating an action, provider call included, is a run; so is approving one. */
  lemma CreatedIsRun(c: CaseState, policy: Policy.MerchantPolicyRow, run: nat, action: ActionType, lookup: LinkLookup,
                     result: ProviderResult, at: int) returns (steps: seq<CaseStep>)
    requires Created(c, policy, run, action, lookup, result, at).Success?
    ensures Created(c, policy, run, action, lookup, result, at).value == Run(c, policy, steps)
  {
    var step := CreateActionStep(run, action, lookup, false, at);
    var d := CreateAction(c, policy, run, action, lookup, false, at).value;
    CreateIsStep(c, policy, run, action, lookup, at);
    if c.status == Recommended && d.status == Executing {
      steps := [step] + ProviderSteps(result, at);
      RunAppend(c, policy, [step], ProviderSteps(result, at));
      InvokedIsRun(d, policy, result, at);
    } else {
      steps := [step];
    }
  }

  lemma CreateIsStep(c: CaseState, policy: Policy.MerchantPolicyRow, run: nat, action: ActionType, lookup: LinkLookup,
                     at: int)
    requires CreateAction(c, policy, run, action, lookup, false, at).Success?
    ensures Run(c, policy, [CreateActionStep(run, action, lookup, false, at)])
         == CreateAction(c, policy, run, action, lookup, false, at).value
  {
    RunOne(c, policy, CreateActionStep(run, action, lookup, false, at));
  }

  lemma ApproveIsStep(c: CaseState, policy: Policy.MerchantPolicyRow, index: nat, version: nat, at: int)
    requires Approve(c, index, version, at).Success?
    ensures Run(c, policy, [ApproveStep(index, version, at)]) == Approve(c, index, version, at).value
  {
    RunOne(c, policy, ApproveStep(index, version, at));
  }

  lemma ApprovedIsRun(c: CaseState, policy: Policy.MerchantPolicyRow, index: nat, version: nat,
                      result: ProviderResult, at: int) returns (steps: seq<CaseStep>)
    requires Approved(c, policy, index, version, result, at).Success?
    ensures Approved(c, policy, index, version, result, at).value == Run(c, policy, steps)
  {
    var step := ApproveStep(index, version, at);
    var d := Approve(c, index, version, at).value;
    ApproveIsStep(c, policy, index, version, at);
    if UsesPaymentLink(c.actions[index].action) {
      steps := [step] + ProviderSteps(result, at);
      RunAppend(c, policy, [step], ProviderSteps(result, at));
      InvokedIsRun(d, policy, result, at);
    } else if c.actions[index].action == EscalateToHuman {
      steps := [step] + EscalationSteps(at);
      RunAppend(c, policy, [step], EscalationSteps(at));
      EscalatedIsRun(d, policy, at);
    } else {
      steps := [step];
    }
  }

  function AnalyzedSteps(inputs: Option<Analysis.AnalysisInputs>, at: int): seq<CaseStep> {
    match inputs
    case None => [FailAnalysisStep(at)]
    case Some(i) => [StoreRunStep(i, at), CompleteAnalysisStep(at)]
  }

  /** An analysis carried through is a run too. */
  lemma AnalyzedIsRun(c: CaseState, policy: Policy.MerchantPolicyRow, inputs: Option<Analysis.AnalysisInputs>, at: int)
    ensures Analyzed(c, policy, inputs, at) == Run(c, policy, AnalyzedSteps(inputs, at))
  {
    match inputs
    case None => RunOne(c, policy, FailAnalysisStep(at));
    case Some(i) => RunTwo(c, policy, StoreRunStep(i, at), CompleteAnalysisStep(at));
  }

  /** Hence both calls keep the invariant, whatever the provider answers. */
  lemma CallsKeepInv(c: CaseState, policy: Policy.MerchantPolicyRow, run: nat, action: ActionType, lookup: LinkLookup,
                     index: nat, version: nat, result: ProviderResult, at: int)
    requires Inv(c, policy)
    ensures var r := Created(c, policy, run, action, lookup, result, at); r.Success? ==> Inv(r.value, policy)
    ensures var r := Approved(c, policy, index, version, result, at); r.Success? ==> Inv(r.value, policy)
  {
    if Created(c, policy, run, action, lookup, result, at).Success? {
      var steps := CreatedIsRun(c, policy, run, action, lookup, result, at);
      RunKeepsInv(c, policy, steps);
    }
    if Approved(c, policy, index, version, result, at).Success? {
      var steps := ApprovedIsRun(c, policy, index, version, result, at);
      RunKeepsInv(c, policy, steps);
    }
  }

  // ------------------------------------------------------------ an uninterrupted call settles its row

  function SettledCase(result: ProviderResult, attempts: nat, maxAttempts: nat): CaseStatus {
    match result
    case AuthenticationRejected => Analyzing
    case ValidationRejected => if attempts < maxAttempts then Analyzing else Failed
    case _ => WaitingForOutcome
  }

  /** Whatever the provider answers, the call leaves no row executing and the case where the answer sends it. */
  lemma InvokedSettles(c: CaseState, policy: Policy.MerchantPolicyRow, result: ProviderResult, at: int)
    requires Inv(c, policy) && c.executor.ReadyToPost? && c.status == Executing
    ensures var d := Invoked(c, policy, result, at);
            && d.executor == NoExecutor
            && d.status == SettledCase(result, |c.actions|, policy.maxRecoveryAttempts)
            && |d.actions| == |c.actions| && d.actions[|c.actions| - 1].status == ResultStatus(result)
            && d.posts == (if result == ProviderNotConfigured then c.posts else c.posts + [|c.actions| - 1])
            && forall i :: 0 <= i < |d.actions| ==> d.actions[i].status != ActionExecuting
  {
    var recorded := RecordResult(if result == ProviderNotConfigured then c else SendPost(c), policy, result);
    ResultIsRecorded(c, policy, result);
    RecordedSettles(c, policy, result, recorded, at);
  }

  lemma RecordedSettles(c: CaseState, policy: Policy.MerchantPolicyRow, result: ProviderResult,
                        recorded: CaseState, at: int)
    requires OpenRowsOk(c) && |c.actions| > 0 && |recorded.actions| == |c.actions| && recorded.status == Executing
    requires recorded.executor
          == ResultRecorded(|c.actions| - 1, ResultEvent(result, |c.actions|, policy.maxRecoveryAttempts))
    requires recorded.actions[|c.actions| - 1].status == ResultStatus(result)
    requires forall i :: 0 <= i < |c.actions| - 1 ==> recorded.actions[i] == c.actions[i]
    ensures var d := FinishSettlement(recorded, at);
            && d.executor == NoExecutor
            && d.status == SettledCase(result, |c.actions|, policy.maxRecoveryAttempts)
            && d.actions == recorded.actions && d.posts == recorded.posts
            && forall i :: 0 <= i < |d.actions| ==> d.actions[i].status != ActionExecuting
  {
    SettlementMoves(recorded, at);
    NoneLeftExecuting(c, recorded.actions);
  }

  lemma NoneLeftExecuting(c: CaseState, actions: seq<ActionRow>)
    requires OpenRowsOk(c) && |actions| == |c.actions| > 0
    requires actions[|actions| - 1].status != ActionExecuting
    requires forall i :: 0 <= i < |actions| - 1 ==> actions[i] == c.actions[i]
    ensures forall i :: 0 <= i < |actions| ==> actions[i].status != ActionExecuting
  {
  }

  lemma ResultIsRecorded(c: CaseState, policy: Policy.MerchantPolicyRow, result: ProviderResult)
    requires c.executor.ReadyToPost? && c.executor.index < |c.actions|
    ensures var index := c.executor.index;
            var d := RecordResult(if result == ProviderNotConfigured then c else SendPost(c), policy, result);
            && d.executor == ResultRecorded(index, ResultEvent(result, |c.actions|, policy.maxRecoveryAttempts))
            && d.status == c.status
            && |d.actions| == |c.actions| && d.actions[index].status == ResultStatus(result)
            && (forall i :: 0 <= i < |c.actions| && i != index ==> d.actions[i] == c.actions[i])
            && d.posts == (if result == ProviderNotConfigured then c.posts else c.posts + [index])
  {
  }

  lemma SettlementMoves(c: CaseState, at: int)
    requires c.executor.ResultRecorded? && c.status == Executing
    requires c.executor.next == ActionAcceptedOrUnknown || c.executor.next == ActionFailedReanalyze
             || c.executor.next == TerminalActionFailure
    ensures var d := FinishSettlement(c, at);
            && d.executor == NoExecutor && d.actions == c.actions && d.posts == c.posts
            && Some(d.status) == Target(Executing, c.executor.next)
  {
    assert Text.Strip("Payment link creation settled.") != "";
  }
}
