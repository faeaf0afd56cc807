/** Where whole create and approve calls leave a case, from the case's fields and the provider's answer alone. */
module Calls {
  import opened Domain
  import opened Registry
  import opened Selection
  import opened Cases
  import opened Protocol
  import opened CaseInvariants
  import opened CaseRuns
  import opened CaseProgress
  import opened ActionService
  import opened ServiceRuns
  import opened Dispatching
  import opened Decisions
  import Policy

  /** What the row becomes: sent for certain, refused for certain, or nobody knows. */
  function AnswerStatus(result: ProviderResult): ActionStatus {
    match result
    case LinkCreated => Succeeded
    case AuthenticationRejected => ActionFailed
    case ValidationRejected => ActionFailed
    case ProviderNotConfigured => Unknown
    case AmbiguousResponse => Unknown
    case TimedOut => Unknown
    case TransientError => Unknown
    case RateLimited => Unknown
    case DuplicateReference => Unknown
    case OtherApiError => Unknown
  }

  /** Where the case goes: a refusal leads back to analysis while attempts are left or the credentials are to blame. */
  function AnswerCase(result: ProviderResult, attempts: nat, maxAttempts: nat): CaseStatus {
    if AnswerStatus(result) != ActionFailed then WaitingForOutcome
    else if result == AuthenticationRejected || attempts < maxAttempts then Analyzing
    else Failed
  }

  lemma AnswersAgree(result: ProviderResult, attempts: nat, maxAttempts: nat)
    ensures ResultStatus(result) == AnswerStatus(result)
    ensures SettledCase(result, attempts, maxAttempts) == AnswerCase(result, attempts, maxAttempts)
  {
  }

  /** The row was sent, unless no client is configured, and the answer settled row and case. */
  ghost predicate SentAndSettled(c: CaseState, d: CaseState, policy: Policy.MerchantPolicyRow, result: ProviderResult)
  {
    && d.executor == NoExecutor && |d.actions| > 0
    && d.status == AnswerCase(result, |d.actions|, policy.maxRecoveryAttempts)
    && d.actions[|d.actions| - 1].status == AnswerStatus(result)
    && d.posts == c.posts + (if result == ProviderNotConfigured then [] else [|d.actions| - 1])
    && forall i :: 0 <= i < |d.actions| ==> d.actions[i].status != ActionExecuting
  }

  lemma InvocationSettles(c: CaseState, policy: Policy.MerchantPolicyRow, result: ProviderResult, at: int)
    requires Inv(c, policy) && c.executor.ReadyToPost? && c.status == Executing
    ensures SentAndSettled(c, Invoked(c, policy, result, at), policy, result)
    ensures |Invoked(c, policy, result, at).actions| == |c.actions|
  {
    InvokedSettles(c, policy, result, at);
    AnswersAgree(result, |c.actions|, policy.maxRecoveryAttempts);
    assert |c.actions| > 0;
  }

  /**
   * An uninterrupted create call on a RECOMMENDED case stops it, schedules it,
   * stages the action for approval, or sends the link and settles it by the
   * provider's answer; no process is left at work.
   */
  lemma CreateCallEnds(c: CaseState, policy: Policy.MerchantPolicyRow, run: nat, action: ActionType, lookup: LinkLookup,
                       result: ProviderResult, at: int)
    requires Inv(c, policy) && c.status == Recommended
    requires Created(c, policy, run, action, lookup, result, at).Success?
    ensures run < |c.runs| && SelectCandidateRow(c.runs[run]).Some?
    ensures var d := Created(c, policy, run, action, lookup, result, at).value;
            var confidence := SelectCandidateRow(c.runs[run]).value.confidence;
            && d.executor == NoExecutor
            && match action
               case Stop => d.status == Stopped && d.actions == c.actions && d.posts == c.posts
               case Wait =>
                 && d.status == Scheduled && d.posts == c.posts
                 && d.actions == c.actions + [NewRow(c, Wait, ActionScheduled, run, false)]
               case _ =>
                 if HeldForApproval(c.amountAtRisk, confidence, action, policy)
                 then && d.status == AwaitingApproval && d.posts == c.posts
                      && d.actions == c.actions + [NewRow(c, action, PendingApproval, run, true)]
                 else |d.actions| == |c.actions| + 1 && SentAndSettled(c, d, policy, result)
  {
    CreationBranches(c, policy, run, action, lookup, false, at);
    var d := CreateAction(c, policy, run, action, lookup, false, at).value;
    if d.status == Executing {
      CreatedKeepsInv(c, policy, run, action, lookup, at);
      InvocationSettles(d, policy, result, at);
    }
  }

  lemma CreatedKeepsInv(c: CaseState, policy: Policy.MerchantPolicyRow, run: nat, action: ActionType,
                        lookup: LinkLookup, at: int)
    requires Inv(c, policy) && CreateAction(c, policy, run, action, lookup, false, at).Success?
    ensures Inv(CreateAction(c, policy, run, action, lookup, false, at).value, policy)
  {
    CreateIsStep(c, policy, run, action, lookup, at);
    RunKeepsInv(c, policy, [CreateActionStep(run, action, lookup, false, at)]);
  }

  /** An uninterrupted approve call sends the staged link and settles it, or records the escalation as done. */
  lemma ApproveCallEnds(c: CaseState, policy: Policy.MerchantPolicyRow, index: nat, version: nat,
                        result: ProviderResult, at: int)
    requires Inv(c, policy) && Approved(c, policy, index, version, result, at).Success?
    ensures index + 1 == |c.actions|
    ensures var d := Approved(c, policy, index, version, result, at).value;
            && |d.actions| == |c.actions|
            && if c.actions[index].action == EscalateToHuman
               then && d.executor == NoExecutor && d.status == WaitingForOutcome && d.posts == c.posts
                    && d.actions == c.actions[index := c.actions[index].(status := Succeeded)]
               else SentAndSettled(c, d, policy, result)
  {
    ApprovalStarts(c, policy, index, version, at);
    ApprovedKeepsInv(c, policy, index, version, at);
    StartedEnds(c, policy, index, result, at);
  }

  lemma StartedEnds(c: CaseState, policy: Policy.MerchantPolicyRow, index: nat, result: ProviderResult, at: int)
    requires index + 1 == |c.actions| && Inv(Started(c, index), policy)
    requires UsesPaymentLink(c.actions[index].action) || c.actions[index].action == EscalateToHuman
    ensures var d := CarriedOut(Started(c, index), policy, c.actions[index].action, result, at);
            && |d.actions| == |c.actions|
            && if c.actions[index].action == EscalateToHuman
               then && d.executor == NoExecutor && d.status == WaitingForOutcome && d.posts == c.posts
                    && d.actions == c.actions[index := c.actions[index].(status := Succeeded)]
               else SentAndSettled(c, d, policy, result)
  {
    if c.actions[index].action == EscalateToHuman {
      StartedEscalationEnds(c, index, at);
    } else {
      StartedLinkEnds(c, policy, index, result, at);
    }
  }

  lemma StartedLinkEnds(c: CaseState, policy: Policy.MerchantPolicyRow, index: nat, result: ProviderResult, at: int)
    requires index + 1 == |c.actions| && c.actions[index].action != EscalateToHuman
    requires Inv(Started(c, index), policy)
    ensures var d := Invoked(Started(c, index), policy, result, at);
            |d.actions| == |c.actions| && SentAndSettled(c, d, policy, result)
  {
    InvocationSettles(Started(c, index), policy, result, at);
  }

  lemma StartedEscalationEnds(c: CaseState, index: nat, at: int)
    requires index < |c.actions| && c.actions[index].action == EscalateToHuman
    ensures var d := Escalated(Started(c, index), at);
            && d.executor == NoExecutor && d.status == WaitingForOutcome && d.posts == c.posts
            && d.actions == c.actions[index := c.actions[index].(status := Succeeded)]
  {
    var d := Started(c, index);
    EscalationSettles(d, index, at);
    assert d.actions[index := d.actions[index].(status := Succeeded)]
        == c.actions[index := c.actions[index].(status := Succeeded)];
  }

  lemma ApprovedKeepsInv(c: CaseState, policy: Policy.MerchantPolicyRow, index: nat, version: nat, at: int)
    requires Inv(c, policy) && Approve(c, index, version, at).Success?
    ensures Inv(Approve(c, index, version, at).value, policy)
  {
    ApproveIsStep(c, policy, index, version, at);
    RunKeepsInv(c, policy, [ApproveStep(index, version, at)]);
  }

  lemma EscalationSettles(d: CaseState, index: nat, at: int)
    requires d.status == Executing && d.executor == Escalating(index) && index < |d.actions|
    ensures var e := Escalated(d, at);
            && e.executor == NoExecutor && e.status == WaitingForOutcome && e.posts == d.posts
            && e.actions == d.actions[index := d.actions[index].(status := Succeeded)]
  {
    var recorded := RecordEscalation(d);
    SettlesExactly(recorded, at);
  }
}
