/** A run that ends with an escalation nobody can approve: the link before it stayed UNKNOWN. */
module StrandedLink {
  import opened Domain
  import opened Cases
  import opened Protocol
  import opened CaseInvariants
  import opened CaseRuns
  import opened CaseProgress
  import opened ServiceRuns
  import opened FavouredRuns
  import opened Selection
  import Policy

  /** Creating the offered link starts it at once; the provider times out and the row becomes UNKNOWN. */
  lemma LinkTimesOut(c: CaseState)
    requires Ours(c) && Offers(c, CreatePaymentLink) && c.actions == []
    ensures var d := Run(c, MERCHANT, [LinkStep(c)] + ProviderSteps(TimedOut, 0));
            && Inv(d, MERCHANT) && d.amountAtRisk == 100_000 && d.currency == "INR"
            && d.status == WaitingForOutcome && |d.actions| == 1 && UnknownLink(d, 0)
  {
    var started := LinkStarts(c);
    RunKeepsInv(c, MERCHANT, [LinkStep(c)]);
    RunAppend(c, MERCHANT, [LinkStep(c)], ProviderSteps(TimedOut, 0));
    StartedTimesOut(started);
  }

  lemma StartedTimesOut(started: CaseState)
    requires Inv(started, MERCHANT) && started.status == Executing && started.executor == ReadyToPost(0)
    requires |started.actions| == 1
    ensures var d := Run(started, MERCHANT, ProviderSteps(TimedOut, 0));
            && Inv(d, MERCHANT) && d.amountAtRisk == started.amountAtRisk && d.currency == started.currency
            && d.status == WaitingForOutcome && |d.actions| == 1 && UnknownLink(d, 0)
  {
    RunKeepsInv(started, MERCHANT, ProviderSteps(TimedOut, 0));
    KeepsIdentity(started, ProviderSteps(TimedOut, 0));
    InvokedIsRun(started, MERCHANT, TimedOut, 0);
    InvokedSettles(started, MERCHANT, TimedOut, 0);
    var d := Run(started, MERCHANT, ProviderSteps(TimedOut, 0));
    assert RowShape(d.actions[0]);
  }

  function EscalationStep(c: CaseState): CaseStep
    requires c.currentRun.Some?
  {
    CreateActionStep(c.currentRun.value, EscalateToHuman, NoClient, false, 0)
  }

  /** Creating the offered escalation stages it for approval, next to the UNKNOWN link. */
  lemma EscalationIsStaged(c: CaseState)
    requires Ours(c) && Offers(c, EscalateToHuman) && |c.actions| == 1 && UnknownLink(c, 0)
    ensures var d := Run(c, MERCHANT, [EscalationStep(c)]);
            && Inv(d, MERCHANT) && d.status == AwaitingApproval && |d.actions| == 2 && Stranded(d, 0)
            && d.actions[1].action == EscalateToHuman && d.actions[1].status == PendingApproval
  {
    RunKeepsInv(c, MERCHANT, [EscalationStep(c)]);
    var d := EscalationStages(c);
    LinkIsOlder(c, d);
  }

  lemma EscalationStages(c: CaseState) returns (d: CaseState)
    requires Ours(c) && Offers(c, EscalateToHuman)
    ensures d == Run(c, MERCHANT, [EscalationStep(c)]) && d.status == AwaitingApproval
    ensures d.actions == WithRow(c, EscalateToHuman, PendingApproval, c.currentRun.value, true).actions
  {
    CreatedByStep(c, EscalateToHuman);
    EscalationBranch(c, c.currentRun.value);
    BranchShapes(c, c.currentRun.value, EscalateToHuman);
    d := Run(c, MERCHANT, [EscalationStep(c)]);
  }

  lemma LinkIsOlder(c: CaseState, d: CaseState)
    requires Inv(d, MERCHANT) && d.status == AwaitingApproval && |d.actions| == 2
    ensures d.currentRun.Some? && d.actions[0].run < d.currentRun.value
  {
  }

  lemma EscalationBranch(c: CaseState, run: nat)
    requires Ours(c) && Offers(c, EscalateToHuman) && c.currentRun == Some(run)
    requires CreateAction(c, MERCHANT, run, EscalateToHuman, NoClient, false, 0).Success?
    ensures CreateAction(c, MERCHANT, run, EscalateToHuman, NoClient, false, 0)
         == Lift(StageApproval(c, run, EscalateToHuman, 0))
  {
    Policy.EscalationNeedsApproval(Question(c, SelectCandidateRow(c.runs[run]).value), MERCHANT);
    assert RowForKey(c.actions, run, EscalateToHuman).None?;
  }

  lemma StepsAreGrounded(c1: CaseState, c3: CaseState)
    requires c1.currentRun.Some? && c3.currentRun.Some?
    ensures Grounded(AnalysisSteps(ManualAnalysis, CreatePaymentLink) + ([LinkStep(c1)] + ProviderSteps(TimedOut, 0))
                     + AnalysisSteps(NewProviderEvidence, EscalateToHuman) + [EscalationStep(c3)])
  {
    var s1 := AnalysisSteps(ManualAnalysis, CreatePaymentLink);
    var s2 := [LinkStep(c1)] + ProviderSteps(TimedOut, 0);
    var s3 := AnalysisSteps(NewProviderEvidence, EscalateToHuman);
    AnalysisIsGrounded(ManualAnalysis, CreatePaymentLink);
    AnalysisIsGrounded(NewProviderEvidence, EscalateToHuman);
    GroundedConcat(s1, s2);
    GroundedConcat(s1 + s2, s3);
    GroundedConcat(s1 + s2 + s3, [EscalationStep(c3)]);
  }

  /**
   * A merchant can end up with an escalation that waits for approval and that
   * no approval call, now or after any further steps, will ever start.
   */
  lemma EscalationCanBeUnapprovable() returns (steps: seq<CaseStep>)
    ensures var c := Reached(FAILED_PAYMENT, MERCHANT, steps);
            && Grounded(steps)
            && c.status == AwaitingApproval && |c.actions| == 2 && c.actions[1].action == EscalateToHuman
            && c.actions[1].status == PendingApproval
            && forall more: seq<CaseStep>, index: nat, version: nat, at: int ::
                 !Approve(Run(c, MERCHANT, more), index, version, at).Success?
  {
    var c0 := NewCase(FAILED_PAYMENT.sourceKey, FAILED_PAYMENT.transactionId, FAILED_PAYMENT.amount,
                      FAILED_PAYMENT.currency);
    NewCaseInv(FAILED_PAYMENT.sourceKey, FAILED_PAYMENT.transactionId, FAILED_PAYMENT.amount, FAILED_PAYMENT.currency,
               MERCHANT);
    var s1 := AnalysisSteps(ManualAnalysis, CreatePaymentLink);
    AnalysisOffers(c0, ManualAnalysis, CreatePaymentLink);
    var c1 := Run(c0, MERCHANT, s1);
    var s2 := [LinkStep(c1)] + ProviderSteps(TimedOut, 0);
    LinkTimesOut(c1);
    var c2 := Run(c1, MERCHANT, s2);
    var s3 := AnalysisSteps(NewProviderEvidence, EscalateToHuman);
    AnalysisOffers(c2, NewProviderEvidence, EscalateToHuman);
    var c3 := Run(c2, MERCHANT, s3);
    assert UnknownLink(c3, 0);
    EscalationIsStaged(c3);
    var s4 := [EscalationStep(c3)];
    steps := s1 + s2 + s3 + s4;
    StepsAreGrounded(c1, c3);
    RunAppend(c0, MERCHANT, s1, s2);
    RunAppend(c0, MERCHANT, s1 + s2, s3);
    RunAppend(c0, MERCHANT, s1 + s2 + s3, s4);
    var c := Run(c3, MERCHANT, s4);
    forall more: seq<CaseStep>, index: nat, version: nat, at: int
      ensures !Approve(Run(c, MERCHANT, more), index, version, at).Success?
    {
      StrandedForever(c, MERCHANT, 0, more);
    }
  }
}
