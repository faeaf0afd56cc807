/** A run in which an action that analysis held back for approval is carried out unattended. */
module ApprovalGap {
  import opened Domain
  import opened Cases
  import opened Protocol
  import opened CaseInvariants
  import opened CaseRuns
  import opened Selection
  import opened FavouredRuns
  import opened ServiceRuns

  /**
   * The stored recommendation says that approval is required, and yet creating
   * the action starts the link at once: six decimal places were enough to lift
   * its confidence to the threshold.
   */
  lemma ApprovalCanBeDropped() returns (steps: seq<CaseStep>)
    ensures var c := Reached(FAILED_PAYMENT, MERCHANT, steps);
            && Grounded(steps)
            && c.status == Recommended && c.currentRun == Some(0) && |c.runs| == 1
            && SelectCandidateRow(c.runs[0]).Some?
            && SelectCandidateRow(c.runs[0]).value.action == CreatePaymentLink
            && SelectCandidateRow(c.runs[0]).value.requiresApproval
            && var d := Next(c, MERCHANT, CreateActionStep(0, CreatePaymentLink, NoClient, false, 0));
               && d.status == Executing && d.executor == ReadyToPost(0)
               && |d.actions| == 1 && !d.actions[0].requiresApproval
  {
    var c := NewCase(FAILED_PAYMENT.sourceKey, FAILED_PAYMENT.transactionId, FAILED_PAYMENT.amount,
                     FAILED_PAYMENT.currency);
    NewCaseInv(FAILED_PAYMENT.sourceKey, FAILED_PAYMENT.transactionId, FAILED_PAYMENT.amount, FAILED_PAYMENT.currency,
               MERCHANT);
    steps := AnalysisSteps(ManualAnalysis, CreatePaymentLink);
    AnalysisIsGrounded(ManualAnalysis, CreatePaymentLink);
    AnalysisOffers(c, ManualAnalysis, CreatePaymentLink);
    StartsUnattended(Run(c, MERCHANT, steps));
  }

  lemma StartsUnattended(c: CaseState)
    requires Ours(c) && Offers(c, CreatePaymentLink) && c.actions == [] && c.currentRun == Some(0)
    ensures var d := Next(c, MERCHANT, CreateActionStep(0, CreatePaymentLink, NoClient, false, 0));
            && d.status == Executing && d.executor == ReadyToPost(0)
            && |d.actions| == 1 && !d.actions[0].requiresApproval
  {
    RunOne(c, MERCHANT, LinkStep(c));
    var started := LinkStarts(c);
  }
}
