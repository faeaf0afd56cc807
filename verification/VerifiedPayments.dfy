/** What a verified payment does, told by amounts and currencies alone, and where every outcome comes from. */
module VerifiedPayments {
  import opened Domain
  import opened Registry
  import opened Selection
  import opened Cases
  import opened Protocol
  import opened CaseInvariants
  import opened CaseRuns
  import opened EventOrdering
  import opened Store
  import opened StoreTheorems
  import opened Deliveries
  import opened Redeliveries
  import Analysis
  import Policy
  import Text

  // ------------------------------------------------------------ one payment and one case

  /** The full amount in the case's currency, once the payment's is stripped and upper-cased. */
  predicate PaysInFull(c: CaseState, amount: int, currency: string) {
    amount == c.amountAtRisk && Text.Upper(Text.Strip(currency)) == c.currency
  }

  /** RECOVERED by this payment: every open row is cancelled, and nothing else changes. */
  ghost predicate PaidOff(c: CaseState, d: CaseState, amount: int, paymentId: string, at: int) {
    && d == c.(status := Recovered, version := c.version + 1, resolvedAt := Some(at), actions := d.actions,
               outcome := Some(Outcome(amount, paymentId, at)),
               audits := c.audits + [Transitioned(PaymentVerified, c.status, Recovered, c.version, c.version + 1)])
    && |d.actions| == |c.actions|
    && forall i :: 0 <= i < |c.actions| ==>
         d.actions[i] == if c.actions[i].status == PendingApproval || c.actions[i].status == ActionScheduled
                         then c.actions[i].(status := Cancelled) else c.actions[i]
  }

  /**
   * A verified payment recovers a case exactly when the case is open and the
   * payment is in full. A payment that is not changes nothing on any case that
   * is not RECOVERED; one that is leaves a note on a case closed otherwise.
   */
  lemma MoneyDecides(c: CaseState, policy: Policy.MerchantPolicyRow, amount: int, currency: string, paymentId: string,
                     at: int)
    requires Inv(c, policy)
    ensures var v := ResolveSuccess(c, amount, currency, paymentId, at);
            && v.Verified?
            && (v.committed <==> !IsTerminal(c.status) && PaysInFull(c, amount, currency))
            && (v.committed ==> v.disposition == Processed && PaidOff(c, v.case_, amount, paymentId, at))
            && (c.status == Recovered ==> v.case_ == c && v.disposition == Processed)
            && (c.status != Recovered && !PaysInFull(c, amount, currency) ==>
                  v.case_ == c && v.disposition == Ignored(MoneyMismatch))
            && (c.status != Recovered && IsTerminal(c.status) && PaysInFull(c, amount, currency) ==>
                  && v.disposition == Ignored(TerminalReconciliation)
                  && v.case_ == c.(audits := c.audits + [ReconciliationRequired(c.status)]))
  {
    if !IsTerminal(c.status) && PaysInFull(c, amount, currency) {
      OpenCaseIsPaidOff(c, currency, paymentId, at);
    }
  }

  lemma OpenCaseIsPaidOff(c: CaseState, currency: string, paymentId: string, at: int)
    requires !IsTerminal(c.status) && c.outcome.None? && c.amountAtRisk > 0
    requires c.currency == Text.Upper(Text.Strip(currency))
    ensures var v := ResolveSuccess(c, c.amountAtRisk, currency, paymentId, at);
            v.Verified? && v.committed && v.disposition == Processed
            && PaidOff(c, v.case_, c.amountAtRisk, paymentId, at)
  {
    assert Text.Strip("PAYMENT_VERIFIED") != "";
  }

  /** The right amount in dollars leaves a case in rupees as it is. */
  lemma DollarsForRupees(c: CaseState, policy: Policy.MerchantPolicyRow, paymentId: string, at: int)
    requires Inv(c, policy) && c.currency == "INR" && c.status != Recovered
    ensures ResolveSuccess(c, c.amountAtRisk, "USD", paymentId, at) == Verified(c, Ignored(MoneyMismatch), false)
  {
    assert Text.Strip("USD") == "USD";
    assert Text.Upper("USD")[0] == 'U';
    MoneyDecides(c, policy, c.amountAtRisk, "USD", paymentId, at);
  }

  // ------------------------------------------------------------ where outcomes come from

  /** The envelope reports a captured payment that pays this case, correlated as its kind demands. */
  ghost predicate Pays(e: Envelope, id: nat, c: CaseState) {
    && e.payment.Some? && e.createdAt.Some?
    && PaysInFull(c, e.payment.value.amount, e.payment.value.currency)
    && match e.kind
       case PaymentCapturedEvent => c.transactionId == Some(e.payment.value.id)
       case SubscriptionChargedEvent =>
         && e.payment.value.status == "captured" && e.subscription.Some?
         && c.sourceKey
            == "razorpay:subscription_pending:" + e.subscription.value.id + ":" + e.subscription.value.cycleKey
       case PaymentLinkPaidEvent =>
         && e.link.Some? && e.link.value.ReferenceTo? && e.link.value.caseId == id
         && e.link.value.index < |c.actions|
         && (c.actions[e.link.value.index].action == CreatePaymentLink
             || c.actions[e.link.value.index].action == RequestAlternatePaymentMethod)
       case _ => false
  }

  ghost predicate Explains(op: Op, id: nat, c: CaseState) {
    && op.Delivered? && Pays(op.delivery.envelope, id, c)
    && c.outcome == OutcomeOf(op.delivery.envelope)
  }

  lemma ExplainedForGood(op: Op, id: nat, c: CaseState, d: CaseState)
    requires Explains(op, id, c) && Kept(c, d)
    ensures Explains(op, id, d)
  {
  }

  /** Only a verified payment writes an outcome. */
  lemma OutcomeUntouched(c: CaseState, policy: Policy.MerchantPolicyRow, step: CaseStep)
    requires !step.VerifiedPaymentStep?
    ensures Next(c, policy, step).outcome == c.outcome
  {
    match step
    case CreateActionStep(run, action, lookup, crash, at) =>
      CreationKeepsOutcome(c, policy, run, action, lookup, crash, at);
    case ApproveStep(_, _, _) => DecisionKeepsOutcome(c, policy, step);
    case RejectStep(_, _, _, _) => DecisionKeepsOutcome(c, policy, step);
    case BeginAnalysisStep(_, _) => AnalysisKeepsOutcome(c, policy, step);
    case StoreRunStep(inputs, at) => StoringKeepsOutcome(c, policy, inputs, at);
    case CompleteAnalysisStep(_) => AnalysisKeepsOutcome(c, policy, step);
    case FailAnalysisStep(_) => AnalysisKeepsOutcome(c, policy, step);
    case FinishSettlementStep(_) => RecordingKeepsOutcome(c, policy, step);
    case RecordResultStep(_) => RecordingKeepsOutcome(c, policy, step);
    case RecordEscalationStep => RecordingKeepsOutcome(c, policy, step);
    case _ =>
  }

  lemma DecisionKeepsOutcome(c: CaseState, policy: Policy.MerchantPolicyRow, step: CaseStep)
    requires step.ApproveStep? || step.RejectStep?
    ensures Next(c, policy, step).outcome == c.outcome
  {
  }

  lemma AnalysisKeepsOutcome(c: CaseState, policy: Policy.MerchantPolicyRow, step: CaseStep)
    requires step.BeginAnalysisStep? || step.CompleteAnalysisStep? || step.FailAnalysisStep?
    ensures Next(c, policy, step).outcome == c.outcome
  {
  }

  lemma StoringKeepsOutcome(c: CaseState, policy: Policy.MerchantPolicyRow, inputs: Analysis.AnalysisInputs, at: int)
    ensures StoreRun(c, policy, inputs, at).outcome == c.outcome
  {
    AnalysisKeepsOutcome(c, policy, FailAnalysisStep(at));
  }

  lemma RecordingKeepsOutcome(c: CaseState, policy: Policy.MerchantPolicyRow, step: CaseStep)
    requires step.FinishSettlementStep? || step.RecordResultStep? || step.RecordEscalationStep?
    ensures Next(c, policy, step).outcome == c.outcome
  {
  }

  lemma CreationKeepsOutcome(c: CaseState, policy: Policy.MerchantPolicyRow, run: nat, action: ActionType,
                             lookup: LinkLookup, crash: bool, at: int)
    ensures Keep(c, CreateAction(c, policy, run, action, lookup, crash, at)).outcome == c.outcome
  {
    var existing := RowForKey(c.actions, run, action);
    var selected := SelectCandidateRow(RunRows(c, run));
    if existing.Some? {
      ReadKeepsOutcome(c, existing.value, lookup, crash, at);
    } else if selected.Some? {
      DispatchKeepsOutcome(c, policy, run, selected.value, at);
    }
  }

  lemma ReadKeepsOutcome(c: CaseState, index: nat, lookup: LinkLookup, crash: bool, at: int)
    requires index < |c.actions|
    ensures Reconcile(c, index, lookup, crash, at).outcome == c.outcome
  {
  }

  lemma DispatchKeepsOutcome(c: CaseState, policy: Policy.MerchantPolicyRow, run: nat, row: Row, at: int)
    ensures Keep(c, Dispatch(c, policy, run, row, at)).outcome == c.outcome
  {
  }

  lemma ResolvedExplains(s: Store, policy: Policy.MerchantPolicyRow, id: nat, payment: PaymentEntity, at: int)
    requires id < |s.cases| && Inv(s.cases[id], policy) && s.cases[id].outcome.None?
    requires ResolveAt(s, id, payment, at).Done? && ResolveAt(s, id, payment, at).store.cases[id].outcome.Some?
    ensures var d := ResolveAt(s, id, payment, at).store.cases[id];
            && PaysInFull(d, payment.amount, payment.currency)
            && d.outcome == Some(Outcome(payment.amount, payment.id, at)) && Kept(s.cases[id], d)
  {
    MoneyDecides(s.cases[id], policy, payment.amount, payment.currency, payment.id, at);
  }

  lemma CaptureExplains(s: Store, policy: Policy.MerchantPolicyRow, e: Envelope, known: bool, id: nat)
    requires CasesInv(s, policy) && e.kind == PaymentCapturedEvent && HandlePaymentCaptured(s, e, known).Done?
    requires id < |s.cases| && s.cases[id].outcome.None?
    requires HandlePaymentCaptured(s, e, known).store.cases[id].outcome.Some?
    ensures var d := HandlePaymentCaptured(s, e, known).store.cases[id]; Pays(e, id, d) && d.outcome == OutcomeOf(e)
  {
    var up := UpsertTransaction(s, e.payment.value, CAPTURED, e.createdAt.value, known);
    ResolvedExplains(up.store, policy, id, e.payment.value, e.createdAt.value);
  }

  lemma ChargeExplains(s: Store, policy: Policy.MerchantPolicyRow, e: Envelope, id: nat)
    requires CasesInv(s, policy) && e.kind == SubscriptionChargedEvent && HandleSubscriptionCharged(s, e).Done?
    requires id < |s.cases| && s.cases[id].outcome.None?
    requires HandleSubscriptionCharged(s, e).store.cases[id].outcome.Some?
    ensures var d := HandleSubscriptionCharged(s, e).store.cases[id]; Pays(e, id, d) && d.outcome == OutcomeOf(e)
  {
    var subscription := e.subscription.value;
    var up := UpsertSubscription(s, subscription.id, ChargedKind, e.createdAt.value);
    ResolvedExplains(up.store, policy, id, e.payment.value, e.createdAt.value);
  }

  lemma PaidLinkExplains(s: Store, policy: Policy.MerchantPolicyRow, e: Envelope, id: nat)
    requires CasesInv(s, policy) && e.kind == PaymentLinkPaidEvent && HandleLinkPaid(s, e).Done?
    requires id < |s.cases| && s.cases[id].outcome.None? && HandleLinkPaid(s, e).store.cases[id].outcome.Some?
    ensures var d := HandleLinkPaid(s, e).store.cases[id]; Pays(e, id, d) && d.outcome == OutcomeOf(e)
  {
    ResolvedExplains(s, policy, id, e.payment.value, e.createdAt.value);
  }

  lemma HandledExplains(s: Store, policy: Policy.MerchantPolicyRow, e: Envelope, known: bool, id: nat)
    requires CasesInv(s, policy) && Handle(s, e, known).Done? && id < |s.cases| && s.cases[id].outcome.None?
    requires id < |Handle(s, e, known).store.cases| && Handle(s, e, known).store.cases[id].outcome.Some?
    ensures var d := Handle(s, e, known).store.cases[id]; Pays(e, id, d) && d.outcome == OutcomeOf(e)
  {
    match e.kind
    case PaymentCapturedEvent => CaptureExplains(s, policy, e, known, id);
    case SubscriptionChargedEvent => ChargeExplains(s, policy, e, id);
    case PaymentLinkPaidEvent => PaidLinkExplains(s, policy, e, id);
    case _ =>
  }

  /** The operation that gives a case its outcome is the delivery of a payment in full. */
  lemma StepExplains(s: Store, policy: Policy.MerchantPolicyRow, op: Op, id: nat)
    requires StoreInv(s, policy) && id < |s.cases| && s.cases[id].outcome.None?
    requires id < |Step(s, policy, op).cases| && Step(s, policy, op).cases[id].outcome.Some?
    ensures Explains(op, id, Step(s, policy, op).cases[id])
  {
    StoreCasesInv(s, policy);
    match op
    case OnCase(other, step) =>
      if other == id && !step.VerifiedPaymentStep? {
        OutcomeUntouched(s.cases[id], policy, step);
      }
    case Delivered(d) => HandledExplains(Claimed(s, d.eventId), policy, d.envelope, d.customerKnown, id);
  }

  lemma StoreCasesInv(s: Store, policy: Policy.MerchantPolicyRow)
    requires StoreInv(s, policy)
    ensures CasesInv(s, policy)
  {
    forall i | 0 <= i < |s.cases|
      ensures Inv(s.cases[i], policy)
    {
      LivingInv(s.cases[i], policy);
    }
  }

  lemma OpenedWithoutOutcome(s: Store, policy: Policy.MerchantPolicyRow, op: Op, id: nat)
    requires StoreInv(s, policy) && |s.cases| <= id < |Step(s, policy, op).cases|
    ensures Step(s, policy, op).cases[id].outcome.None?
  {
    var change := StepChanges(s, policy, op);
  }

  /**
   * In every run, with duplicates, crashes and any service calls, an outcome
   * that a case did not have at the start was brought by a delivery of the run
   * that reports a payment of exactly its amount in its currency, correlated by
   * transaction, subscription cycle or link.
   */
  lemma {:induction false} OutcomesAreExplained(s: Store, policy: Policy.MerchantPolicyRow, ops: seq<Op>, id: nat)
    returns (k: nat)
    requires StoreInv(s, policy) && id < |RunStore(s, policy, ops).cases|
    requires RunStore(s, policy, ops).cases[id].outcome.Some?
    requires id < |s.cases| ==> s.cases[id].outcome.None?
    ensures k < |ops| && Explains(ops[k], id, RunStore(s, policy, ops).cases[id])
  {
    var front, last := ops[..|ops| - 1], ops[|ops| - 1];
    var before := RunStore(s, policy, front);
    RunKeepsStore(s, policy, front);
    if id < |before.cases| {
      if before.cases[id].outcome.Some? {
        k := OutcomesAreExplained(s, policy, front, id);
        StepGrows(before, policy, last);
        ExplainedForGood(ops[k], id, before.cases[id], RunStore(s, policy, ops).cases[id]);
      } else {
        k := |ops| - 1;
        StepExplains(before, policy, last, id);
      }
    } else {
      k := 0;
      OpenedWithoutOutcome(before, policy, last, id);
    }
  }
}
