/** Which deliveries open a case, under which key and for how much, and that nothing else does. */
module CaseOpenings {
  import opened Domain
  import opened Cases
  import opened Protocol
  import opened CaseRuns
  import opened EventOrdering
  import opened Store
  import opened StoreTheorems
  import opened PaymentRows
  import opened Redeliveries
  import Policy

  /** The subscription row still takes the pending event: it is not active and nothing later was stored. */
  predicate TakesPending(record: Record, at: int) {
    record.status != "active" && (record.at.None? || record.at.value <= at)
  }

  /** A pending event of a known subscription, told by its fields, that its row takes. */
  predicate PendingFor(s: Store, e: Envelope, subscriptionId: string, cycleKey: string) {
    && e.kind == SubscriptionPendingEvent && e.subscription == Some(SubscriptionEntity(subscriptionId, cycleKey))
    && e.createdAt.Some? && subscriptionId in s.subscriptions
    && TakesPending(s.subscriptions[subscriptionId].record, e.createdAt.value)
  }

  /** A failure of a payment whose row, if any, is not captured and not from later. */
  predicate FailureFor(s: Store, e: Envelope, known: bool, paymentId: string) {
    && e.kind == PaymentFailedEvent && e.payment.Some? && e.payment.value.id == paymentId && e.createdAt.Some?
    && (if paymentId in s.transactions
        then && s.transactions[paymentId].record.status != "captured"
             && (s.transactions[paymentId].record.at.None?
                 || s.transactions[paymentId].record.at.value <= e.createdAt.value)
        else known)
  }

  /** Nothing has happened to the case but its opening. */
  ghost predicate JustOpened(c: CaseState, key: string, transactionId: Option<string>, amount: int, currency: string) {
    && c.sourceKey == key && c.transactionId == transactionId && c.amountAtRisk == amount && c.currency == currency
    && c.status == Detected && c.version == 1 && c.resolvedAt.None? && c.outcome.None? && c.currentRun.None?
    && c.runs == [] && c.actions == [] && c.posts == [] && c.audits == [CaseCreated]
    && c.analysis == NoAnalysis && c.executor == NoExecutor
  }

  ghost predicate HasCase(cases: seq<CaseState>, key: string) {
    exists i :: 0 <= i < |cases| && cases[i].sourceKey == key
  }

  /** The cases are as before, or one was appended that has just been opened under a new key. */
  ghost predicate OpensOnce(before: seq<CaseState>, after: seq<CaseState>, key: string, transactionId: Option<string>,
                            amount: int, currency: string)
  {
    if HasCase(before, key) then after == before
    else |after| == |before| + 1 && after[..|before|] == before
         && JustOpened(after[|before|], key, transactionId, amount, currency)
  }

  lemma HasCaseExactly(cases: seq<CaseState>, key: string)
    ensures CaseByKey(cases, key).Some? <==> HasCase(cases, key)
  {
  }

  /** A committed pending event opens the cycle's case for the subscription's amount, unless it is there already. */
  lemma PendingOpensCase(s: Store, d: Delivery, subscriptionId: string, cycleKey: string)
    requires Commits(s, d) && PendingFor(s, d.envelope, subscriptionId, cycleKey)
    ensures var row := s.subscriptions[subscriptionId];
            OpensOnce(s.cases, Deliver(s, d).cases,
                      "razorpay:subscription_pending:" + subscriptionId + ":" + cycleKey, None,
                      row.amount, row.currency)
  {
    HasCaseExactly(s.cases, SubscriptionKey(subscriptionId, cycleKey));
  }

  /** A committed failure opens the payment's case for the amount it reports, unless it is there already. */
  lemma FailureOpensCase(s: Store, d: Delivery, paymentId: string)
    requires Commits(s, d) && FailureFor(s, d.envelope, d.customerKnown, paymentId)
    ensures OpensOnce(s.cases, Deliver(s, d).cases, "razorpay:payment_failed:" + paymentId, Some(paymentId),
                      d.envelope.payment.value.amount, d.envelope.payment.value.currency)
  {
    HasCaseExactly(s.cases, PaymentKey(paymentId));
  }

  /** The operation is one of the two and commits. */
  ghost predicate Opens(s: Store, op: Op, key: string) {
    && op.Delivered? && Commits(s, op.delivery)
    && ((exists id: string, cycle: string :: PendingFor(s, op.delivery.envelope, id, cycle)
                                             && key == "razorpay:subscription_pending:" + id + ":" + cycle)
        || (exists id: string :: FailureFor(s, op.delivery.envelope, op.delivery.customerKnown, id)
                                 && key == "razorpay:payment_failed:" + id))
  }

  lemma PendingWithoutEffect(s: Store, e: Envelope)
    requires e.kind == SubscriptionPendingEvent && HandleSubscriptionPending(s, e).Done?
    requires |HandleSubscriptionPending(s, e).store.cases| != |s.cases|
    ensures e.subscription.Some?
    ensures PendingFor(s, e, e.subscription.value.id, e.subscription.value.cycleKey)
  {
  }

  lemma FailureWithoutEffect(s: Store, e: Envelope, known: bool)
    requires e.kind == PaymentFailedEvent && HandlePaymentFailed(s, e, known).Done?
    requires |HandlePaymentFailed(s, e, known).store.cases| != |s.cases|
    ensures e.payment.Some? && FailureFor(s, e, known, e.payment.value.id)
  {
  }

  lemma HandlersOpenNothingElse(s: Store, e: Envelope, known: bool)
    requires Handle(s, e, known).Done? && |Handle(s, e, known).store.cases| != |s.cases|
    ensures e.kind == SubscriptionPendingEvent || e.kind == PaymentFailedEvent
  {
  }

  /** A case appears only by an operation that opens one under its key. */
  lemma NewCaseIsOpened(s: Store, policy: Policy.MerchantPolicyRow, op: Op, i: nat)
    requires StoreInv(s, policy) && |s.cases| <= i < |Step(s, policy, op).cases|
    ensures i == |s.cases| && Opens(s, op, Step(s, policy, op).cases[i].sourceKey)
  {
    var d := op.delivery;
    var claimed := Claimed(s, d.eventId);
    HandlersOpenNothingElse(claimed, d.envelope, d.customerKnown);
    if d.envelope.kind == SubscriptionPendingEvent {
      PendingWithoutEffect(claimed, d.envelope);
      PendingOpensCase(s, d, d.envelope.subscription.value.id, d.envelope.subscription.value.cycleKey);
    } else {
      FailureWithoutEffect(claimed, d.envelope, d.customerKnown);
      FailureOpensCase(s, d, d.envelope.payment.value.id);
    }
  }

  lemma OpeningLeavesCase(s: Store, policy: Policy.MerchantPolicyRow, op: Op, key: string)
    requires StoreInv(s, policy) && Opens(s, op, key)
    ensures HasCase(Step(s, policy, op).cases, key)
  {
    var d := op.delivery;
    if id: string, cycle: string :| PendingFor(s, d.envelope, id, cycle)
                                    && key == "razorpay:subscription_pending:" + id + ":" + cycle {
      PendingOpensCase(s, d, id, cycle);
    } else {
      var id: string :| FailureFor(s, d.envelope, d.customerKnown, id) && key == "razorpay:payment_failed:" + id;
      FailureOpensCase(s, d, id);
    }
  }

  /** Some operation of the run opens the key. */
  ghost predicate OpenedInRun(s: Store, policy: Policy.MerchantPolicyRow, ops: seq<Op>, key: string) {
    ops != []
    && (OpenedInRun(s, policy, ops[..|ops| - 1], key)
        || Opens(RunStore(s, policy, ops[..|ops| - 1]), ops[|ops| - 1], key))
  }

  /**
   * In every run a case that was not there at the start is there at the end
   * exactly when some delivery of the run took effect that opens its key: a
   * pending event its subscription takes, or a failure its payment takes.
   */
  lemma {:induction false} CasesOpenExactly(s: Store, policy: Policy.MerchantPolicyRow, ops: seq<Op>, key: string)
    requires StoreInv(s, policy) && !HasCase(s.cases, key)
    ensures HasCase(RunStore(s, policy, ops).cases, key) <==> OpenedInRun(s, policy, ops, key)
  {
    if ops != [] {
      var front, last := ops[..|ops| - 1], ops[|ops| - 1];
      var before, after := RunStore(s, policy, front), RunStore(s, policy, ops);
      CasesOpenExactly(s, policy, front, key);
      RunKeepsStore(s, policy, front);
      if Opens(before, last, key) {
        OpeningLeavesCase(before, policy, last, key);
      }
      if HasCase(before.cases, key) {
        CaseStays(before, policy, last, key);
      }
      if HasCase(after.cases, key) {
        CaseIsOldOrOpened(before, policy, last, key);
      }
    }
  }

  lemma KeyStays(s: Store, policy: Policy.MerchantPolicyRow, op: Op, i: nat)
    requires StoreInv(s, policy) && i < |s.cases|
    ensures i < |Step(s, policy, op).cases| && Step(s, policy, op).cases[i].sourceKey == s.cases[i].sourceKey
  {
    StepGrows(s, policy, op);
    assert Kept(s.cases[i], Step(s, policy, op).cases[i]);
  }

  lemma CaseStays(s: Store, policy: Policy.MerchantPolicyRow, op: Op, key: string)
    requires StoreInv(s, policy) && HasCase(s.cases, key)
    ensures HasCase(Step(s, policy, op).cases, key)
  {
    var i :| 0 <= i < |s.cases| && s.cases[i].sourceKey == key;
    KeyStays(s, policy, op, i);
  }

  lemma CaseIsOldOrOpened(s: Store, policy: Policy.MerchantPolicyRow, op: Op, key: string)
    requires StoreInv(s, policy) && HasCase(Step(s, policy, op).cases, key)
    ensures HasCase(s.cases, key) || Opens(s, op, key)
  {
    var i :| 0 <= i < |Step(s, policy, op).cases| && Step(s, policy, op).cases[i].sourceKey == key;
    CaseAtIsOldOrOpened(s, policy, op, i);
  }

  lemma CaseAtIsOldOrOpened(s: Store, policy: Policy.MerchantPolicyRow, op: Op, i: nat)
    requires StoreInv(s, policy) && i < |Step(s, policy, op).cases|
    ensures var key := Step(s, policy, op).cases[i].sourceKey;
            if i < |s.cases| then s.cases[i].sourceKey == key else Opens(s, op, key)
  {
    if i < |s.cases| {
      KeyStays(s, policy, op, i);
    } else {
      NewCaseIsOpened(s, policy, op, i);
    }
  }

  // ------------------------------------------------------------ for how much

  /** The operation opens a case with this case's key, origin, amount and currency. */
  ghost predicate OpensFor(s: Store, op: Op, c: CaseState) {
    && op.Delivered?
    && var e := op.delivery.envelope;
       || (&& e.subscription.Some?
           && PendingFor(s, e, e.subscription.value.id, e.subscription.value.cycleKey)
           && c.sourceKey
              == "razorpay:subscription_pending:" + e.subscription.value.id + ":" + e.subscription.value.cycleKey
           && c.transactionId.None?
           && c.amountAtRisk == s.subscriptions[e.subscription.value.id].amount
           && c.currency == s.subscriptions[e.subscription.value.id].currency)
       || (&& e.payment.Some? && FailureFor(s, e, op.delivery.customerKnown, e.payment.value.id)
           && c.sourceKey == "razorpay:payment_failed:" + e.payment.value.id
           && c.transactionId == Some(e.payment.value.id)
           && c.amountAtRisk == e.payment.value.amount && c.currency == e.payment.value.currency)
  }

  lemma NewCaseIsOpenedFor(s: Store, policy: Policy.MerchantPolicyRow, op: Op, i: nat)
    requires StoreInv(s, policy) && |s.cases| <= i < |Step(s, policy, op).cases|
    ensures i == |s.cases| && OpensFor(s, op, Step(s, policy, op).cases[i])
  {
    var d := op.delivery;
    var claimed := Claimed(s, d.eventId);
    HandlersOpenNothingElse(claimed, d.envelope, d.customerKnown);
    if d.envelope.kind == SubscriptionPendingEvent {
      PendingWithoutEffect(claimed, d.envelope);
      PendingOpensCase(s, d, d.envelope.subscription.value.id, d.envelope.subscription.value.cycleKey);
    } else {
      FailureWithoutEffect(claimed, d.envelope, d.customerKnown);
      FailureOpensCase(s, d, d.envelope.payment.value.id);
    }
  }

  /** Every case of a run that was not there at the start is worth what the delivery that opened it says. */
  lemma {:induction false} CasesAreOpenedFor(s: Store, policy: Policy.MerchantPolicyRow, ops: seq<Op>, i: nat)
    returns (k: nat)
    requires StoreInv(s, policy) && |s.cases| <= i < |RunStore(s, policy, ops).cases|
    ensures k < |ops| && OpensFor(RunStore(s, policy, ops[..k]), ops[k], RunStore(s, policy, ops).cases[i])
  {
    var front, last := ops[..|ops| - 1], ops[|ops| - 1];
    var before := RunStore(s, policy, front);
    RunKeepsStore(s, policy, front);
    if i < |before.cases| {
      k := CasesAreOpenedFor(s, policy, front, i);
      assert front[..k] == ops[..k];
      OpeningStays(RunStore(s, policy, ops[..k]), ops[k], before, policy, last, i);
    } else {
      k := |ops| - 1;
      NewCaseIsOpenedFor(before, policy, last, i);
    }
  }

  lemma OpeningStays(s: Store, op: Op, before: Store, policy: Policy.MerchantPolicyRow, last: Op, i: nat)
    requires StoreInv(before, policy) && i < |before.cases| && OpensFor(s, op, before.cases[i])
    ensures i < |Step(before, policy, last).cases| && OpensFor(s, op, Step(before, policy, last).cases[i])
  {
    StepGrows(before, policy, last);
    assert Kept(before.cases[i], Step(before, policy, last).cases[i]);
  }

  // ------------------------------------------------------------ which cycle a key is about

  /** Subscription ids without a colon keep the keys of different cycles apart. */
  lemma CycleKeysAreDistinct(id: string, cycle: string, otherId: string, otherCycle: string)
    requires ':' !in id && ':' !in otherId
    requires SubscriptionKey(id, cycle) == SubscriptionKey(otherId, otherCycle)
    ensures id == otherId && cycle == otherCycle
  {
    var a, b := id + ":" + cycle, otherId + ":" + otherCycle;
    assert a == SubscriptionKey(id, cycle)[|SUBSCRIPTION_KEY_PREFIX|..];
    assert b == SubscriptionKey(otherId, otherCycle)[|SUBSCRIPTION_KEY_PREFIX|..];
    assert a[|id|] == ':' && forall k :: 0 <= k < |id| ==> a[k] == id[k];
    assert b[|otherId|] == ':' && forall k :: 0 <= k < |otherId| ==> b[k] == otherId[k];
    assert id == a[..|id|] && cycle == a[|id| + 1..];
    assert otherId == b[..|otherId|] && otherCycle == b[|otherId| + 1..];
  }

  /** With one they can meet. */
  lemma CycleKeysCanMeet()
    ensures SubscriptionKey("a:b", "c") == SubscriptionKey("a", "b:c")
  {
    assert "a:b" + ":" + "c" == "a" + ":" + "b:c";
    assert SubscriptionKey("a:b", "c") == SUBSCRIPTION_KEY_PREFIX + ("a:b" + ":" + "c");
    assert SubscriptionKey("a", "b:c") == SUBSCRIPTION_KEY_PREFIX + ("a" + ":" + "b:c");
  }
}
