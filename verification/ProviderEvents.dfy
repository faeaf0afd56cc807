/**
 * Webhook ingestion, call by call: claim, handle, mark, commit. Each method is
 * proved to leave the session where the delivery function of the store says.
 */
module ProviderEvents {
  import opened Domain
  import opened Registry
  import opened Cases
  import opened Protocol
  import opened EventOrdering
  import opened Store
  import opened Persistence
  import opened StateMachine

  /** The webhook row as a handler leaves it: marked only when the event was ignored. */
  function Marked(t: Store, eventId: string, disposition: Disposition): Store {
    if disposition == Processed then t else MarkedAs(t, eventId, disposition)
  }

  class ProviderEventService {
    const session: Session

    constructor (session: Session)
      ensures this.session == session
    {
      this.session := session;
    }

    /** What handling `h` of an event means for the session. */
    ghost predicate Leaves(h: Handled, eventId: string, raised: bool, committedBefore: Store)
      reads session
    {
      match h
      case Raised => raised && session.committed == committedBefore
      case Done(t, disposition, committed) =>
        && !raised
        && session.working == Marked(t, eventId, disposition)
        && session.committed == if committed then t else committedBefore
    }

    // ---------------------------------------------------------- upserts

    /** Writes the payment's row unless no customer is known, the event is stale or the amount is not positive. */
    method UpsertTransactionFromPayment(payment: PaymentEntity, status: string, at: int, customerKnown: bool)
      returns (correlated: bool, rejected: bool, applied: bool)
      modifies session`working
      ensures match UpsertTransaction(old(session.working), payment, status, at, customerKnown)
              case Uncorrelated => !correlated && session.working == old(session.working)
              case Rejected => correlated && rejected && session.working == old(session.working)
              case Upserted(t, a) => correlated && !rejected && applied == a && session.working == t
    {
      correlated, rejected, applied := true, false, true;
      if payment.id in session.working.transactions {
        var existing := session.working.transactions[payment.id];
        if !ShouldApplyPayment(existing.record, status, Some(at)) {
          applied := false;
          return;
        }
      } else if !customerKnown {
        correlated := false;
        return;
      }
      if payment.amount <= 0 {
        rejected := true;
        return;
      }
      var row := Transaction(Record(status, Some(at)), payment.amount, payment.currency);
      session.working := session.working.(transactions := session.working.transactions[payment.id := row]);
    }

    method UpsertSubscriptionRow(subscriptionId: string, kind: SubscriptionKind, at: int)
      returns (correlated: bool, applied: bool)
      modifies session`working
      ensures match UpsertSubscription(old(session.working), subscriptionId, kind, at)
              case Uncorrelated => !correlated && session.working == old(session.working)
              case Rejected => false
              case Upserted(t, a) => correlated && applied == a && session.working == t
    {
      correlated, applied := false, false;
      if subscriptionId !in session.working.subscriptions {
        return;
      }
      correlated := true;
      var existing := session.working.subscriptions[subscriptionId];
      if ShouldApplySubscription(existing.record, kind, Some(at)) {
        existing := existing.(record := Record(SubscriptionStatus(kind), Some(at)));
        session.working := session.working.(subscriptions := session.working.subscriptions[subscriptionId := existing]);
        applied := true;
      } else {
        assert session.working.subscriptions[subscriptionId := existing] == session.working.subscriptions;
      }
    }

    method CreateCaseIfAbsent(key: string, transactionId: Option<string>, amount: int, currency: string)
      requires amount >= 0
      modifies session`working
      ensures session.working == OpenCase(old(session.working), key, transactionId, amount, currency)
    {
      if CaseByKey(session.working.cases, key).Some? {
        return;
      }
      session.working :=
        session.working.(cases := session.working.cases + [NewCase(key, transactionId, amount, currency)]);
    }

    // ---------------------------------------------------------- verified success

    method CreateOutcomeIfAbsent(id: nat, payment: PaymentEntity, at: int)
      requires id < |session.working.cases|
      modifies session`working
      ensures var c := old(session.working).cases[id];
              var outcome := if c.outcome.Some? then c.outcome else Some(Outcome(payment.amount, payment.id, at));
              session.working == WithCase(old(session.working), id, c.(outcome := outcome))
    {
      var c := session.working.cases[id];
      assert WithCase(session.working, id, c) == session.working;
      if c.outcome.Some? {
        return;
      }
      session.Put(id, c.(outcome := Some(Outcome(payment.amount, payment.id, at))));
    }

    method CancelPendingActions(id: nat)
      requires id < |session.working.cases|
      modifies session`working
      ensures var c := old(session.working).cases[id];
              session.working == WithCase(old(session.working), id, c.(actions := CancelPending(c.actions)))
    {
      var c := session.working.cases[id];
      session.Put(id, c.(actions := CancelPending(c.actions)));
    }

    method ResolveCaseSuccess(id: nat, eventId: string, payment: PaymentEntity, at: int) returns (raised: bool)
      requires id < |session.working.cases|
      modifies session
      ensures Leaves(ResolveAt(old(session.working), id, payment, at), eventId, raised, old(session.committed))
    {
      var c := session.working.cases[id];
      raised := false;
      assert WithCase(session.working, id, c) == session.working;
      if c.status == Recovered {
        return;
      }
      if c.status == Failed || c.status == Stopped {
        if !MoneyMatches(c, payment.amount, payment.currency) {
          MarkIgnored(session, eventId, MoneyMismatch);
          return;
        }
        MarkIgnored(session, eventId, TerminalReconciliation);
        session.Put(id, c.(audits := c.audits + [ReconciliationRequired(c.status)]));
        return;
      }
      if !MoneyMatches(c, payment.amount, payment.currency) {
        MarkIgnored(session, eventId, MoneyMismatch);
        return;
      }
      var savepoint := session.working;
      CreateOutcomeIfAbsent(id, payment, at);
      CancelPendingActions(id);
      var moved := TransitionCase(session, id, c.version, PaymentVerified,
                                  ContextAt(at).(reason := "PAYMENT_VERIFIED"));
      if moved.Failure? {
        session.working := savepoint;
        raised := true;
      }
    }

    // ---------------------------------------------------------- handlers

    method OnPaymentFailed(eventId: string, e: Envelope, customerKnown: bool) returns (raised: bool)
      modifies session
      ensures Leaves(HandlePaymentFailed(old(session.working), e, customerKnown), eventId, raised,
                     old(session.committed))
    {
      raised := false;
      if e.payment.None? || e.createdAt.None? {
        return true;
      }
      var payment := e.payment.value;
      var correlated, rejected, applied :=
        UpsertTransactionFromPayment(payment, FAILED, e.createdAt.value, customerKnown);
      if !correlated {
        MarkIgnored(session, eventId, InsufficientFinancialEvidence);
        return;
      }
      if rejected {
        return true;
      }
      if !applied || session.working.transactions[payment.id].record.status == CAPTURED {
        MarkIgnored(session, eventId, StaleWebhook);
        return;
      }
      var transaction := session.working.transactions[payment.id];
      CreateCaseIfAbsent(PaymentKey(payment.id), Some(payment.id), transaction.amount, transaction.currency);
    }

    method OnPaymentCaptured(eventId: string, e: Envelope, customerKnown: bool) returns (raised: bool)
      modifies session
      ensures Leaves(HandlePaymentCaptured(old(session.working), e, customerKnown), eventId, raised,
                     old(session.committed))
    {
      raised := false;
      if e.payment.None? || e.createdAt.None? {
        return true;
      }
      var payment := e.payment.value;
      var correlated, rejected, applied :=
        UpsertTransactionFromPayment(payment, CAPTURED, e.createdAt.value, customerKnown);
      if !correlated {
        MarkIgnored(session, eventId, InsufficientFinancialEvidence);
        return;
      }
      if rejected {
        return true;
      }
      var found := CaseByTransaction(session.working.cases, payment.id);
      if found.None? {
        return;
      }
      raised := ResolveCaseSuccess(found.value, eventId, payment, e.createdAt.value);
    }

    method OnSubscriptionPending(eventId: string, e: Envelope) returns (raised: bool)
      modifies session
      ensures Leaves(HandleSubscriptionPending(old(session.working), e), eventId, raised, old(session.committed))
    {
      raised := false;
      if e.subscription.None? || e.createdAt.None? {
        return true;
      }
      var subscription := e.subscription.value;
      var correlated, applied := UpsertSubscriptionRow(subscription.id, PendingKind, e.createdAt.value);
      if !correlated {
        MarkIgnored(session, eventId, InsufficientFinancialEvidence);
        return;
      }
      if !applied {
        MarkIgnored(session, eventId, StaleWebhook);
        return;
      }
      var row := session.working.subscriptions[subscription.id];
      if row.amount <= 0 {
        return true;
      }
      CreateCaseIfAbsent(SubscriptionKey(subscription.id, subscription.cycleKey), None, row.amount, row.currency);
    }

    method OnSubscriptionCharged(eventId: string, e: Envelope) returns (raised: bool)
      modifies session
      ensures Leaves(HandleSubscriptionCharged(old(session.working), e), eventId, raised, old(session.committed))
    {
      raised := false;
      if e.subscription.None? || e.payment.None? {
        return true;
      }
      var subscription, payment := e.subscription.value, e.payment.value;
      if payment.status != CAPTURED {
        MarkIgnored(session, eventId, InsufficientPaymentEvidence);
        return;
      }
      if e.createdAt.None? {
        return true;
      }
      var correlated, applied := UpsertSubscriptionRow(subscription.id, ChargedKind, e.createdAt.value);
      if !correlated {
        return;
      }
      var found := CaseByKey(session.working.cases, SubscriptionKey(subscription.id, subscription.cycleKey));
      if found.None? {
        return;
      }
      raised := ResolveCaseSuccess(found.value, eventId, payment, e.createdAt.value);
    }

    method OnSubscriptionHalted(eventId: string, e: Envelope) returns (raised: bool)
      modifies session
      ensures Leaves(HandleSubscriptionHalted(old(session.working), e), eventId, raised, old(session.committed))
    {
      raised := false;
      if e.subscription.None? || e.createdAt.None? {
        return true;
      }
      var correlated, applied := UpsertSubscriptionRow(e.subscription.value.id, HaltedKind, e.createdAt.value);
      if !correlated {
        MarkIgnored(session, eventId, InsufficientFinancialEvidence);
      }
    }

    method OnLinkPaid(eventId: string, e: Envelope) returns (raised: bool)
      modifies session
      ensures Leaves(HandleLinkPaid(old(session.working), e), eventId, raised, old(session.committed))
    {
      raised := false;
      if e.link.None? || e.payment.None? {
        return true;
      }
      var reference := e.link.value;
      if reference.NoReference? {
        MarkIgnored(session, eventId, UncorrelatedPaymentLink);
        return;
      }
      if !ReferenceExists(session.working, reference) {
        MarkIgnored(session, eventId, UncorrelatedPaymentLink);
        return;
      }
      if e.createdAt.None? {
        return true;
      }
      raised := ResolveCaseSuccess(reference.caseId, eventId, e.payment.value, e.createdAt.value);
    }

    method ProcessEnvelope(eventId: string, e: Envelope, customerKnown: bool) returns (raised: bool)
      modifies session
      ensures Leaves(Handle(old(session.working), e, customerKnown), eventId, raised, old(session.committed))
    {
      match e.kind {
        case PaymentFailedEvent => raised := OnPaymentFailed(eventId, e, customerKnown);
        case PaymentCapturedEvent => raised := OnPaymentCaptured(eventId, e, customerKnown);
        case SubscriptionPendingEvent => raised := OnSubscriptionPending(eventId, e);
        case SubscriptionChargedEvent => raised := OnSubscriptionCharged(eventId, e);
        case SubscriptionHaltedEvent => raised := OnSubscriptionHalted(eventId, e);
        case PaymentLinkPaidEvent => raised := OnLinkPaid(eventId, e);
        case OtherEvent =>
          raised := false;
          MarkIgnored(session, eventId, UnsupportedEvent);
      }
    }

    /** One delivery attempt; with `crash` the process dies right before its final commit. */
    method IngestWebhook(d: Delivery) returns (raised: bool)
      requires session.Clean()
      modifies session
      ensures session.Clean() && session.committed == Deliver(old(session.committed), d)
    {
      raised := false;
      var claim := ClaimEvent(session, d.eventId);
      if claim == CompleteClaim {
        return;
      }
      HandlerKeepsClaim(session.working, d);
      raised := ProcessEnvelope(d.eventId, d.envelope, d.customerKnown);
      if raised || d.crash {
        session.Rollback();
        return;
      }
      if session.working.webhooks[d.eventId] == Received {
        MarkProcessed(session, d.eventId);
      }
      session.Commit();
    }
  }

  lemma HandlerKeepsClaim(s: Store, d: Delivery)
    requires d.eventId in s.webhooks && s.webhooks[d.eventId] == Received
    ensures var h := Handle(s, d.envelope, d.customerKnown);
            h.Done? ==> d.eventId in h.store.webhooks && h.store.webhooks[d.eventId] == Received
  {
  }
}
