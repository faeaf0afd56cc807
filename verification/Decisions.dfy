/** What approvals, rejections, provider answers and reads do to a case, field by field. */
module Decisions {
  import opened Domain
  import opened Registry
  import opened Cases
  import opened Protocol
  import opened CaseInvariants
  import opened CaseRuns
  import opened CaseTheorems
  import opened CaseProgress
  import opened Selection
  import opened ActionInvariants
  import opened Dispatching
  import Policy
  import Text

  // ------------------------------------------------------------ approval and rejection

  function Started(c: CaseState, index: nat): CaseState
    requires index < |c.actions|
  {
    c.(status := Executing, version := c.version + 1,
       actions := c.actions[index := c.actions[index].(status := ActionExecuting)],
       executor := if c.actions[index].action == EscalateToHuman then Escalating(index) else ReadyToPost(index),
       audits := c.audits + [Transitioned(ApprovedNow, AwaitingApproval, Executing, c.version, c.version + 1)])
  }

  /** An approval starts the last row: a link is about to be sent, anything else is an escalation. */
  lemma ApprovalStarts(c: CaseState, policy: Policy.MerchantPolicyRow, index: nat, version: nat, at: int)
    requires Inv(c, policy) && Approve(c, index, version, at).Success?
    ensures c.status == AwaitingApproval && index + 1 == |c.actions| && c.actions[index].status == PendingApproval
    ensures Approve(c, index, version, at).value == Started(c, index)
    ensures UsesPaymentLink(c.actions[index].action) || c.actions[index].action == EscalateToHuman
  {
    StartsExactly(c, index, version, at);
    assert RowShape(c.actions[index]);
  }

  lemma StartsExactly(c: CaseState, index: nat, version: nat, at: int)
    requires Approve(c, index, version, at).Success?
    ensures index < |c.actions| && c.status == AwaitingApproval && c.actions[index].status == PendingApproval
    ensures UsesPaymentLink(c.actions[index].action) || c.actions[index].action == EscalateToHuman ==>
              Approve(c, index, version, at).value == Started(c, index)
  {
  }

  function Rejected(c: CaseState, index: nat, reanalyze: bool, at: int): CaseState
    requires index < |c.actions|
  {
    var target := if reanalyze then Analyzing else Stopped;
    var event := if reanalyze then ApprovalRejectedReanalyze else ApprovalRejectedStop;
    c.(status := target, version := c.version + 1, resolvedAt := if reanalyze then c.resolvedAt else Some(at),
       actions := c.actions[index := c.actions[index].(status := Cancelled)],
       analysis := if reanalyze then Computing({c.actions[index].action}) else c.analysis,
       audits := c.audits + [Transitioned(event, AwaitingApproval, target, c.version, c.version + 1)])
  }

  /** A rejection goes through for the pending row exactly when a reason is given, and excludes the row's action. */
  lemma RejectionEnds(c: CaseState, policy: Policy.MerchantPolicyRow, index: nat, reason: string, reanalyze: bool,
                      at: int)
    requires Inv(c, policy)
    ensures Reject(c, index, reason, reanalyze, at).Success?
       <==> index < |c.actions| && c.actions[index].status == PendingApproval && !Text.AllSpace(reason)
    ensures Reject(c, index, reason, reanalyze, at).Success? ==>
              c.status == AwaitingApproval && index + 1 == |c.actions|
              && Reject(c, index, reason, reanalyze, at).value == Rejected(c, index, reanalyze, at)
  {
    if index < |c.actions| && c.actions[index].status == PendingApproval {
      RejectsExactly(c, index, reason, reanalyze, at);
    }
  }

  lemma RejectsExactly(c: CaseState, index: nat, reason: string, reanalyze: bool, at: int)
    requires index < |c.actions| && c.actions[index].status == PendingApproval && c.status == AwaitingApproval
    ensures Reject(c, index, reason, reanalyze, at).Success? <==> !Text.AllSpace(reason)
    ensures Reject(c, index, reason, reanalyze, at).Success? ==>
              Reject(c, index, reason, reanalyze, at).value == Rejected(c, index, reanalyze, at)
  {
    Text.BlankExactly(reason);
    var event := if reanalyze then ApprovalRejectedReanalyze else ApprovalRejectedStop;
    var ctx := ContextAt(at).(reason := Text.Strip(reason), rejectionRecorded := true);
    assert Required(event) == {RejectionGiven, ReasonGiven};
    assert EvidencePresent(ReasonGiven, ctx) <==> !Text.AllSpace(reason);
    assert EvidenceComplete(event, ctx) <==> !Text.AllSpace(reason);
  }

  // ------------------------------------------------------------ provider answers

  /** Sending the POST is recorded before anything is known of its fate. */
  lemma PostIsRecorded(c: CaseState)
    ensures c.executor.ReadyToPost? ==>
              SendPost(c) == c.(posts := c.posts + [c.executor.index], executor := Posted(c.executor.index))
    ensures !c.executor.ReadyToPost? ==> SendPost(c) == c
  {
  }

  /** A link was created, the provider definitely refused, or nobody knows. */
  function Answered(row: ActionRow, result: ProviderResult): ActionRow {
    if result == LinkCreated then row.(status := Succeeded, hasLinkId := true)
    else if result == AuthenticationRejected || result == ValidationRejected then row.(status := ActionFailed)
    else row.(status := Unknown)
  }

  /** Where the answer sends the case: a refusal leads back to analysis, or ends the case at the attempt cap. */
  function NextMove(c: CaseState, policy: Policy.MerchantPolicyRow, result: ProviderResult): Event {
    if result == AuthenticationRejected then ActionFailedReanalyze
    else if result == ValidationRejected && |c.actions| < policy.maxRecoveryAttempts then ActionFailedReanalyze
    else if result == ValidationRejected then TerminalActionFailure
    else ActionAcceptedOrUnknown
  }

  /** An answer is recorded once, for the row that was sent, or for one that could not be sent at all. */
  lemma AnswerIsRecorded(c: CaseState, policy: Policy.MerchantPolicyRow, result: ProviderResult)
    requires Inv(c, policy)
    ensures var d := RecordResult(c, policy, result);
            if if result == ProviderNotConfigured then c.executor.ReadyToPost? else c.executor.Posted?
            then && c.executor.index < |c.actions|
                 && d == c.(actions := c.actions[c.executor.index := Answered(c.actions[c.executor.index], result)],
                            executor := ResultRecorded(c.executor.index, NextMove(c, policy, result)))
            else d == c
  {
  }

  lemma EscalationIsRecorded(c: CaseState, policy: Policy.MerchantPolicyRow)
    requires Inv(c, policy)
    ensures var d := RecordEscalation(c);
            if c.executor.Escalating?
            then && c.executor.index < |c.actions|
                 && d == c.(actions := c.actions[c.executor.index :=
                                         c.actions[c.executor.index].(status := Succeeded)],
                            executor := ResultRecorded(c.executor.index, ActionAcceptedOrUnknown))
            else d == c
  {
  }

  function SettledStatus(event: Event): CaseStatus {
    if event == ActionFailedReanalyze then Analyzing
    else if event == TerminalActionFailure then Failed
    else WaitingForOutcome
  }

  function Settlement(c: CaseState, at: int): CaseState
    requires c.executor.ResultRecorded?
  {
    var target := SettledStatus(c.executor.next);
    c.(status := target, version := c.version + 1, executor := NoExecutor,
       resolvedAt := if target == Failed then Some(at) else c.resolvedAt,
       audits := c.audits + [Transitioned(c.executor.next, Executing, target, c.version, c.version + 1)])
  }

  /** The recorded answer moves a case that is still EXECUTING, and only such a case. */
  lemma SettlementEnds(c: CaseState, policy: Policy.MerchantPolicyRow, at: int)
    requires Inv(c, policy)
    ensures FinishSettlement(c, at)
         == if !c.executor.ResultRecorded? then c
            else if c.status != Executing then c.(executor := NoExecutor)
            else Settlement(c, at)
  {
    if c.executor.ResultRecorded? && c.status == Executing {
      SettlesExactly(c, at);
    }
  }

  lemma SettlesExactly(c: CaseState, at: int)
    requires c.executor.ResultRecorded? && c.status == Executing
    requires c.executor.next == ActionAcceptedOrUnknown || c.executor.next == ActionFailedReanalyze
             || c.executor.next == TerminalActionFailure
    ensures FinishSettlement(c, at) == Settlement(c, at)
  {
    MoveAfterAnswer(c.(executor := NoExecutor), c.executor.next, c.executor.index, at);
  }

  lemma MoveAfterAnswer(c: CaseState, event: Event, index: nat, at: int)
    requires c.status == Executing
    requires event == ActionAcceptedOrUnknown || event == ActionFailedReanalyze || event == TerminalActionFailure
    ensures var ctx := ContextAt(at).(action := Some(index), reason := "Payment link creation settled.");
            var target := SettledStatus(event);
            Transition(c, c.version, event, ctx)
            == Success(c.(status := target, version := c.version + 1,
                          resolvedAt := if target == Failed then Some(at) else c.resolvedAt,
                          audits := c.audits + [Transitioned(event, Executing, target, c.version, c.version + 1)]))
  {
    ReasonIsNotBlank();
    assert Target(Executing, event) == Some(SettledStatus(event));
  }

  lemma ReasonIsNotBlank()
    ensures Text.Strip("Payment link creation settled.") != ""
  {
    Text.BlankExactly("Payment link creation settled.");
    assert !Text.IsSpace("Payment link creation settled."[0]);
  }

  function ReadSettled(c: CaseState, index: nat, crash: bool): CaseState
    requires index < |c.actions|
  {
    var row := c.actions[index].(status := Succeeded, hasLinkId := true);
    var settled := c.(actions := c.actions[index := row]);
    if crash || c.status != Executing then settled
    else settled.(status := WaitingForOutcome, version := c.version + 1,
                  audits := c.audits + [Transitioned(ActionAcceptedOrUnknown, Executing, WaitingForOutcome,
                                                     c.version, c.version + 1)])
  }

  /** A read that finds the link settles an unresolved link row, and moves the case unless the process dies first. */
  lemma ReadSettlesRow(c: CaseState, policy: Policy.MerchantPolicyRow, index: nat, lookup: LinkLookup, crash: bool,
                       at: int)
    requires Inv(c, policy) && index < |c.actions|
    ensures var row := c.actions[index];
            Reconcile(c, index, lookup, crash, at)
            == if && UsesPaymentLink(row.action) && (row.status == ActionExecuting || row.status == Unknown)
                  && lookup == LinkFound && c.executor == NoExecutor
               then ReadSettled(c, index, crash) else c
  {
    assert RowShape(c.actions[index]);
    ReadsExactly(c, index, lookup, crash, at);
  }

  lemma ReadsExactly(c: CaseState, index: nat, lookup: LinkLookup, crash: bool, at: int)
    requires index < |c.actions| && RowShape(c.actions[index])
    ensures var row := c.actions[index];
            Reconcile(c, index, lookup, crash, at)
            == if && UsesPaymentLink(row.action) && (row.status == ActionExecuting || row.status == Unknown)
                  && lookup == LinkFound && c.executor == NoExecutor
               then ReadSettled(c, index, crash) else c
  {
    if Reconcilable(c.actions[index]) && lookup == LinkFound && c.executor == NoExecutor {
      FoundSettles(c, index, crash, at);
    }
  }

  lemma FoundSettles(c: CaseState, index: nat, crash: bool, at: int)
    requires index < |c.actions| && Reconcilable(c.actions[index]) && c.executor == NoExecutor
    ensures Reconcile(c, index, LinkFound, crash, at) == ReadSettled(c, index, crash)
  {
    if !crash && c.status == Executing {
      MoveAfterRead(WithLink(c, index), index, at);
    }
  }

  lemma MoveAfterRead(c: CaseState, index: nat, at: int)
    requires c.status == Executing
    ensures Transition(c, c.version, ActionAcceptedOrUnknown, ContextAt(at).(action := Some(index)))
         == Success(c.(status := WaitingForOutcome, version := c.version + 1,
                       audits := c.audits + [Transitioned(ActionAcceptedOrUnknown, Executing, WaitingForOutcome,
                                                          c.version, c.version + 1)]))
  {
  }

  // ------------------------------------------------------------ what runs after approval

  /** Rows staged for approval that were carried out. */
  function HeldAndStarted(actions: seq<ActionRow>): nat {
    if actions == [] then 0
    else
      var last := actions[|actions| - 1];
      HeldAndStarted(actions[..|actions| - 1]) + (if last.requiresApproval && Attempted(last.status) then 1 else 0)
  }

  function Approvals(events: seq<Event>): nat {
    if events == [] then 0
    else Approvals(events[..|events| - 1]) + (if events[|events| - 1] == ApprovedNow then 1 else 0)
  }

  lemma {:induction false} SameRowsSameCount(xs: seq<ActionRow>, ys: seq<ActionRow>)
    requires |xs| == |ys|
    requires forall i :: 0 <= i < |xs| ==>
               (xs[i].requiresApproval && Attempted(xs[i].status)
                <==> ys[i].requiresApproval && Attempted(ys[i].status))
    ensures HeldAndStarted(xs) == HeldAndStarted(ys)
  {
    if xs != [] {
      SameRowsSameCount(xs[..|xs| - 1], ys[..|ys| - 1]);
    }
  }

  ghost predicate ApprovalsOk(c: CaseState) {
    && HeldAndStarted(c.actions) == Approvals(EventsOf(c.audits))
    && forall i :: 0 <= i < |c.actions| && c.actions[i].status == PendingApproval ==> c.actions[i].requiresApproval
  }

  lemma LogCountsApproval(c: CaseState, d: CaseState)
    requires ReplayOk(c) && ReplayOk(d) && Extends(c, d)
    ensures Approvals(EventsOf(d.audits))
         == Approvals(EventsOf(c.audits)) + (if c.status == AwaitingApproval && d.status == Executing then 1 else 0)
  {
    if d.audits != c.audits {
      var entry :| d.audits == c.audits + [entry];
      ReplayAppend(c.audits, entry);
      if entry.Transitioned? {
        assert Target(c.status, entry.event) == Some(d.status);
        ApprovedNowOnly(c.status, entry.event);
        ApprovalsAppend(EventsOf(c.audits), entry.event);
      } else {
        assert EventsOf(c.audits) + [] == EventsOf(c.audits);
      }
    }
  }

  lemma ApprovedNowOnly(status: CaseStatus, event: Event)
    ensures event == ApprovedNow && Target(status, event).Some? ==>
              status == AwaitingApproval && Target(status, event) == Some(Executing)
    ensures status == AwaitingApproval && Target(status, event) == Some(Executing) ==> event == ApprovedNow
  {
  }

  lemma ApprovalsAppend(events: seq<Event>, event: Event)
    ensures Approvals(events + [event]) == Approvals(events) + (if event == ApprovedNow then 1 else 0)
  {
    assert (events + [event])[..|events + [event]| - 1] == events;
  }

  /** From AWAITING_APPROVAL only an approval leads to EXECUTING, and it starts the last row. */
  lemma OnlyApprovalStarts(c: CaseState, policy: Policy.MerchantPolicyRow, step: CaseStep)
    requires Inv(c, policy) && c.status == AwaitingApproval && Next(c, policy, step).status == Executing
    ensures step.ApproveStep?
    ensures |c.actions| > 0 && Next(c, policy, step) == Started(c, |c.actions| - 1)
  {
    match step
    case ApproveStep(index, version, at) => ApprovalStarts(c, policy, index, version, at);
    case RejectStep(index, note, reanalyze, at) => RejectionEnds(c, policy, index, note, reanalyze, at);
    case CreateActionStep(run, action, lookup, crash, at) => CreationWaits(c, policy, run, action, lookup, crash, at);
    case VerifiedPaymentStep(amount, currency, paymentId, at) => PaymentNeverStarts(c, amount, currency, paymentId, at);
    case _ => OthersWait(c, policy, step);
  }

  lemma CreationWaits(c: CaseState, policy: Policy.MerchantPolicyRow, run: nat, action: ActionType, lookup: LinkLookup,
                      crash: bool, at: int)
    requires c.status == AwaitingApproval
    ensures Keep(c, CreateAction(c, policy, run, action, lookup, crash, at)).status == AwaitingApproval
  {
  }

  lemma PaymentNeverStarts(c: CaseState, amount: int, currency: string, paymentId: string, at: int)
    requires c.status == AwaitingApproval
    ensures var v := ResolveSuccess(c, amount, currency, paymentId, at);
            v.Verified? ==> v.case_.status == AwaitingApproval || v.case_.status == Recovered
  {
  }

  lemma OthersWait(c: CaseState, policy: Policy.MerchantPolicyRow, step: CaseStep)
    requires c.status == AwaitingApproval && c.analysis == NoAnalysis && c.executor == NoExecutor
    requires !step.ApproveStep? && !step.RejectStep? && !step.CreateActionStep? && !step.VerifiedPaymentStep?
    ensures Next(c, policy, step).status == AwaitingApproval
  {
  }

  /** A new row is not at once staged for approval and started. */
  lemma NewRowNotStarted(c: CaseState, policy: Policy.MerchantPolicyRow, run: nat, action: ActionType,
                         lookup: LinkLookup, crash: bool, at: int)
    requires Inv(c, policy) && c.status == Recommended
    ensures var d := Keep(c, CreateAction(c, policy, run, action, lookup, crash, at));
            |d.actions| == |c.actions|
            || (&& |d.actions| == |c.actions| + 1
                && var row := d.actions[|c.actions|];
                   && !(row.requiresApproval && Attempted(row.status))
                   && (row.status == PendingApproval ==> row.requiresApproval))
  {
    if CreateAction(c, policy, run, action, lookup, crash, at).Success? {
      CreationBranches(c, policy, run, action, lookup, crash, at);
    }
  }

  lemma StartedCounts(c: CaseState, d: CaseState)
    requires |c.actions| > 0 && d.actions == Started(c, |c.actions| - 1).actions
    requires c.actions[|c.actions| - 1].status == PendingApproval && c.actions[|c.actions| - 1].requiresApproval
    ensures HeldAndStarted(d.actions) == HeldAndStarted(c.actions) + 1
  {
    assert d.actions[..|d.actions| - 1] == c.actions[..|c.actions| - 1];
  }

  /** The rows of a step that starts nothing staged: the old ones keep their part in the count, a new one has none. */
  lemma UnstartedCounts(c: CaseState, d: CaseState)
    requires RowsMove(c, d) && !(c.status == AwaitingApproval && d.status == Executing)
    requires |d.actions| == |c.actions|
             || (|d.actions| == |c.actions| + 1
                 && !(d.actions[|c.actions|].requiresApproval && Attempted(d.actions[|c.actions|].status)))
    ensures HeldAndStarted(d.actions) == HeldAndStarted(c.actions)
  {
    SameRowsSameCount(c.actions, d.actions[..|c.actions|]);
    if |d.actions| == |c.actions| {
      assert d.actions[..|c.actions|] == d.actions;
    }
  }

  lemma ApprovalsKept(c: CaseState, policy: Policy.MerchantPolicyRow, step: CaseStep)
    requires Inv(c, policy) && ApprovalsOk(c)
    ensures ApprovalsOk(Next(c, policy, step))
  {
    var d := Next(c, policy, step);
    NextKeepsInv(c, policy, step);
    NextExtends(c, policy, step);
    LogCountsApproval(c, d);
    StepCounts(c, policy, step);
    PendingIsHeld(c, policy, step);
  }

  /** The rows count one more exactly when a staged row starts. */
  lemma StepCounts(c: CaseState, policy: Policy.MerchantPolicyRow, step: CaseStep)
    requires Inv(c, policy) && ApprovalsOk(c)
    ensures var d := Next(c, policy, step);
            HeldAndStarted(d.actions)
            == HeldAndStarted(c.actions) + (if c.status == AwaitingApproval && d.status == Executing then 1 else 0)
  {
    var d := Next(c, policy, step);
    StepMovesRows(c, policy, step);
    if c.status == AwaitingApproval && d.status == Executing {
      OnlyApprovalStarts(c, policy, step);
      StartedCounts(c, d);
    } else {
      if |d.actions| != |c.actions| {
        NewRowNotStarted(c, policy, step.run, step.action, step.lookup, step.crash, step.at);
      }
      UnstartedCounts(c, d);
    }
  }

  lemma PendingIsHeld(c: CaseState, policy: Policy.MerchantPolicyRow, step: CaseStep)
    requires Inv(c, policy) && ApprovalsOk(c)
    ensures var d := Next(c, policy, step);
            forall i :: 0 <= i < |d.actions| && d.actions[i].status == PendingApproval ==> d.actions[i].requiresApproval
  {
    var d := Next(c, policy, step);
    StepMovesRows(c, policy, step);
    if |d.actions| != |c.actions| {
      NewRowNotStarted(c, policy, step.run, step.action, step.lookup, step.crash, step.at);
    }
    PendingStaysHeld(c, d);
  }

  lemma PendingStaysHeld(c: CaseState, d: CaseState)
    requires RowsMove(c, d)
    requires forall i ::
               0 <= i < |c.actions| && c.actions[i].status == PendingApproval ==> c.actions[i].requiresApproval
    requires |d.actions| == |c.actions|
             || (|d.actions| == |c.actions| + 1
                 && (d.actions[|c.actions|].status == PendingApproval ==> d.actions[|c.actions|].requiresApproval))
    ensures forall i :: 0 <= i < |d.actions| && d.actions[i].status == PendingApproval ==> d.actions[i].requiresApproval
  {
  }

  /**
   * In every reachable case the actions that were staged for approval and
   * carried out are as many as the approvals in the audit log: none starts
   * without one, and none is used twice.
   */
  lemma {:induction false} HeldActionsAreApproved(o: CaseRuns.Opening, policy: Policy.MerchantPolicyRow,
                                                  steps: seq<CaseStep>)
    requires o.amount > 0
    ensures ApprovalsOk(Reached(o, policy, steps))
    ensures var c := Reached(o, policy, steps); HeldAndStarted(c.actions) == Approvals(EventsOf(c.audits))
  {
    if steps == [] {
      NewLog();
    } else {
      var front := steps[..|steps| - 1];
      HeldActionsAreApproved(o, policy, front);
      ReachedInv(o, policy, front);
      ApprovalsKept(Reached(o, policy, front), policy, steps[|steps| - 1]);
    }
  }

  // ------------------------------------------------------------ how decisions fail

  /** The first of four reasons an approval is refused for. */
  lemma ApprovalErrors(c: CaseState, policy: Policy.MerchantPolicyRow, index: nat, version: nat, at: int)
    requires Inv(c, policy)
    ensures var r := Approve(c, index, version, at);
            if index >= |c.actions| then r == Failure(ActionNotFound)
            else if IsTerminal(c.status) then r == Failure(CaseNotActionable)
            else if c.actions[index].status != PendingApproval then r == Failure(ActionConflict)
            else if c.version != version then r == Failure(WorkflowFailed(StaleVersion))
            else if exists i :: 0 <= i < |c.actions| && UnknownLink(c, i) then r == Failure(ActionConflict)
            else r.Success?
  {
    ApprovalSucceedsExactly(c, policy, index, version, at);
    if index < |c.actions| && c.actions[index].status == PendingApproval {
      OthersBlockOnlyIfUnknown(c, index);
      BlockingLinkSpec(c.actions);
      BlockingLinkIsUnique(c.actions);
    }
  }

  lemma RejectionErrors(c: CaseState, policy: Policy.MerchantPolicyRow, index: nat, reason: string, reanalyze: bool,
                        at: int)
    requires Inv(c, policy)
    ensures var r := Reject(c, index, reason, reanalyze, at);
            if index >= |c.actions| then r == Failure(ActionNotFound)
            else if c.actions[index].status != PendingApproval then r == Failure(ActionConflict)
            else if Text.AllSpace(reason) then r == Failure(WorkflowFailed(MissingEvidence))
            else r.Success?
  {
    RefusesExactly(c, index, reason, reanalyze, at);
  }

  lemma RefusesExactly(c: CaseState, index: nat, reason: string, reanalyze: bool, at: int)
    requires index < |c.actions| && c.actions[index].status == PendingApproval ==> c.status == AwaitingApproval
    ensures var r := Reject(c, index, reason, reanalyze, at);
            if index >= |c.actions| then r == Failure(ActionNotFound)
            else if c.actions[index].status != PendingApproval then r == Failure(ActionConflict)
            else if Text.AllSpace(reason) then r == Failure(WorkflowFailed(MissingEvidence))
            else r.Success?
  {
    if index < |c.actions| && c.actions[index].status == PendingApproval {
      RejectsExactly(c, index, reason, reanalyze, at);
    }
  }

  /** What the merchant's row lets the executor do. */
  ghost predicate Permitted(c: CaseState, policy: Policy.MerchantPolicyRow, action: ActionType) {
    action == Stop
    || (&& action in policy.allowed && policy.automationEnabled && |c.actions| < policy.maxRecoveryAttempts
        && (action == CreatePaymentLink || action == RequestAlternatePaymentMethod ==>
              c.currency != "" && forall i :: 0 <= i < |c.actions| ==> !UnknownLink(c, i)))
  }

  /** The first of four reasons creating an action is refused for; one that exists already is only read again. */
  lemma CreationErrors(c: CaseState, policy: Policy.MerchantPolicyRow, run: nat, action: ActionType,
                       lookup: LinkLookup, crash: bool, at: int)
    requires Inv(c, policy)
    ensures var r := CreateAction(c, policy, run, action, lookup, crash, at);
            if action == RetrySameMethod || action == SendRecoveryMessage then r == Failure(UnsupportedAction)
            else if c.currentRun != Some(run) || SelectCandidateRow(RunRows(c, run)).value.action != action
            then r == Failure(StaleRecommendation)
            else if exists i :: 0 <= i < |c.actions| && c.actions[i].run == run && c.actions[i].action == action
            then r.Success?
            else if c.status != Recommended then r == Failure(CaseNotActionable)
            else if !Permitted(c, policy, action) then r == Failure(ActionBlocked)
            else r.Success?
  {
    if c.currentRun == Some(run) {
      SelectedExists(c, policy, run);
      if c.status == Recommended && SelectCandidateRow(RunRows(c, run)).value.action == action {
        RecommendedErrors(c, policy, run, action, lookup, crash, at);
      }
    }
    UnreachedErrors(c, policy, run, action, lookup, crash, at);
  }

  lemma SelectedExists(c: CaseState, policy: Policy.MerchantPolicyRow, run: nat)
    requires Inv(c, policy) && c.currentRun == Some(run)
    ensures SelectCandidateRow(RunRows(c, run)).Some? && SelectCandidateRow(RunRows(c, run)).value.eligible
    ensures IsExecutable(SelectCandidateRow(RunRows(c, run)).value.action)
  {
    assert GoodRun(c.runs[run]);
  }

  /** Everything before the policy is asked. */
  lemma UnreachedErrors(c: CaseState, policy: Policy.MerchantPolicyRow, run: nat, action: ActionType,
                        lookup: LinkLookup, crash: bool, at: int)
    requires c.currentRun == Some(run) ==>
               SelectCandidateRow(RunRows(c, run)).Some? && SelectCandidateRow(RunRows(c, run)).value.eligible
    ensures var r := CreateAction(c, policy, run, action, lookup, crash, at);
            if action == RetrySameMethod || action == SendRecoveryMessage then r == Failure(UnsupportedAction)
            else if c.currentRun != Some(run) || SelectCandidateRow(RunRows(c, run)).value.action != action
            then r == Failure(StaleRecommendation)
            else if exists i :: 0 <= i < |c.actions| && c.actions[i].run == run && c.actions[i].action == action
            then r.Success?
            else c.status != Recommended ==> r == Failure(CaseNotActionable)
  {
  }

  lemma RecommendedErrors(c: CaseState, policy: Policy.MerchantPolicyRow, run: nat, action: ActionType,
                          lookup: LinkLookup, crash: bool, at: int)
    requires Inv(c, policy) && c.status == Recommended && c.currentRun == Some(run)
    requires SelectCandidateRow(RunRows(c, run)).value.action == action
    ensures var r := CreateAction(c, policy, run, action, lookup, crash, at);
            if Permitted(c, policy, action) then r.Success? else r == Failure(ActionBlocked)
    ensures forall i :: 0 <= i < |c.actions| ==> c.actions[i].run != run
  {
    assert GoodRun(c.runs[run]);
    CreationSucceedsExactly(c, policy, run, action, lookup, crash, at);
    RefusalIsBlock(c, policy, run, SelectCandidateRow(c.runs[run]).value, at);
  }

  lemma RefusalIsBlock(c: CaseState, policy: Policy.MerchantPolicyRow, run: nat, row: Row, at: int)
    requires Inv(c, policy) && c.status == Recommended && IsExecutable(row.action)
    ensures Dispatch(c, policy, run, row, at).Success? || Dispatch(c, policy, run, row, at) == Failure(ActionBlocked)
  {
    BlockingLinkIsUnique(c.actions);
    Policy.ExecutionEligibleExactly(row.action, c.amountAtRisk, c.currency, |c.actions|, row.confidence,
                                    BlockingLink(c.actions) != NoRow, policy);
    BranchesSucceed(c, run, row.action, at);
  }
}
