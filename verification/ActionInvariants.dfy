/** The action executor, the provider and verified payments keep the case invariant. */
module ActionInvariants {
  import opened Domain
  import opened Registry
  import opened Selection
  import opened Cases
  import opened Protocol
  import opened CaseInvariants
  import Policy
  import Text

  // ------------------------------------------------------------ shapes per target status

  lemma WaitingDynamic(d: CaseState)
    requires d.status == WaitingForOutcome || d.status == Scheduled
    requires NoOpenRows(d.actions) && d.executor == NoExecutor && d.analysis == NoAnalysis
    requires |d.actions| > 0 && IsSelected(d, d.actions[|d.actions| - 1])
    ensures Dynamic(d)
  {
  }

  /** Everything before the last row is closed. */
  ghost predicate ClosedExceptLast(actions: seq<ActionRow>) {
    |actions| > 0 && NoOpenRows(actions[..|actions| - 1])
  }

  lemma OpenLast(c: CaseState)
    requires Dynamic(c) && |c.actions| > 0
    ensures ClosedExceptLast(c.actions)
  {
  }

  lemma ExecutingDynamic(d: CaseState)
    requires d.status == Executing && ClosedExceptLast(d.actions) && d.analysis == NoAnalysis
    requires d.actions[|d.actions| - 1].status == ActionExecuting
    requires IsSelected(d, d.actions[|d.actions| - 1])
    requires ExecutorOk(d)
    ensures Dynamic(d)
  {
    assert forall i :: 0 <= i < |d.actions| - 1 ==> d.actions[i] == d.actions[..|d.actions| - 1][i];
  }

  lemma AwaitingDynamic(d: CaseState)
    requires d.status == AwaitingApproval && ClosedExceptLast(d.actions)
    requires d.executor == NoExecutor && d.analysis == NoAnalysis
    requires d.actions[|d.actions| - 1].status == PendingApproval
    requires IsSelected(d, d.actions[|d.actions| - 1])
    ensures Dynamic(d)
  {
    assert forall i :: 0 <= i < |d.actions| - 1 ==> d.actions[i] == d.actions[..|d.actions| - 1][i];
  }

  lemma ReplacedLast(actions: seq<ActionRow>, row: ActionRow)
    requires ClosedExceptLast(actions)
    ensures ClosedExceptLast(actions[|actions| - 1 := row])
    ensures row.status != PendingApproval && row.status != ActionExecuting ==> NoOpenRows(actions[|actions| - 1 := row])
  {
    var updated := actions[|actions| - 1 := row];
    assert updated[..|updated| - 1] == actions[..|actions| - 1];
    assert forall i :: 0 <= i < |actions| - 1 ==> updated[i] == actions[..|actions| - 1][i];
  }

  // ------------------------------------------------------------ reconciliation

  /** The row found by key on the current run is the last one while the case is acting. */
  lemma KeyRowIsLast(c: CaseState, index: nat)
    requires Dynamic(c) && RunOrderOk(c.actions, |c.runs|) && c.status == Executing
    requires index < |c.actions| && c.currentRun == Some(c.actions[index].run)
    ensures index == |c.actions| - 1
  {
  }

  lemma SettledByRead(c: CaseState, policy: Policy.MerchantPolicyRow, index: nat)
    requires Inv(c, policy) && index < |c.actions|
    requires Reconcilable(c.actions[index]) && c.executor == NoExecutor
    ensures Inv(WithLink(c, index), policy)
  {
    var d := WithLink(c, index);
    RowUpdateKeeps(c.actions, |c.runs|, c.posts, index, d.actions[index]);
    TableUpdateIsStatic(c, policy, d.actions);
    SettledByReadDynamic(c, d, index);
  }

  /** Only the table part of the static invariant looks at the rows, apart from their number. */
  lemma TableUpdateIsStatic(c: CaseState, policy: Policy.MerchantPolicyRow, actions: seq<ActionRow>)
    requires Static(c, policy) && |actions| == |c.actions| && TableOk(actions, |c.runs|, c.posts)
    ensures Static(c.(actions := actions), policy)
  {
  }

  lemma SettledByReadDynamic(c: CaseState, d: CaseState, index: nat)
    requires Dynamic(c) && index < |c.actions| && c.executor == NoExecutor
    requires Reconcilable(c.actions[index]) && d == WithLink(c, index)
    ensures Dynamic(d)
  {
    assert forall i :: 0 <= i < |c.actions| ==>
                         d.actions[i].run == c.actions[i].run && d.actions[i].action == c.actions[i].action;
    assert OpenRowsOk(d);
  }

  lemma ReconcileKeeps(c: CaseState, policy: Policy.MerchantPolicyRow, index: nat, lookup: LinkLookup, crash: bool,
                       at: int)
    requires Inv(c, policy) && index < |c.actions| && c.currentRun == Some(c.actions[index].run)
    ensures Inv(Reconcile(c, index, lookup, crash, at), policy)
  {
    if Reconcilable(c.actions[index]) && lookup == LinkFound && c.executor == NoExecutor {
      SettledByRead(c, policy, index);
      if !crash && c.status == Executing {
        KeyRowIsLast(c, index);
        OpenLast(c);
        AcceptedAfterSettling(WithLink(c, index), policy, ContextAt(at).(action := Some(index)));
      }
    }
  }

  /** A settled last row lets the case wait for its outcome. */
  lemma AcceptedAfterSettling(c: CaseState, policy: Policy.MerchantPolicyRow, ctx: TransitionContext)
    requires Inv(c, policy) && c.status == Executing && c.executor == NoExecutor
    requires c.actions[|c.actions| - 1].status != ActionExecuting
    ensures Transition(c, c.version, ActionAcceptedOrUnknown, ctx).Success? ==>
              Inv(Transition(c, c.version, ActionAcceptedOrUnknown, ctx).value, policy)
  {
    var r := Transition(c, c.version, ActionAcceptedOrUnknown, ctx);
    if r.Success? {
      MoveKeepsStatic(c, policy, ActionAcceptedOrUnknown, ctx, r.value);
      AcceptedDynamic(c, r.value);
    }
  }

  lemma AcceptedDynamic(c: CaseState, d: CaseState)
    requires Dynamic(c) && c.status == Executing && c.executor == NoExecutor
    requires |c.actions| > 0 && c.actions[|c.actions| - 1].status != ActionExecuting
    requires d == c.(status := WaitingForOutcome, version := d.version, resolvedAt := d.resolvedAt, audits := d.audits)
    ensures Dynamic(d)
  {
    SettledIsClosed(c);
    WaitingDynamic(d);
  }

  lemma SettledIsClosed(c: CaseState)
    requires Dynamic(c) && c.status == Executing && |c.actions| > 0
    requires c.actions[|c.actions| - 1].status != ActionExecuting
    ensures NoOpenRows(c.actions)
  {
  }

  // ------------------------------------------------------------ creating an action

  /** Adding the row and leaving RECOMMENDED in one commit keeps the static parts. */
  lemma AddRowKeepsStatic(c: CaseState, policy: Policy.MerchantPolicyRow, run: nat, row: ActionRow,
                          event: Event, ctx: TransitionContext, d: CaseState)
    requires Static(c, policy) && c.status == Recommended && |c.actions| < policy.maxRecoveryAttempts
    requires row == ActionRow(row.action, row.status, NextAttempt(c.actions), run, row.requiresApproval, false)
    requires RowShape(row) && run < |c.runs| && AllBefore(c.actions, run)
    requires BlocksLinks(row) ==> BlockingLink(c.actions).NoRow?
    requires AddsRow(Recommended, event) && Issued(event)
    requires Transition(c.(actions := c.actions + [row]), c.version, event, ctx) == Success(d)
    ensures Static(d, policy) && Target(Recommended, event) == Some(d.status)
    ensures d == c.(actions := c.actions + [row], status := d.status, version := d.version,
                    resolvedAt := d.resolvedAt, audits := d.audits)
  {
    assert TableOk(c.actions + [row], |c.runs|, c.posts) by {
      NextAttemptIsCount(c.actions);
      BlockingLinkSpec(c.actions);
      RowAddKeeps(c.actions, |c.runs|, c.posts, row);
    }
    TransitionLedger(c.(actions := c.actions + [row]), event, ctx, d);
    PaidOnlyByVerification(Recommended, event);
    RowAddedStatic(c, policy, row, d);
  }

  lemma RowAddedStatic(c: CaseState, policy: Policy.MerchantPolicyRow, row: ActionRow, d: CaseState)
    requires Static(c, policy) && !IsTerminal(c.status) && |c.actions| < policy.maxRecoveryAttempts
    requires TableOk(c.actions + [row], |c.runs|, c.posts)
    requires ReplayOk(d) && d.status != Recovered
    requires RowsAdded(EventsOf(d.audits)) == RowsAdded(EventsOf(c.audits)) + 1
    requires forall e :: e in EventsOf(d.audits) ==> Issued(e)
    requires d == c.(actions := c.actions + [row], status := d.status, version := d.version,
                    resolvedAt := d.resolvedAt, audits := d.audits)
    ensures Static(d, policy)
  {
  }

  lemma StopKeeps(c: CaseState, policy: Policy.MerchantPolicyRow, at: int)
    requires Inv(c, policy) && c.status == Recommended
    ensures ExecuteStop(c, at).Success? ==> Inv(ExecuteStop(c, at).value, policy)
  {
    var r := ExecuteStop(c, at);
    if r.Success? {
      MoveKeepsStatic(c, policy, StopSelected, ContextAt(at).(reason := "Operator selected STOP."), r.value);
      ClosedBefore(c);
      QuietDynamic(r.value);
    }
  }

  lemma LastAppended(c: CaseState, row: ActionRow)
    requires NoOpenRows(c.actions)
    ensures ClosedExceptLast(c.actions + [row])
    ensures row.status != PendingApproval && row.status != ActionExecuting ==> NoOpenRows(c.actions + [row])
  {
    assert (c.actions + [row])[..|c.actions + [row]| - 1] == c.actions;
  }

  ghost predicate ReadyToAct(c: CaseState, policy: Policy.MerchantPolicyRow, run: nat) {
    Inv(c, policy) && c.status == Recommended && c.currentRun == Some(run) && |c.actions| < policy.maxRecoveryAttempts
  }

  lemma WaitKeeps(c: CaseState, policy: Policy.MerchantPolicyRow, run: nat, at: int)
    requires ReadyToAct(c, policy, run)
    requires SelectCandidateRow(RunRows(c, run)).Some? && SelectCandidateRow(RunRows(c, run)).value.action == Wait
    ensures ExecuteWait(c, run, at).Success? ==> Inv(ExecuteWait(c, run, at).value, policy)
  {
    var r := ExecuteWait(c, run, at);
    if r.Success? {
      var row := ActionRow(Wait, ActionScheduled, NextAttempt(c.actions), run, false, false);
      var ctx := ContextAt(at).(action := Some(|c.actions|), analysisRun := Some(run), scheduledFor := Some(at));
      AddRowKeepsStatic(c, policy, run, row, ScheduleAction, ctx, r.value);
      ClosedBefore(c);
      LastAppended(c, row);
      WaitingDynamic(r.value);
    }
  }

  lemma StageKeeps(c: CaseState, policy: Policy.MerchantPolicyRow, run: nat, action: ActionType, at: int)
    requires ReadyToAct(c, policy, run)
    requires action == EscalateToHuman || (UsesPaymentLink(action) && BlockingLink(c.actions).NoRow?)
    requires SelectCandidateRow(RunRows(c, run)).Some? && SelectCandidateRow(RunRows(c, run)).value.action == action
    ensures StageApproval(c, run, action, at).Success? ==> Inv(StageApproval(c, run, action, at).value, policy)
  {
    var r := StageApproval(c, run, action, at);
    if r.Success? {
      var row := ActionRow(action, PendingApproval, NextAttempt(c.actions), run, true, false);
      var ctx := ContextAt(at).(action := Some(|c.actions|), analysisRun := Some(run));
      AddRowKeepsStatic(c, policy, run, row, ApprovalRequired, ctx, r.value);
      ClosedBefore(c);
      LastAppended(c, row);
      AwaitingDynamic(r.value);
    }
  }

  lemma BeginLinkKeeps(c: CaseState, policy: Policy.MerchantPolicyRow, run: nat, action: ActionType, at: int)
    requires ReadyToAct(c, policy, run)
    requires UsesPaymentLink(action) && BlockingLink(c.actions).NoRow?
    requires SelectCandidateRow(RunRows(c, run)).Some? && SelectCandidateRow(RunRows(c, run)).value.action == action
    ensures BeginLink(c, run, action, at).Success? ==> Inv(BeginLink(c, run, action, at).value, policy)
  {
    var row := ActionRow(action, ActionExecuting, NextAttempt(c.actions), run, false, false);
    var ctx := ContextAt(at).(action := Some(|c.actions|));
    var moved := Transition(c.(actions := c.actions + [row]), c.version, AutoExecute, ctx);
    if moved.Success? {
      AddRowKeepsStatic(c, policy, run, row, AutoExecute, ctx, moved.value);
      var d := moved.value.(executor := ReadyToPost(|c.actions|));
      ProcessesAreNotStatic(moved.value, policy, d.analysis, d.executor);
      BegunDynamic(c, policy, run, row, d);
    }
  }

  lemma BegunDynamic(c: CaseState, policy: Policy.MerchantPolicyRow, run: nat, row: ActionRow, d: CaseState)
    requires ReadyToAct(c, policy, run) && row.run == run
    requires row.status == ActionExecuting && UsesPaymentLink(row.action)
    requires SelectCandidateRow(RunRows(c, run)).Some? && SelectCandidateRow(RunRows(c, run)).value.action == row.action
    requires d.status == Executing && d.actions == c.actions + [row] && d.executor == ReadyToPost(|c.actions|)
    requires d.posts == c.posts && d.currentRun == c.currentRun && d.runs == c.runs && d.analysis == c.analysis
    ensures Dynamic(d)
  {
    ClosedBefore(c);
    LastAppended(c, row);
    ExecutingDynamic(d);
  }

  /** What the policy check lets through, in terms of the case. */
  lemma PolicyAdmits(c: CaseState, policy: Policy.MerchantPolicyRow, row: Row)
    requires IsExecutable(row.action)
    ensures var config := Policy.FromMerchantRow(policy);
            && (Policy.Eligible(Question(c, row), config) && row.action != Stop ==>
                  && |c.actions| < policy.maxRecoveryAttempts
                  && (UsesPaymentLink(row.action) ==> BlockingLink(c.actions).NoRow?))
            && (row.action == EscalateToHuman ==> Policy.NeedsApproval(Question(c, row), config))
  {
    Policy.ExecutionEligibleExactly(row.action, c.amountAtRisk, c.currency, |c.actions|, row.confidence,
                                    BlockingLink(c.actions) != NoRow, policy);
    if row.action == EscalateToHuman {
      Policy.EscalationNeedsApproval(Question(c, row), policy);
    }
  }

  lemma DispatchKeeps(c: CaseState, policy: Policy.MerchantPolicyRow, run: nat, row: Row, at: int)
    requires Inv(c, policy) && c.status == Recommended && c.currentRun == Some(run)
    requires SelectCandidateRow(RunRows(c, run)) == Some(row) && IsExecutable(row.action)
    ensures Inv(Keep(c, Dispatch(c, policy, run, row, at)), policy)
  {
    var r := Dispatch(c, policy, run, row, at);
    if r.Success? {
      PolicyAdmits(c, policy, row);
      if row.action == Stop {
        StopKeeps(c, policy, at);
      } else if row.action == Wait {
        WaitKeeps(c, policy, run, at);
      } else if Policy.NeedsApproval(Question(c, row), Policy.FromMerchantRow(policy)) {
        StageKeeps(c, policy, run, row.action, at);
      } else {
        BeginLinkKeeps(c, policy, run, row.action, at);
      }
    }
  }

  lemma CreateActionKeeps(c: CaseState, policy: Policy.MerchantPolicyRow, run: nat, action: ActionType,
                          lookup: LinkLookup, crash: bool, at: int)
    requires Inv(c, policy)
    ensures Inv(Keep(c, CreateAction(c, policy, run, action, lookup, crash, at)), policy)
  {
    var r := CreateAction(c, policy, run, action, lookup, crash, at);
    if r.Success? {
      var selected := SelectCandidateRow(RunRows(c, run)).value;
      var existing := RowForKey(c.actions, run, action);
      if existing.Some? {
        ReconcileKeeps(c, policy, existing.value, lookup, crash, at);
      } else {
        DispatchKeeps(c, policy, run, selected, at);
      }
    }
  }

  // ------------------------------------------------------------ approval

  /** A row closed or started together with a move that adds no row keeps the static parts. */
  lemma UpdatedMoveStatic(c: CaseState, policy: Policy.MerchantPolicyRow, index: nat, status: ActionStatus,
                          event: Event, ctx: TransitionContext, d: CaseState)
    requires Static(c, policy) && index < |c.actions| && c.actions[index].status == PendingApproval
    requires status == ActionExecuting || status == Cancelled
    requires Issued(event) && !AddsRow(c.status, event) && event != PaymentVerified
    requires Transition(WithStatus(c, index, status), c.version, event, ctx) == Success(d)
    ensures Static(d, policy) && Target(c.status, event) == Some(d.status)
    ensures d == WithStatus(c, index, status).(status := d.status, version := d.version,
                                               resolvedAt := d.resolvedAt, audits := d.audits)
  {
    var updated := WithStatus(c, index, status);
    RowUpdateKeeps(c.actions, |c.runs|, c.posts, index, updated.actions[index]);
    TableUpdateIsStatic(c, policy, updated.actions);
    MoveKeepsStatic(updated, policy, event, ctx, d);
  }

  lemma StartApprovedKeeps(c: CaseState, policy: Policy.MerchantPolicyRow, index: nat, at: int)
    requires Inv(c, policy) && c.status == AwaitingApproval
    requires index < |c.actions| && c.actions[index].status == PendingApproval
    ensures Inv(Keep(c, StartApproved(c, index, at)), policy)
  {
    var started := WithStatus(c, index, ActionExecuting);
    var ctx := ContextAt(at).(action := Some(index), approverKnown := true);
    var r := Transition(started, c.version, ApprovedNow, ctx);
    if r.Success? {
      UpdatedMoveStatic(c, policy, index, ActionExecuting, ApprovedNow, ctx, r.value);
      var d := r.value.(executor := DispatchApproved(c.actions[index].action, index));
      ProcessesAreNotStatic(r.value, policy, d.analysis, d.executor);
      StartedDynamic(c, policy, index, d);
    }
  }

  lemma StartedDynamic(c: CaseState, policy: Policy.MerchantPolicyRow, index: nat, d: CaseState)
    requires Inv(c, policy) && index < |c.actions| && c.actions[index].status == PendingApproval
    requires d.status == Executing && d.actions == WithStatus(c, index, ActionExecuting).actions
    requires d.posts == c.posts && d.currentRun == c.currentRun && d.runs == c.runs && d.analysis == c.analysis
    requires d.executor == DispatchApproved(c.actions[index].action, index)
    ensures Dynamic(d)
  {
    OpenLast(c);
    ReplacedLast(c.actions, d.actions[index]);
    assert RowShape(c.actions[index]);
    ExecutingDynamic(d);
  }

  lemma ApproveKeeps(c: CaseState, policy: Policy.MerchantPolicyRow, index: nat, expectedVersion: nat, at: int)
    requires Inv(c, policy)
    ensures Inv(Keep(c, Approve(c, index, expectedVersion, at)), policy)
  {
    if Approve(c, index, expectedVersion, at).Success? {
      ApprovedIsStarted(c, index, expectedVersion, at);
      StartApprovedKeeps(c, policy, index, at);
    }
  }

  lemma ApprovedIsStarted(c: CaseState, index: nat, expectedVersion: nat, at: int)
    requires Approve(c, index, expectedVersion, at).Success?
    ensures index < |c.actions| && c.actions[index].status == PendingApproval && c.status == AwaitingApproval
    ensures Approve(c, index, expectedVersion, at) == StartApproved(c, index, at)
  {
  }

  lemma RejectKeeps(c: CaseState, policy: Policy.MerchantPolicyRow, index: nat, note: string, reanalyze: bool, at: int)
    requires Inv(c, policy)
    ensures Inv(Keep(c, Reject(c, index, note, reanalyze, at)), policy)
  {
    var r := Reject(c, index, note, reanalyze, at);
    if r.Success? {
      var cancelled := WithStatus(c, index, Cancelled);
      var event := if reanalyze then ApprovalRejectedReanalyze else ApprovalRejectedStop;
      var ctx := ContextAt(at).(reason := Text.Strip(note), rejectionRecorded := true);
      RejectedMoveKeeps(c, policy, index, event, ctx, Transition(cancelled, c.version, event, ctx).value, r.value);
    }
  }

  lemma RejectedMoveKeeps(c: CaseState, policy: Policy.MerchantPolicyRow, index: nat, event: Event,
                          ctx: TransitionContext, moved: CaseState, d: CaseState)
    requires Inv(c, policy) && index < |c.actions| && c.actions[index].status == PendingApproval
    requires event == ApprovalRejectedReanalyze || event == ApprovalRejectedStop
    requires Transition(WithStatus(c, index, Cancelled), c.version, event, ctx) == Success(moved)
    requires d == moved.(analysis := d.analysis) && !d.analysis.RunStored?
    requires event == ApprovalRejectedStop ==> d.analysis == c.analysis
    ensures Inv(d, policy)
  {
    UpdatedMoveStatic(c, policy, index, Cancelled, event, ctx, moved);
    ProcessesAreNotStatic(moved, policy, d.analysis, moved.executor);
    RejectedDynamic(c, index, d);
  }

  lemma RejectedDynamic(c: CaseState, index: nat, d: CaseState)
    requires Dynamic(c) && index < |c.actions| && c.actions[index].status == PendingApproval
    requires d.actions == WithStatus(c, index, Cancelled).actions && d.executor == c.executor
    requires d.status == Analyzing || (d.status == Stopped && d.analysis == c.analysis)
    requires !d.analysis.RunStored?
    ensures Dynamic(d)
  {
    OpenLast(c);
    ReplacedLast(c.actions, d.actions[index]);
    QuietDynamic(d);
  }

  // ------------------------------------------------------------ provider call and settlement

  lemma SendPostKeeps(c: CaseState, policy: Policy.MerchantPolicyRow)
    requires Inv(c, policy)
    ensures Inv(SendPost(c), policy)
  {
    if c.executor.ReadyToPost? {
      var d := SendPost(c);
      assert PostsOk(d.actions, d.posts);
      PostedStatic(c, policy, d);
      PostedDynamic(c, d);
    }
  }

  lemma PostedStatic(c: CaseState, policy: Policy.MerchantPolicyRow, d: CaseState)
    requires Static(c, policy) && d == c.(posts := d.posts, executor := d.executor) && PostsOk(d.actions, d.posts)
    ensures Static(d, policy)
  {
  }

  lemma PostedDynamic(c: CaseState, d: CaseState)
    requires Dynamic(c) && c.executor.ReadyToPost? && d == SendPost(c)
    ensures Dynamic(d)
  {
  }

  /** Replacing the executing last row by a settled one. */
  lemma SettleRow(c: CaseState, policy: Policy.MerchantPolicyRow, row: ActionRow, executor: Executor)
    requires Inv(c, policy) && c.executor != NoExecutor && !c.executor.ResultRecorded?
    requires row == c.actions[c.executor.index].(status := row.status, hasLinkId := row.hasLinkId) && RowShape(row)
    requires row.status == Succeeded || row.status == ActionFailed || row.status == Unknown
    requires executor.ResultRecorded? && executor.index == c.executor.index
    requires executor.next == ActionAcceptedOrUnknown || executor.next == ActionFailedReanalyze
             || executor.next == TerminalActionFailure
    ensures Inv(c.(actions := c.actions[c.executor.index := row], executor := executor), policy)
  {
    var index := c.executor.index;
    var d := c.(actions := c.actions[index := row], executor := executor);
    RowUpdateKeeps(c.actions, |c.runs|, c.posts, index, row);
    assert Static(d, policy);
    SettledRowDynamic(c, d, row);
  }

  lemma SettledRowDynamic(c: CaseState, d: CaseState, row: ActionRow)
    requires Dynamic(c) && c.executor != NoExecutor
    requires d == c.(actions := c.actions[c.executor.index := row], executor := d.executor)
    requires row.status == Succeeded || row.status == ActionFailed || row.status == Unknown
    requires row.run == c.actions[c.executor.index].run && row.action == c.actions[c.executor.index].action
    requires ExecutorOk(d)
    ensures Dynamic(d)
  {
    assert forall i :: 0 <= i < |c.actions| - 1 ==> d.actions[i] == c.actions[i];
  }

  lemma RecordResultKeeps(c: CaseState, policy: Policy.MerchantPolicyRow, result: ProviderResult)
    requires Inv(c, policy)
    ensures Inv(RecordResult(c, policy, result), policy)
  {
    if CanRecord(c.executor, result) {
      var row := RecordResult(c, policy, result).actions[c.executor.index];
      SettleRow(c, policy, row, RecordResult(c, policy, result).executor);
    }
  }

  lemma RecordEscalationKeeps(c: CaseState, policy: Policy.MerchantPolicyRow)
    requires Inv(c, policy)
    ensures Inv(RecordEscalation(c), policy)
  {
    if c.executor.Escalating? {
      SettleRow(c, policy, RecordEscalation(c).actions[c.executor.index], RecordEscalation(c).executor);
    }
  }

  lemma ExecutorDies(c: CaseState, policy: Policy.MerchantPolicyRow)
    requires Inv(c, policy)
    ensures Inv(c.(executor := NoExecutor), policy)
  {
    ProcessesAreNotStatic(c, policy, c.analysis, NoExecutor);
    DeadExecutorDynamic(c);
  }

  lemma DeadExecutorDynamic(c: CaseState)
    requires Dynamic(c)
    ensures Dynamic(c.(executor := NoExecutor))
  {
  }

  lemma FinishKeeps(c: CaseState, policy: Policy.MerchantPolicyRow, at: int)
    requires Inv(c, policy)
    ensures Inv(FinishSettlement(c, at), policy)
  {
    if c.executor.ResultRecorded? {
      ExecutorDies(c, policy);
      if c.status == Executing {
        var ctx := ContextAt(at).(action := Some(c.executor.index), reason := "Payment link creation settled.");
        FinishedMove(c.(executor := NoExecutor), policy, c.executor.next, ctx);
      }
    }
  }

  lemma FinishedMove(c: CaseState, policy: Policy.MerchantPolicyRow, event: Event, ctx: TransitionContext)
    requires Inv(c, policy) && c.status == Executing && c.executor == NoExecutor
    requires c.actions[|c.actions| - 1].status != ActionExecuting
    requires event == ActionAcceptedOrUnknown || event == ActionFailedReanalyze || event == TerminalActionFailure
    ensures Transition(c, c.version, event, ctx).Success? ==> Inv(Transition(c, c.version, event, ctx).value, policy)
  {
    var r := Transition(c, c.version, event, ctx);
    if event == ActionAcceptedOrUnknown {
      AcceptedAfterSettling(c, policy, ctx);
    } else if r.Success? {
      MoveKeepsStatic(c, policy, event, ctx, r.value);
      FailedCallDynamic(c, r.value);
    }
  }

  lemma FailedCallDynamic(c: CaseState, d: CaseState)
    requires Dynamic(c) && c.status == Executing && c.executor == NoExecutor
    requires |c.actions| > 0 && c.actions[|c.actions| - 1].status != ActionExecuting
    requires d == c.(status := d.status, version := d.version, resolvedAt := d.resolvedAt, audits := d.audits)
    requires d.status == Analyzing || d.status == Failed
    ensures Dynamic(d)
  {
    SettledIsClosed(c);
    QuietDynamic(d);
  }

  // ------------------------------------------------------------ verified payments

  /**
   * Cancelling on recovery closes exactly what was still open: it changes
   * nothing iff nothing was pending or scheduled, a second time changes nothing,
   * attempted rows stay as they are, and only staged links stop blocking.
   */
  lemma CancelClosesOpenRows(actions: seq<ActionRow>)
    ensures CancelPending(actions) == actions
       <==> forall i :: 0 <= i < |actions| ==>
              actions[i].status != PendingApproval && actions[i].status != ActionScheduled
    ensures CancelPending(CancelPending(actions)) == CancelPending(actions)
    ensures forall i :: 0 <= i < |actions| && Attempted(actions[i].status) ==> CancelPending(actions)[i] == actions[i]
    ensures forall i :: 0 <= i < |actions| ==>
              (BlocksLinks(CancelPending(actions)[i])
               <==> BlocksLinks(actions[i]) && actions[i].status != PendingApproval)
  {
    var cancelled := CancelPending(actions);
    assert forall i :: 0 <= i < |cancelled| ==> CancelPending(cancelled)[i] == cancelled[i];
    if forall i :: 0 <= i < |actions| ==> actions[i].status != PendingApproval && actions[i].status != ActionScheduled {
      assert forall i :: 0 <= i < |actions| ==> cancelled[i] == actions[i];
    }
  }

  lemma CancelKeepsTable(actions: seq<ActionRow>, runCount: nat, posts: seq<nat>)
    requires TableOk(actions, runCount, posts)
    ensures TableOk(CancelPending(actions), runCount, posts)
  {
    var cancelled := CancelPending(actions);
    assert RowsOk(cancelled);
    assert RunOrderOk(cancelled, runCount);
    assert forall i :: 0 <= i < |actions| && BlocksLinks(cancelled[i]) ==> BlocksLinks(actions[i]);
  }

  lemma RecoveredKeepsStatic(c: CaseState, policy: Policy.MerchantPolicyRow, amount: int, paymentId: string, at: int,
                             ctx: TransitionContext, d: CaseState)
    requires Static(c, policy) && amount == c.amountAtRisk
    requires Transition(Settled(c, amount, paymentId, at), c.version, PaymentVerified, ctx) == Success(d)
    ensures Static(d, policy) && d.status == Recovered
    ensures d == Settled(c, amount, paymentId, at).(status := d.status, version := d.version,
                                                    resolvedAt := d.resolvedAt, audits := d.audits)
  {
    var settled := Settled(c, amount, paymentId, at);
    TransitionLedger(settled, PaymentVerified, ctx, d);
    PaidOnlyByVerification(c.status, PaymentVerified);
    assert d.status == Recovered && !AddsRow(c.status, PaymentVerified);
    CancelKeepsTable(c.actions, |c.runs|, c.posts);
    RecoveredRowsStatic(c, policy, d);
  }

  lemma RecoveredRowsStatic(c: CaseState, policy: Policy.MerchantPolicyRow, d: CaseState)
    requires Static(c, policy) && c.status != Recovered && ReplayOk(d) && d.status == Recovered
    requires RowsAdded(EventsOf(d.audits)) == RowsAdded(EventsOf(c.audits))
    requires forall e :: e in EventsOf(d.audits) ==> Issued(e)
    requires TableOk(d.actions, |c.runs|, c.posts) && |d.actions| == |c.actions|
    requires d.outcome.Some? && d.outcome.value.amount == c.amountAtRisk
    requires d == c.(outcome := d.outcome, actions := d.actions, status := d.status, version := d.version,
                    resolvedAt := d.resolvedAt, audits := d.audits)
    ensures Static(d, policy)
  {
  }

  lemma RecoveredDynamic(c: CaseState, d: CaseState)
    requires Dynamic(c) && d.status == Recovered && d.actions == CancelPending(c.actions)
    requires d.executor == c.executor && d.analysis == c.analysis && d.posts == c.posts && d.currentRun == c.currentRun
    ensures Dynamic(d)
  {
    assert forall i :: 0 <= i < |c.actions| ==>
                         d.actions[i].run == c.actions[i].run && d.actions[i].action == c.actions[i].action;
  }

  lemma VerifiedKeeps(c: CaseState, policy: Policy.MerchantPolicyRow, amount: int, currency: string, paymentId: string,
                      at: int)
    requires Inv(c, policy)
    ensures ResolveSuccess(c, amount, currency, paymentId, at).Verified? ==>
              Inv(ResolveSuccess(c, amount, currency, paymentId, at).case_, policy)
  {
    var v := ResolveSuccess(c, amount, currency, paymentId, at);
    if v.Verified? && v.committed {
      var ctx := ContextAt(at).(reason := "PAYMENT_VERIFIED");
      RecoveredKeepsStatic(c, policy, amount, paymentId, at, ctx, v.case_);
      RecoveredDynamic(c, v.case_);
    } else if v.Verified? && v.disposition == Ignored(TerminalReconciliation) {
      NotedKeeps(c, policy);
    }
  }

  lemma NotedKeeps(c: CaseState, policy: Policy.MerchantPolicyRow)
    requires Inv(c, policy)
    ensures Inv(c.(audits := c.audits + [ReconciliationRequired(c.status)]), policy)
  {
    var d := c.(audits := c.audits + [ReconciliationRequired(c.status)]);
    ReplayAppend(c.audits, ReconciliationRequired(c.status));
    assert EventsOf(d.audits) == EventsOf(c.audits);
    NotedStatic(c, d, policy);
    NotedDynamic(c, d);
  }

  lemma NotedStatic(c: CaseState, d: CaseState, policy: Policy.MerchantPolicyRow)
    requires Static(c, policy) && d == c.(audits := d.audits)
    requires EventsOf(d.audits) == EventsOf(c.audits) && Replay(d.audits) == Replay(c.audits)
    ensures Static(d, policy)
  {
  }

  lemma NotedDynamic(c: CaseState, d: CaseState)
    requires Dynamic(c) && d == c.(audits := d.audits)
    ensures Dynamic(d)
  {
  }

  // ------------------------------------------------------------ every step

  lemma AnalysisStepKeeps(c: CaseState, policy: Policy.MerchantPolicyRow, step: CaseStep)
    requires Inv(c, policy)
    requires step.BeginAnalysisStep? || step.StoreRunStep? || step.CompleteAnalysisStep? || step.FailAnalysisStep?
             || step.AnalysisCrash?
    ensures Inv(Next(c, policy, step), policy)
  {
    match step
    case BeginAnalysisStep(reason, at) => BeginAnalysisKeeps(c, policy, reason, at);
    case StoreRunStep(inputs, at) => StoreRunKeeps(c, policy, inputs, at);
    case CompleteAnalysisStep(at) => CompleteAnalysisKeeps(c, policy, at);
    case FailAnalysisStep(at) => FailAnalysisKeeps(c, policy, at);
    case AnalysisCrash => AnalysisDies(c, policy);
  }

  lemma ExecutorStepKeeps(c: CaseState, policy: Policy.MerchantPolicyRow, step: CaseStep)
    requires Inv(c, policy)
    requires step.PostStep? || step.RecordResultStep? || step.RecordEscalationStep? || step.FinishSettlementStep?
             || step.ExecutorCrash?
    ensures Inv(Next(c, policy, step), policy)
  {
    match step
    case PostStep => SendPostKeeps(c, policy);
    case RecordResultStep(result) => RecordResultKeeps(c, policy, result);
    case RecordEscalationStep => RecordEscalationKeeps(c, policy);
    case FinishSettlementStep(at) => FinishKeeps(c, policy, at);
    case ExecutorCrash => ExecutorDies(c, policy);
  }

  lemma CallStepKeeps(c: CaseState, policy: Policy.MerchantPolicyRow, step: CaseStep)
    requires Inv(c, policy)
    requires step.CreateActionStep? || step.ApproveStep? || step.RejectStep? || step.VerifiedPaymentStep?
    ensures Inv(Next(c, policy, step), policy)
  {
    match step
    case CreateActionStep(run, action, lookup, crash, at) =>
      CreateActionKeeps(c, policy, run, action, lookup, crash, at);
    case ApproveStep(index, expectedVersion, at) => ApproveKeeps(c, policy, index, expectedVersion, at);
    case RejectStep(index, note, reanalyze, at) => RejectKeeps(c, policy, index, note, reanalyze, at);
    case VerifiedPaymentStep(amount, currency, paymentId, at) =>
      VerifiedKeeps(c, policy, amount, currency, paymentId, at);
  }

  /** Whatever a service, the provider, a webhook or a crash does next, the invariant survives. */
  lemma NextKeepsInv(c: CaseState, policy: Policy.MerchantPolicyRow, step: CaseStep)
    requires Inv(c, policy)
    ensures Inv(Next(c, policy, step), policy)
  {
    if step.CreateActionStep? || step.ApproveStep? || step.RejectStep? || step.VerifiedPaymentStep? {
      CallStepKeeps(c, policy, step);
    } else if step.PostStep? || step.RecordResultStep? || step.RecordEscalationStep? || step.FinishSettlementStep?
              || step.ExecutorCrash? {
      ExecutorStepKeeps(c, policy, step);
    } else {
      AnalysisStepKeeps(c, policy, step);
    }
  }
}
