/** When a call goes through: creating, approving, and what an unresolved link blocks for good. */
module CaseProgress {
  import opened Domain
  import opened Registry
  import opened Selection
  import opened Cases
  import opened Protocol
  import opened CaseInvariants
  import opened CaseRuns
  import Policy
  import Text

  // ------------------------------------------------------------ creating

  /** Every RECOMMENDED case carries a non-empty selection on its current run. */
  lemma RecommendedHasSelection(o: Opening, policy: Policy.MerchantPolicyRow, steps: seq<CaseStep>)
    requires o.amount > 0 && Reached(o, policy, steps).status == Recommended
    ensures var c := Reached(o, policy, steps);
            && c.currentRun.Some? && c.currentRun.value < |c.runs|
            && var selected := SelectCandidateRow(c.runs[c.currentRun.value]);
               selected.Some? && selected.value.eligible && IsExecutable(selected.value.action)
  {
    ReachedInv(o, policy, steps);
  }

  /** Exactly when the executor accepts an action on a RECOMMENDED case. */
  lemma CreationSucceedsExactly(c: CaseState, policy: Policy.MerchantPolicyRow, run: nat, action: ActionType,
                                lookup: LinkLookup, crash: bool, at: int)
    requires Inv(c, policy) && c.status == Recommended
    ensures CreateAction(c, policy, run, action, lookup, crash, at).Success?
       <==> && c.currentRun == Some(run)
            && SelectCandidateRow(c.runs[run]).value.action == action
            && (|| action == Stop
                || (&& action in policy.allowed && policy.automationEnabled && |c.actions| < policy.maxRecoveryAttempts
                    && (UsesPaymentLink(action) ==>
                          c.currency != "" && forall i :: 0 <= i < |c.actions| ==> !UnknownLink(c, i))))
  {
    if c.currentRun == Some(run) {
      var row := SelectCandidateRow(c.runs[run]).value;
      assert GoodRun(c.runs[run]);
      if row.action == action {
        assert RowForKey(c.actions, run, action).None?;
        DispatchSucceedsExactly(c, policy, run, row, at);
      }
    }
  }

  lemma DispatchSucceedsExactly(c: CaseState, policy: Policy.MerchantPolicyRow, run: nat, row: Row, at: int)
    requires Inv(c, policy) && c.status == Recommended && IsExecutable(row.action)
    ensures Dispatch(c, policy, run, row, at).Success?
       <==> || row.action == Stop
            || (&& row.action in policy.allowed && policy.automationEnabled && |c.actions| < policy.maxRecoveryAttempts
                && (UsesPaymentLink(row.action) ==>
                      c.currency != "" && forall i :: 0 <= i < |c.actions| ==> !UnknownLink(c, i)))
  {
    BlockingLinkIsUnique(c.actions);
    RecommendedBlocksOnUnknown(c);
    Policy.ExecutionEligibleExactly(row.action, c.amountAtRisk, c.currency, |c.actions|, row.confidence,
                                    BlockingLink(c.actions) != NoRow, policy);
    BranchesSucceed(c, run, row.action, at);
  }

  lemma RecommendedBlocksOnUnknown(c: CaseState)
    requires Dynamic(c) && c.status == Recommended
    ensures BlockingLink(c.actions) == NoRow <==> forall i :: 0 <= i < |c.actions| ==> !UnknownLink(c, i)
  {
    BlockingLinkSpec(c.actions);
    ClosedBefore(c);
    assert forall i :: 0 <= i < |c.actions| ==> (UnknownLink(c, i) <==> BlocksLinks(c.actions[i]));
  }

  /** On a RECOMMENDED case none of the four branches can fail. */
  lemma BranchesSucceed(c: CaseState, run: nat, action: ActionType, at: int)
    requires c.status == Recommended
    ensures ExecuteStop(c, at).Success? && ExecuteWait(c, run, at).Success?
    ensures StageApproval(c, run, action, at).Success? && BeginLink(c, run, action, at).Success?
  {
    StopSucceeds(c, at);
    LinkSucceeds(c, run, action, at);
  }

  lemma StopSucceeds(c: CaseState, at: int)
    requires c.status == Recommended
    ensures ExecuteStop(c, at).Success?
  {
    assert Text.Strip("Operator selected STOP.") != "";
  }

  lemma LinkSucceeds(c: CaseState, run: nat, action: ActionType, at: int)
    requires c.status == Recommended
    ensures BeginLink(c, run, action, at).Success?
  {
  }

  // ------------------------------------------------------------ approving

  ghost predicate UnknownLink(c: CaseState, i: int) {
    0 <= i < |c.actions| && UsesPaymentLink(c.actions[i].action) && c.actions[i].status == Unknown
  }

  /** Approving succeeds exactly for the pending row, at the current version, while no link row is UNKNOWN. */
  lemma ApprovalSucceedsExactly(c: CaseState, policy: Policy.MerchantPolicyRow, index: nat, version: nat, at: int)
    requires Inv(c, policy)
    ensures Approve(c, index, version, at).Success?
       <==> && index < |c.actions| && c.actions[index].status == PendingApproval && version == c.version
            && forall i :: 0 <= i < |c.actions| ==> !UnknownLink(c, i)
  {
    BlockingLinkSpec(c.actions);
    if index < |c.actions| && c.actions[index].status == PendingApproval {
      OthersBlockOnlyIfUnknown(c, index);
    }
  }

  lemma OthersBlockOnlyIfUnknown(c: CaseState, index: nat)
    requires OpenRowsOk(c) && LinksOk(c.actions) && index < |c.actions| && c.actions[index].status == PendingApproval
    ensures forall i :: 0 <= i < |c.actions| && i != index ==> (BlocksLinks(c.actions[i]) <==> UnknownLink(c, i))
    ensures !UnknownLink(c, index)
    ensures UsesPaymentLink(c.actions[index].action) ==> forall i :: 0 <= i < |c.actions| ==> !UnknownLink(c, i)
  {
    assert BlocksLinks(c.actions[index]) <==> UsesPaymentLink(c.actions[index].action);
    assert forall i :: 0 <= i < |c.actions| && UnknownLink(c, i) ==> BlocksLinks(c.actions[i]);
  }

  // ------------------------------------------------------------ an orphaned execution

  /** The process carrying out the last row died before recording a result. */
  ghost predicate Orphaned(c: CaseState) {
    c.status == Executing && c.executor == NoExecutor && |c.actions| > 0
    && c.actions[|c.actions| - 1].status == ActionExecuting
  }

  /**
   * Exactly what gets a case out of an orphaned execution: asking for the same
   * link again when the provider's read finds it, or a matching payment. An
   * orphaned escalation, or a link the provider never saw, waits for a payment.
   */
  lemma OrphanMovesExactly(c: CaseState, policy: Policy.MerchantPolicyRow, step: CaseStep)
    requires Inv(c, policy) && Orphaned(c)
    ensures var last := c.actions[|c.actions| - 1];
            Next(c, policy, step).status != Executing
            <==> || (&& step.CreateActionStep? && step.run == last.run && step.action == last.action
                     && UsesPaymentLink(last.action) && step.lookup == LinkFound && !step.crash)
                 || (step.VerifiedPaymentStep? && MoneyMatches(c, step.amount, step.currency))
  {
    match step
    case CreateActionStep(run, action, lookup, crash, at) =>
      OrphanIsReconciled(c, policy, run, action, lookup, crash, at);
    case VerifiedPaymentStep(amount, currency, paymentId, at) => OrphanIsPaid(c, amount, currency, paymentId, at);
    case _ => OthersLeaveOrphan(c, policy, step);
  }

  lemma OthersLeaveOrphan(c: CaseState, policy: Policy.MerchantPolicyRow, step: CaseStep)
    requires OpenRowsOk(c) && AnalysisOk(c) && Orphaned(c)
    requires !step.CreateActionStep? && !step.VerifiedPaymentStep?
    ensures Next(c, policy, step).status == Executing
  {
  }

  lemma OrphanIsPaid(c: CaseState, amount: int, currency: string, paymentId: string, at: int)
    requires c.status == Executing && c.outcome.None? && c.amountAtRisk > 0
    ensures var v := ResolveSuccess(c, amount, currency, paymentId, at);
            v.Verified? && (v.case_.status != Executing <==> MoneyMatches(c, amount, currency))
  {
  }

  lemma OrphanIsReconciled(c: CaseState, policy: Policy.MerchantPolicyRow, run: nat, action: ActionType,
                           lookup: LinkLookup, crash: bool, at: int)
    requires Inv(c, policy) && Orphaned(c)
    ensures var last := c.actions[|c.actions| - 1];
            Keep(c, CreateAction(c, policy, run, action, lookup, crash, at)).status != Executing
            <==> run == last.run && action == last.action && UsesPaymentLink(last.action)
                 && lookup == LinkFound && !crash
  {
    var index := |c.actions| - 1;
    OrphanIsSelected(c, policy);
    if run == c.actions[index].run && action == c.actions[index].action {
      OrphanIsRead(c, index, lookup, crash, at);
      SelectedIsReconciled(c, policy, index, lookup, crash, at);
    } else {
      OtherRequestFails(c, policy, index, run, action, lookup, crash, at);
    }
  }

  lemma OrphanIsSelected(c: CaseState, policy: Policy.MerchantPolicyRow)
    requires Inv(c, policy) && Orphaned(c)
    ensures var index := |c.actions| - 1; var last := c.actions[index];
            && IsSelected(c, last) && GoodRun(RunRows(c, last.run))
            && RowForKey(c.actions, last.run, last.action) == Some(index)
  {
    var last := c.actions[|c.actions| - 1];
    assert RowShape(last);
  }

  /** While a row's action is the selected one, asking for anything else is refused. */
  lemma OtherRequestFails(c: CaseState, policy: Policy.MerchantPolicyRow, index: nat, run: nat, action: ActionType,
                          lookup: LinkLookup, crash: bool, at: int)
    requires index < |c.actions| && IsSelected(c, c.actions[index])
    requires run != c.actions[index].run || action != c.actions[index].action
    ensures CreateAction(c, policy, run, action, lookup, crash, at).Failure?
  {
  }

  /** Asking again for a row's action on the current run leads to that row and nothing else. */
  lemma SelectedIsReconciled(c: CaseState, policy: Policy.MerchantPolicyRow, index: nat, lookup: LinkLookup,
                             crash: bool, at: int)
    requires index < |c.actions| && IsSelected(c, c.actions[index]) && GoodRun(RunRows(c, c.actions[index].run))
    requires RowForKey(c.actions, c.actions[index].run, c.actions[index].action) == Some(index)
    ensures var row := c.actions[index];
            CreateAction(c, policy, row.run, row.action, lookup, crash, at)
            == Success(Reconcile(c, index, lookup, crash, at))
  {
  }

  lemma OrphanIsRead(c: CaseState, index: nat, lookup: LinkLookup, crash: bool, at: int)
    requires c.status == Executing && c.executor == NoExecutor
    requires index < |c.actions| && c.actions[index].status == ActionExecuting
    ensures Reconcile(c, index, lookup, crash, at).status != Executing
       <==> UsesPaymentLink(c.actions[index].action) && lookup == LinkFound && !crash
  {
  }

  // ------------------------------------------------------------ a stranded link

  /** An UNKNOWN link row whose run is no longer the current one. */
  ghost predicate Stranded(c: CaseState, i: nat) {
    UnknownLink(c, i) && c.currentRun.Some? && c.actions[i].run < c.currentRun.value
  }

  /**
   * Once re-analysis has moved on from an UNKNOWN link row, no step ever
   * settles it: no further POST leaves the process and no approval succeeds,
   * in any continuation.
   */
  lemma {:induction false} StrandedForever(c: CaseState, policy: Policy.MerchantPolicyRow, i: nat, steps: seq<CaseStep>)
    requires Inv(c, policy) && Stranded(c, i)
    ensures var d := Run(c, policy, steps);
            && Inv(d, policy) && Stranded(d, i) && d.posts == c.posts
            && forall index: nat, version: nat, at: int :: !Approve(d, index, version, at).Success?
  {
    RunKeepsInv(c, policy, steps);
    if steps != [] {
      var front := steps[..|steps| - 1];
      StrandedForever(c, policy, i, front);
      StrandedStep(Run(c, policy, front), policy, i, steps[|steps| - 1]);
    }
    var d := Run(c, policy, steps);
    forall index: nat, version: nat, at: int
      ensures !Approve(d, index, version, at).Success?
    {
      ApprovalSucceedsExactly(d, policy, index, version, at);
    }
  }

  ghost predicate Untouched(c: CaseState, d: CaseState, i: nat) {
    && i < |c.actions| && i < |d.actions| && d.actions[i] == c.actions[i] && d.posts == c.posts
    && (d.currentRun == c.currentRun || d.currentRun == Some(|c.runs|))
  }

  lemma MoveUntouched(c: CaseState, b: CaseState, i: nat, version: nat, event: Event, ctx: TransitionContext)
    requires Untouched(c, b, i)
    ensures Transition(b, version, event, ctx).Success? ==> Untouched(c, Transition(b, version, event, ctx).value, i)
  {
  }

  lemma AnalysisUntouched(c: CaseState, policy: Policy.MerchantPolicyRow, i: nat, step: CaseStep)
    requires i < |c.actions|
    requires step.BeginAnalysisStep? || step.StoreRunStep? || step.CompleteAnalysisStep? || step.FailAnalysisStep?
             || step.AnalysisCrash?
    ensures Untouched(c, Next(c, policy, step), i)
  {
    match step
    case BeginAnalysisStep(reason, at) =>
      if EntryEvent(c.status, reason).Some? {
        var event := EntryEvent(c.status, reason).value;
        MoveUntouched(c, c, i, c.version, event, EntryContext(event, at));
      }
    case StoreRunStep(inputs, at) => FailureUntouched(c, i, at);
    case CompleteAnalysisStep(at) =>
      if c.analysis.RunStored? {
        MoveUntouched(c, c.(analysis := NoAnalysis), i, c.version, AnalysisCompleted,
                      ContextAt(at).(analysisRun := Some(c.analysis.run), reason := "ANALYSIS"));
      }
    case FailAnalysisStep(at) => FailureUntouched(c, i, at);
    case AnalysisCrash =>
  }

  lemma FailureUntouched(c: CaseState, i: nat, at: int)
    requires i < |c.actions|
    ensures Untouched(c, FailAnalysis(c, at), i)
  {
    MoveUntouched(c, c.(analysis := NoAnalysis), i, c.version, AnalysisTerminalFailure,
                  ContextAt(at).(reason := "ANALYSIS_FAILED"));
  }

  lemma CreationUntouched(c: CaseState, policy: Policy.MerchantPolicyRow, i: nat, run: nat, action: ActionType,
                          lookup: LinkLookup, crash: bool, at: int)
    requires i < |c.actions| && c.currentRun.Some? && c.actions[i].run < c.currentRun.value
    ensures Untouched(c, Keep(c, CreateAction(c, policy, run, action, lookup, crash, at)), i)
  {
    var selected := SelectCandidateRow(RunRows(c, run));
    if c.currentRun == Some(run) && selected.Some? {
      var existing := RowForKey(c.actions, run, action);
      if existing.Some? {
        ReconcileUntouched(c, i, existing.value, lookup, crash, at);
      } else {
        DispatchUntouched(c, policy, i, run, selected.value, at);
      }
    }
  }

  lemma ReconcileUntouched(c: CaseState, i: nat, index: nat, lookup: LinkLookup, crash: bool, at: int)
    requires i < |c.actions| && index < |c.actions| && i != index
    ensures Untouched(c, Reconcile(c, index, lookup, crash, at), i)
  {
    MoveUntouched(c, WithLink(c, index), i, c.version, ActionAcceptedOrUnknown, ContextAt(at).(action := Some(index)));
  }

  lemma DispatchUntouched(c: CaseState, policy: Policy.MerchantPolicyRow, i: nat, run: nat, row: Row, at: int)
    requires i < |c.actions|
    ensures Untouched(c, Keep(c, Dispatch(c, policy, run, row, at)), i)
  {
    MoveUntouched(c, c, i, c.version, StopSelected, ContextAt(at).(reason := "Operator selected STOP."));
    MoveUntouched(c, WithRow(c, Wait, ActionScheduled, run, false), i, c.version, ScheduleAction,
                  ContextAt(at).(action := Some(|c.actions|), analysisRun := Some(run), scheduledFor := Some(at)));
    MoveUntouched(c, WithRow(c, row.action, PendingApproval, run, true), i, c.version, ApprovalRequired,
                  ContextAt(at).(action := Some(|c.actions|), analysisRun := Some(run)));
    MoveUntouched(c, WithRow(c, row.action, ActionExecuting, run, false), i, c.version, AutoExecute,
                  ContextAt(at).(action := Some(|c.actions|)));
  }

  lemma ApprovalUntouched(c: CaseState, policy: Policy.MerchantPolicyRow, i: nat, step: CaseStep)
    requires i < |c.actions| && c.actions[i].status == Unknown
    requires step.ApproveStep? || step.RejectStep?
    ensures Untouched(c, Next(c, policy, step), i)
  {
    match step
    case ApproveStep(index, expectedVersion, at) =>
      if index < |c.actions| && c.actions[index].status == PendingApproval {
        StartUntouched(c, i, index, at);
      }
    case RejectStep(index, note, reanalyze, at) =>
      if index < |c.actions| && c.actions[index].status == PendingApproval {
        RejectionUntouched(c, i, index, note, reanalyze, at);
      }
  }

  lemma StartUntouched(c: CaseState, i: nat, index: nat, at: int)
    requires i < |c.actions| && index < |c.actions| && i != index
    ensures Untouched(c, Keep(c, StartApproved(c, index, at)), i)
  {
  }

  lemma RejectionUntouched(c: CaseState, i: nat, index: nat, note: string, reanalyze: bool, at: int)
    requires i < |c.actions| && index < |c.actions| && i != index
    ensures Untouched(c, Keep(c, Reject(c, index, note, reanalyze, at)), i)
  {
  }

  lemma SettlementUntouched(c: CaseState, policy: Policy.MerchantPolicyRow, i: nat, step: CaseStep)
    requires i < |c.actions| && c.actions[i].status == Unknown && ExecutorOk(c) && !c.executor.ReadyToPost?
    requires step.PostStep? || step.RecordResultStep? || step.RecordEscalationStep? || step.FinishSettlementStep?
             || step.ExecutorCrash?
    ensures Untouched(c, Next(c, policy, step), i)
  {
    if step.FinishSettlementStep? && c.executor.ResultRecorded? {
      MoveUntouched(c, c.(executor := NoExecutor), i, c.version, c.executor.next,
                    ContextAt(step.at).(action := Some(c.executor.index), reason := "Payment link creation settled."));
    } else if step.RecordResultStep? && CanRecord(c.executor, step.result) {
      assert c.executor.index != i;
    }
  }

  lemma PaymentUntouched(c: CaseState, policy: Policy.MerchantPolicyRow, i: nat, step: CaseStep)
    requires i < |c.actions| && c.actions[i].status == Unknown && step.VerifiedPaymentStep?
    ensures Untouched(c, Next(c, policy, step), i)
  {
  }

  lemma StrandedStep(c: CaseState, policy: Policy.MerchantPolicyRow, i: nat, step: CaseStep)
    requires Inv(c, policy) && Stranded(c, i)
    ensures Stranded(Next(c, policy, step), i) && Next(c, policy, step).posts == c.posts
  {
    assert BlocksLinks(c.actions[i]);
    assert !c.executor.ReadyToPost?;
    match step
    case CreateActionStep(run, action, lookup, crash, at) =>
      CreationUntouched(c, policy, i, run, action, lookup, crash, at);
    case ApproveStep(_, _, _) => ApprovalUntouched(c, policy, i, step);
    case RejectStep(_, _, _, _) => ApprovalUntouched(c, policy, i, step);
    case VerifiedPaymentStep(_, _, _, _) => PaymentUntouched(c, policy, i, step);
    case PostStep => SettlementUntouched(c, policy, i, step);
    case RecordResultStep(_) => SettlementUntouched(c, policy, i, step);
    case RecordEscalationStep => SettlementUntouched(c, policy, i, step);
    case FinishSettlementStep(_) => SettlementUntouched(c, policy, i, step);
    case ExecutorCrash => SettlementUntouched(c, policy, i, step);
    case _ => AnalysisUntouched(c, policy, i, step);
  }
}
