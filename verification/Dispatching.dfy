/** Which branch a new action takes, told by the case's own amount and the stored confidence. */
module Dispatching {
  import opened Domain
  import opened Registry
  import opened Selection
  import opened Cases
  import opened Protocol
  import opened CaseInvariants
  import opened ActionInvariants
  import opened CaseRuns
  import opened CaseProgress
  import Analysis
  import Policy

  /** The merchant wants a person to look at it first. */
  predicate HeldForApproval(amount: nat, confidence: real, action: ActionType, policy: Policy.MerchantPolicyRow) {
    amount > policy.autoActionLimit || confidence < policy.minimumAutoConfidence || action == EscalateToHuman
  }

  function NewRow(c: CaseState, action: ActionType, status: ActionStatus, run: nat, held: bool): ActionRow {
    ActionRow(action, status, |c.actions| + 1, run, held, false)
  }

  function Entry(c: CaseState, event: Event, target: CaseStatus): AuditEntry {
    Transitioned(event, c.status, target, c.version, c.version + 1)
  }

  /** Stopped at once and without a row. */
  ghost predicate StoppedBy(c: CaseState, d: CaseState, at: int) {
    d == c.(status := Stopped, version := c.version + 1, resolvedAt := Some(at),
            audits := c.audits + [Entry(c, StopSelected, Stopped)])
  }

  ghost predicate AddedRow(c: CaseState, d: CaseState, row: ActionRow, event: Event, target: CaseStatus,
                           executor: Executor)
  {
    d == c.(status := target, version := c.version + 1, actions := c.actions + [row], executor := executor,
            audits := c.audits + [Entry(c, event, target)])
  }

  /**
   * What creating the offered action does to a RECOMMENDED case. An action that
   * touches the customer starts unattended exactly when the case's amount is
   * within the merchant's limit, the stored confidence reaches the threshold
   * and it is not an escalation.
   */
  lemma CreationBranches(c: CaseState, policy: Policy.MerchantPolicyRow, run: nat, action: ActionType,
                         lookup: LinkLookup, crash: bool, at: int)
    requires Inv(c, policy) && c.status == Recommended
    requires CreateAction(c, policy, run, action, lookup, crash, at).Success?
    ensures run < |c.runs| && SelectCandidateRow(c.runs[run]).Some?
    ensures var d := CreateAction(c, policy, run, action, lookup, crash, at).value;
            var confidence := SelectCandidateRow(c.runs[run]).value.confidence;
            match action
            case Stop => StoppedBy(c, d, at)
            case Wait => AddedRow(c, d, NewRow(c, Wait, ActionScheduled, run, false), ScheduleAction, Scheduled,
                                  NoExecutor)
            case _ =>
              if HeldForApproval(c.amountAtRisk, confidence, action, policy)
              then AddedRow(c, d, NewRow(c, action, PendingApproval, run, true), ApprovalRequired, AwaitingApproval,
                            NoExecutor)
              else AddedRow(c, d, NewRow(c, action, ActionExecuting, run, false), AutoExecute, Executing,
                            ReadyToPost(|c.actions|))
  {
    assert GoodRun(c.runs[run]);
    assert RowForKey(c.actions, run, action).None?;
    NextAttemptIsCount(c.actions);
    DispatchBranches(c, policy, run, SelectCandidateRow(c.runs[run]).value, at);
  }

  lemma DispatchBranches(c: CaseState, policy: Policy.MerchantPolicyRow, run: nat, row: Row, at: int)
    requires c.status == Recommended && c.executor == NoExecutor && c.resolvedAt.None?
    requires NextAttempt(c.actions) == |c.actions| + 1
    requires Dispatch(c, policy, run, row, at).Success?
    ensures var d := Dispatch(c, policy, run, row, at).value;
            match row.action
            case Stop => StoppedBy(c, d, at)
            case Wait => AddedRow(c, d, NewRow(c, Wait, ActionScheduled, run, false), ScheduleAction, Scheduled,
                                  NoExecutor)
            case _ =>
              if HeldForApproval(c.amountAtRisk, row.confidence, row.action, policy)
              then AddedRow(c, d, NewRow(c, row.action, PendingApproval, run, true), ApprovalRequired,
                            AwaitingApproval, NoExecutor)
              else AddedRow(c, d, NewRow(c, row.action, ActionExecuting, run, false), AutoExecute, Executing,
                            ReadyToPost(|c.actions|))
  {
    match row.action
    case Stop => StopBranch(c, at);
    case Wait => WaitBranch(c, run, at);
    case _ =>
      Analysis.ApprovalGrounds(Question(c, row), policy);
      StageBranch(c, run, row.action, at);
      LinkBranch(c, run, row.action, at);
  }

  lemma StopBranch(c: CaseState, at: int)
    requires c.status == Recommended
    ensures ExecuteStop(c, at).Success? ==> StoppedBy(c, ExecuteStop(c, at).value, at)
  {
  }

  lemma WaitBranch(c: CaseState, run: nat, at: int)
    requires c.status == Recommended && c.executor == NoExecutor && NextAttempt(c.actions) == |c.actions| + 1
    ensures ExecuteWait(c, run, at).Success? ==>
              AddedRow(c, ExecuteWait(c, run, at).value, NewRow(c, Wait, ActionScheduled, run, false), ScheduleAction,
                       Scheduled, NoExecutor)
  {
  }

  lemma StageBranch(c: CaseState, run: nat, action: ActionType, at: int)
    requires c.status == Recommended && c.executor == NoExecutor && NextAttempt(c.actions) == |c.actions| + 1
    ensures StageApproval(c, run, action, at).Success? ==>
              AddedRow(c, StageApproval(c, run, action, at).value, NewRow(c, action, PendingApproval, run, true),
                       ApprovalRequired, AwaitingApproval, NoExecutor)
  {
  }

  lemma LinkBranch(c: CaseState, run: nat, action: ActionType, at: int)
    requires c.status == Recommended && NextAttempt(c.actions) == |c.actions| + 1
    ensures BeginLink(c, run, action, at).Success? ==>
              AddedRow(c, BeginLink(c, run, action, at).value, NewRow(c, action, ActionExecuting, run, false),
                       AutoExecute, Executing, ReadyToPost(|c.actions|))
  {
  }

  // ------------------------------------------------------------ rows over runs

  /** Rows keep the requirement they were created with, and an attempted row stays attempted. */
  ghost predicate RowsMove(c: CaseState, d: CaseState) {
    && |c.actions| <= |d.actions|
    && forall i :: 0 <= i < |c.actions| ==>
         && d.actions[i].requiresApproval == c.actions[i].requiresApproval
         && (Attempted(c.actions[i].status) ==> Attempted(d.actions[i].status))
         && (d.actions[i].status == PendingApproval ==> c.actions[i].status == PendingApproval)
         && (Attempted(d.actions[i].status) && !Attempted(c.actions[i].status) ==>
               c.actions[i].status == PendingApproval && c.status == AwaitingApproval && d.status == Executing)
  }

  lemma ApprovalMovesRows(c: CaseState, index: nat, version: nat, at: int)
    ensures var d := Keep(c, Approve(c, index, version, at)); RowsMove(c, d) && |d.actions| == |c.actions|
  {
    if index < |c.actions| && c.actions[index].status == PendingApproval && c.status == AwaitingApproval {
      StartMovesRows(c, index, at);
    }
  }

  lemma StartMovesRows(c: CaseState, index: nat, at: int)
    requires index < |c.actions| && c.actions[index].status == PendingApproval && c.status == AwaitingApproval
    ensures var d := Keep(c, StartApproved(c, index, at)); RowsMove(c, d) && |d.actions| == |c.actions|
  {
  }

  lemma RejectionMovesRows(c: CaseState, index: nat, note: string, reanalyze: bool, at: int)
    ensures var d := Keep(c, Reject(c, index, note, reanalyze, at)); RowsMove(c, d) && |d.actions| == |c.actions|
  {
  }

  lemma RecordingMovesRows(c: CaseState, policy: Policy.MerchantPolicyRow, result: ProviderResult)
    requires ExecutorOk(c)
    ensures var d := RecordResult(c, policy, result); RowsMove(c, d) && |d.actions| == |c.actions|
    ensures var d := RecordEscalation(c); RowsMove(c, d) && |d.actions| == |c.actions|
  {
  }

  lemma FinishKeepsRows(c: CaseState, at: int)
    ensures FinishSettlement(c, at).actions == c.actions
  {
  }

  lemma FailureKeepsRows(c: CaseState, at: int)
    ensures FailAnalysis(c, at).actions == c.actions
  {
  }

  lemma AnalysisKeepsRows(c: CaseState, policy: Policy.MerchantPolicyRow, step: CaseStep)
    requires step.BeginAnalysisStep? || step.StoreRunStep? || step.CompleteAnalysisStep? || step.FailAnalysisStep?
             || step.AnalysisCrash?
    ensures Next(c, policy, step).actions == c.actions
  {
    match step
    case StoreRunStep(inputs, at) => FailureKeepsRows(c, at);
    case FailAnalysisStep(at) => FailureKeepsRows(c, at);
    case _ =>
  }

  lemma PaymentMovesRows(c: CaseState, policy: Policy.MerchantPolicyRow, step: CaseStep)
    requires step.VerifiedPaymentStep?
    ensures var d := Next(c, policy, step); RowsMove(c, d) && |d.actions| == |c.actions|
  {
  }

  lemma ReadMovesRows(c: CaseState, index: nat, lookup: LinkLookup, crash: bool, at: int)
    requires index < |c.actions|
    ensures var d := Reconcile(c, index, lookup, crash, at); RowsMove(c, d) && |d.actions| == |c.actions|
  {
  }

  lemma DispatchMovesRows(c: CaseState, policy: Policy.MerchantPolicyRow, run: nat, row: Row, at: int)
    ensures RowsMove(c, Keep(c, Dispatch(c, policy, run, row, at)))
  {
  }

  lemma CreationMovesRows(c: CaseState, policy: Policy.MerchantPolicyRow, run: nat, action: ActionType,
                          lookup: LinkLookup, crash: bool, at: int)
    ensures var d := Keep(c, CreateAction(c, policy, run, action, lookup, crash, at));
            RowsMove(c, d) && (c.status != Recommended ==> |d.actions| == |c.actions|)
  {
    var existing := RowForKey(c.actions, run, action);
    var selected := SelectCandidateRow(RunRows(c, run));
    if existing.Some? {
      ReadMovesRows(c, existing.value, lookup, crash, at);
    } else if selected.Some? {
      DispatchMovesRows(c, policy, run, selected.value, at);
    }
  }

  lemma StepMovesRows(c: CaseState, policy: Policy.MerchantPolicyRow, step: CaseStep)
    requires ExecutorOk(c)
    ensures RowsMove(c, Next(c, policy, step))
    ensures |Next(c, policy, step).actions| != |c.actions| ==> step.CreateActionStep? && c.status == Recommended
  {
    match step
    case CreateActionStep(run, action, lookup, crash, at) =>
      CreationMovesRows(c, policy, run, action, lookup, crash, at);
    case ApproveStep(index, version, at) => ApprovalMovesRows(c, index, version, at);
    case RejectStep(index, note, reanalyze, at) => RejectionMovesRows(c, index, note, reanalyze, at);
    case VerifiedPaymentStep(_, _, _, _) => PaymentMovesRows(c, policy, step);
    case FinishSettlementStep(at) => FinishKeepsRows(c, at);
    case RecordResultStep(result) => RecordingMovesRows(c, policy, result);
    case RecordEscalationStep => RecordingMovesRows(c, policy, TimedOut);
    case PostStep =>
    case ExecutorCrash =>
    case _ => AnalysisKeepsRows(c, policy, step);
  }

  // ------------------------------------------------------------ what runs unattended

  function StoredConfidence(c: CaseState, run: nat): Option<real> {
    var selected := SelectCandidateRow(RunRows(c, run));
    if selected.None? then None else Some(selected.value.confidence)
  }

  predicate RowHeldOk(c: CaseState, i: nat, policy: Policy.MerchantPolicyRow)
    requires i < |c.actions|
  {
    var row := c.actions[i];
    && StoredConfidence(c, row.run).Some?
    && (row.requiresApproval <==>
          row.action != Wait
          && HeldForApproval(c.amountAtRisk, StoredConfidence(c, row.run).value, row.action, policy))
  }

  /** Every row was staged for approval when the merchant wants that, and only then; WAIT never is. */
  ghost predicate HeldOk(c: CaseState, policy: Policy.MerchantPolicyRow) {
    forall i :: 0 <= i < |c.actions| ==> RowHeldOk(c, i, policy)
  }

  lemma NewRowHeldOk(c: CaseState, policy: Policy.MerchantPolicyRow, run: nat, action: ActionType,
                     lookup: LinkLookup, crash: bool, at: int)
    requires Inv(c, policy) && c.status == Recommended
    ensures var d := Keep(c, CreateAction(c, policy, run, action, lookup, crash, at));
            |d.actions| == |c.actions| || (|d.actions| == |c.actions| + 1 && RowHeldOk(d, |c.actions|, policy))
  {
    if CreateAction(c, policy, run, action, lookup, crash, at).Success? {
      CreationBranches(c, policy, run, action, lookup, crash, at);
    }
  }

  lemma OldRowsHeldOk(c: CaseState, d: CaseState, policy: Policy.MerchantPolicyRow)
    requires RunOrderOk(c.actions, |c.runs|) && HeldOk(c, policy) && Extends(c, d) && RowsMove(c, d)
    ensures forall i :: 0 <= i < |c.actions| ==> RowHeldOk(d, i, policy)
  {
    forall i | 0 <= i < |c.actions|
      ensures RowHeldOk(d, i, policy)
    {
      assert RowHeldOk(c, i, policy);
      assert d.runs[c.actions[i].run] == c.runs[c.actions[i].run];
    }
  }

  lemma HeldKept(c: CaseState, policy: Policy.MerchantPolicyRow, step: CaseStep)
    requires Inv(c, policy) && HeldOk(c, policy)
    ensures HeldOk(Next(c, policy, step), policy)
  {
    StepMovesRows(c, policy, step);
    NextExtends(c, policy, step);
    OldRowsHeldOk(c, Next(c, policy, step), policy);
    if |Next(c, policy, step).actions| != |c.actions| {
      NewRowHeldOk(c, policy, step.run, step.action, step.lookup, step.crash, step.at);
      HeldWithNewRow(Next(c, policy, step), |c.actions|, policy);
    }
  }

  lemma HeldWithNewRow(d: CaseState, n: nat, policy: Policy.MerchantPolicyRow)
    requires |d.actions| == n + 1 && RowHeldOk(d, n, policy)
    requires forall i :: 0 <= i < n ==> RowHeldOk(d, i, policy)
    ensures HeldOk(d, policy)
  {
  }

  lemma {:induction false} ReachedHeldOk(o: CaseRuns.Opening, policy: Policy.MerchantPolicyRow, steps: seq<CaseStep>)
    requires o.amount > 0
    ensures HeldOk(Reached(o, policy, steps), policy)
  {
    if steps != [] {
      var front := steps[..|steps| - 1];
      ReachedHeldOk(o, policy, front);
      ReachedInv(o, policy, front);
      HeldKept(Reached(o, policy, front), policy, steps[|steps| - 1]);
    }
  }

  /**
   * In every reachable case a row that was POSTed without having been staged
   * for approval is within the merchant's limit and at or above the threshold.
   */
  lemma UnattendedPostsAreWithinLimits(o: CaseRuns.Opening, policy: Policy.MerchantPolicyRow, steps: seq<CaseStep>,
                                       index: nat)
    requires o.amount > 0
    requires var c := Reached(o, policy, steps);
             index in c.posts && index < |c.actions| && !c.actions[index].requiresApproval
    ensures var c := Reached(o, policy, steps);
            && o.amount <= policy.autoActionLimit
            && StoredConfidence(c, c.actions[index].run).Some?
            && StoredConfidence(c, c.actions[index].run).value >= policy.minimumAutoConfidence
  {
    ReachedInv(o, policy, steps);
    ReachedHeldOk(o, policy, steps);
    var c := Reached(o, policy, steps);
    ReachedAmount(o, policy, steps);
    assert RowShape(c.actions[index]) && RowHeldOk(c, index, policy);
  }

  lemma {:induction false} ReachedAmount(o: CaseRuns.Opening, policy: Policy.MerchantPolicyRow, steps: seq<CaseStep>)
    ensures Reached(o, policy, steps).amountAtRisk == o.amount
  {
    if steps != [] {
      ReachedAmount(o, policy, steps[..|steps| - 1]);
      NextExtends(Reached(o, policy, steps[..|steps| - 1]), policy, steps[|steps| - 1]);
    }
  }
}
