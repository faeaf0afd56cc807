/**
 * The action executor, call by call. Each method works on the session in the
 * order the service does and is proved to commit what the protocol's step
 * functions say; a call that fails commits nothing after its last success.
 */
module ActionService {
  import opened Domain
  import opened Registry
  import opened Selection
  import opened Cases
  import opened Protocol
  import opened Persistence
  import opened StateMachine
  import Policy
  import Text

  // ------------------------------------------------------------ whole calls in terms of steps

  /** A provider call carried through to its settlement. */
  function Invoked(c: CaseState, policy: Policy.MerchantPolicyRow, result: ProviderResult, at: int): CaseState {
    FinishSettlement(RecordResult(if result == ProviderNotConfigured then c else SendPost(c), policy, result), at)
  }

  function Escalated(c: CaseState, at: int): CaseState {
    FinishSettlement(RecordEscalation(c), at)
  }

  /** Creating an action, with the provider call when the action executes at once. */
  function Created(c: CaseState, policy: Policy.MerchantPolicyRow, run: nat, action: ActionType, lookup: LinkLookup,
                   result: ProviderResult, at: int): Result<CaseState, ServiceError>
  {
    match CreateAction(c, policy, run, action, lookup, false, at)
    case Failure(e) => Failure(e)
    case Success(d) =>
      Success(if c.status == Recommended && d.status == Executing then Invoked(d, policy, result, at) else d)
  }

  function Dispatched(c: CaseState, policy: Policy.MerchantPolicyRow, run: nat, row: Row, result: ProviderResult,
                      at: int)
    : Result<CaseState, ServiceError>
  {
    match Dispatch(c, policy, run, row, at)
    case Failure(e) => Failure(e)
    case Success(d) => Success(if d.status == Executing then Invoked(d, policy, result, at) else d)
  }

  /** Which of the four branches a fresh action takes. */
  function Branch(c: CaseState, run: nat, action: ActionType, requiresApproval: bool, at: int)
    : Result<CaseState, WorkflowError>
  {
    if action == Stop then Protocol.ExecuteStop(c, at)
    else if action == Wait then Protocol.ExecuteWait(c, run, at)
    else if requiresApproval then StageApproval(c, run, action, at)
    else BeginLink(c, run, action, at)
  }

  /** A branch with the provider call that follows when it leaves the case EXECUTING. */
  function Carried(r: Result<CaseState, WorkflowError>, policy: Policy.MerchantPolicyRow, result: ProviderResult,
                   at: int): Result<CaseState, WorkflowError>
  {
    match r
    case Failure(e) => Failure(e)
    case Success(d) => Success(if d.status == Executing then Invoked(d, policy, result, at) else d)
  }

  /** Past its guards, dispatch is the branch its policy decision picks. */
  lemma DispatchTakesBranch(c: CaseState, policy: Policy.MerchantPolicyRow, run: nat, row: Row,
                            result: ProviderResult, at: int)
    requires BlockingLink(c.actions) != ManyRows
    requires Policy.Eligible(Question(c, row), Policy.FromMerchantRow(policy))
    requires BlockingLink(c.actions) == NoRow || !UsesPaymentLink(row.action)
    ensures var approval := Policy.NeedsApproval(Question(c, row), Policy.FromMerchantRow(policy));
            Dispatched(c, policy, run, row, result, at)
            == Lift(Carried(Branch(c, run, row.action, approval, at), policy, result, at))
  {
  }

  /** Marking the executor before the move or after it makes no difference to what is committed. */
  lemma StartedBeforeMoving(c: CaseState, run: nat, action: ActionType, at: int)
    ensures var row := ActionRow(action, ActionExecuting, NextAttempt(c.actions), run, false, false);
            var started := c.(actions := c.actions + [row], executor := ReadyToPost(|c.actions|));
            var begun := BeginLink(c, run, action, at);
            && Transition(started, c.version, AutoExecute, ContextAt(at).(action := Some(|c.actions|))) == begun
            && (begun.Success? ==> begun.value.executor == ReadyToPost(|c.actions|)
                                   && |begun.value.actions| == |c.actions| + 1)
  {
  }

  lemma CreatedCases(c: CaseState, policy: Policy.MerchantPolicyRow, run: nat, action: ActionType, lookup: LinkLookup,
                     result: ProviderResult, at: int)
    requires IsExecutable(action) && c.currentRun == Some(run)
    requires var selected := SelectCandidateRow(RunRows(c, run));
             selected.Some? && selected.value.action == action && selected.value.eligible
    ensures var existing := RowForKey(c.actions, run, action);
            Created(c, policy, run, action, lookup, result, at)
            == if existing.Some? then Success(Reconcile(c, existing.value, lookup, false, at))
               else if c.status != Recommended then Failure(CaseNotActionable)
               else Dispatched(c, policy, run, SelectCandidateRow(RunRows(c, run)).value, result, at)
  {
    var existing := RowForKey(c.actions, run, action);
    if existing.Some? && c.status == Recommended {
      ReconcileKeepsRecommended(c, existing.value, lookup, at);
    }
  }

  lemma ReconcileKeepsRecommended(c: CaseState, index: nat, lookup: LinkLookup, at: int)
    requires index < |c.actions| && c.status == Recommended
    ensures Reconcile(c, index, lookup, false, at).status == Recommended
  {
  }

  /** Only the branch that executes at once leaves the case EXECUTING. */
  lemma BranchStatuses(c: CaseState, run: nat, action: ActionType, at: int)
    requires c.status == Recommended
    ensures Protocol.ExecuteStop(c, at).Success? ==> Protocol.ExecuteStop(c, at).value.status == Stopped
    ensures Protocol.ExecuteWait(c, run, at).Success? ==> Protocol.ExecuteWait(c, run, at).value.status == Scheduled
    ensures StageApproval(c, run, action, at).Success? ==>
              StageApproval(c, run, action, at).value.status == AwaitingApproval
    ensures BeginLink(c, run, action, at).Success? ==> BeginLink(c, run, action, at).value.status == Executing
  {
  }

  lemma ApprovedBeforeMoving(c: CaseState, index: nat, at: int)
    requires index < |c.actions|
    ensures var executor := DispatchApproved(c.actions[index].action, index);
            var started := WithStatus(c, index, ActionExecuting).(executor := executor);
            var moved := Transition(started, c.version, ApprovedNow,
                                    ContextAt(at).(action := Some(index), approverKnown := true));
            && Lift(moved) == StartApproved(c, index, at)
            && (moved.Success? ==> moved.value.executor == executor && |moved.value.actions| == |c.actions|)
  {
  }

  lemma RejectedBeforeMoving(c: CaseState, index: nat, reason: string, reanalyze: bool, at: int)
    requires index < |c.actions| && c.actions[index].status == PendingApproval && !IsTerminal(c.status)
    ensures var analysis := if reanalyze then Computing({c.actions[index].action}) else c.analysis;
            var cancelled := WithStatus(c, index, Cancelled).(analysis := analysis);
            var event := if reanalyze then ApprovalRejectedReanalyze else ApprovalRejectedStop;
            Lift(Transition(cancelled, c.version, event,
                            ContextAt(at).(reason := Text.Strip(reason), rejectionRecorded := true)))
            == Reject(c, index, reason, reanalyze, at)
  {
  }

  /** Approving an action and carrying it out. */
  function Approved(c: CaseState, policy: Policy.MerchantPolicyRow, index: nat, expectedVersion: nat,
                    result: ProviderResult, at: int): Result<CaseState, ServiceError>
  {
    match Approve(c, index, expectedVersion, at)
    case Failure(e) => Failure(e)
    case Success(d) => Success(CarriedOut(d, policy, c.actions[index].action, result, at))
  }

  function CarriedOut(d: CaseState, policy: Policy.MerchantPolicyRow, action: ActionType, result: ProviderResult,
                      at: int)
    : CaseState
  {
    if UsesPaymentLink(action) then Invoked(d, policy, result, at)
    else if action == EscalateToHuman then Escalated(d, at)
    else d
  }

  class RecoveryActionService {
    const session: Session
    const policy: Policy.MerchantPolicyRow

    constructor (session: Session, policy: Policy.MerchantPolicyRow)
      ensures this.session == session && this.policy == policy
    {
      this.session := session;
      this.policy := policy;
    }

    // ---------------------------------------------------------- settlement

    /** Second half of every settlement: the case, read again, moves if it is still EXECUTING. */
    method FinishCall(id: nat, at: int)
      requires session.Clean() && id < |session.working.cases| && session.working.cases[id].executor.ResultRecorded?
      modifies session
      ensures session.Holds(old(session.committed), id, FinishSettlement(old(session.committed).cases[id], at))
    {
      var refreshed := session.working.cases[id];
      var index, event := refreshed.executor.index, refreshed.executor.next;
      session.Put(id, refreshed.(executor := NoExecutor));
      session.Commit();
      if refreshed.status == Executing {
        var moved := MoveOrRollback(session, id, session.working.cases[id], refreshed.version, event,
                                    ContextAt(at).(action := Some(index), reason := "Payment link creation settled."));
      }
    }

    method PersistProviderSuccess(id: nat, at: int)
      requires session.Clean() && id < |session.working.cases|
      requires var c := session.working.cases[id]; c.executor.Posted? && c.executor.index < |c.actions|
      modifies session
      ensures var c := old(session.committed).cases[id];
              session.Holds(old(session.committed), id, FinishSettlement(RecordResult(c, policy, LinkCreated), at))
    {
      var c := session.working.cases[id];
      var index := c.executor.index;
      var row := c.actions[index];
      row := row.(status := Succeeded);
      row := row.(hasLinkId := true);
      c := c.(actions := c.actions[index := row], executor := ResultRecorded(index, ActionAcceptedOrUnknown));
      session.Put(id, c);
      session.Commit();
      FinishCall(id, at);
    }

    method MarkProviderUnknown(id: nat, result: ProviderResult, at: int)
      requires session.Clean() && id < |session.working.cases|
      requires var c := session.working.cases[id]; CanRecord(c.executor, result) && c.executor.index < |c.actions|
      requires ResultStatus(result) == Unknown
      modifies session
      ensures var c := old(session.committed).cases[id];
              session.Holds(old(session.committed), id, FinishSettlement(RecordResult(c, policy, result), at))
    {
      var c := session.working.cases[id];
      var index := c.executor.index;
      var row := c.actions[index];
      row := row.(status := Unknown);
      c := c.(actions := c.actions[index := row], executor := ResultRecorded(index, ActionAcceptedOrUnknown));
      session.Put(id, c);
      session.Commit();
      FinishCall(id, at);
    }

    method MarkProviderFailed(id: nat, result: ProviderResult, reanalyze: bool, at: int)
      requires session.Clean() && id < |session.working.cases|
      requires var c := session.working.cases[id]; c.executor.Posted? && c.executor.index < |c.actions|
      requires ResultStatus(result) == ActionFailed
      requires reanalyze <==> result == AuthenticationRejected
                              || |session.working.cases[id].actions| < policy.maxRecoveryAttempts
      modifies session
      ensures var c := old(session.committed).cases[id];
              session.Holds(old(session.committed), id, FinishSettlement(RecordResult(c, policy, result), at))
    {
      var c := session.working.cases[id];
      var index := c.executor.index;
      var event := if reanalyze then ActionFailedReanalyze else TerminalActionFailure;
      var row := c.actions[index];
      row := row.(status := ActionFailed);
      c := c.(actions := c.actions[index := row], executor := ResultRecorded(index, event));
      session.Put(id, c);
      session.Commit();
      FinishCall(id, at);
    }

    /** Sends the POST and settles whatever comes back; without a client nothing is sent. */
    method InvokePaymentLinkProvider(id: nat, result: ProviderResult, at: int)
      requires session.Clean() && id < |session.working.cases|
      requires var c := session.working.cases[id]; c.executor.ReadyToPost? && c.executor.index < |c.actions|
      modifies session
      ensures session.Holds(old(session.committed), id, Invoked(old(session.committed).cases[id], policy, result, at))
    {
      if result == ProviderNotConfigured {
        MarkProviderUnknown(id, result, at);
        return;
      }
      session.Put(id, SendPost(session.working.cases[id]));
      session.Commit();
      if result == LinkCreated {
        PersistProviderSuccess(id, at);
      } else if result == AuthenticationRejected {
        MarkProviderFailed(id, result, true, at);
      } else if result == ValidationRejected {
        var safe := |session.working.cases[id].actions| < policy.maxRecoveryAttempts;
        MarkProviderFailed(id, result, safe, at);
      } else {
        MarkProviderUnknown(id, result, at);
      }
    }

    /** An approved escalation has no provider call: it is recorded and the case waits for its outcome. */
    method ResolveEscalation(id: nat, at: int)
      requires session.Clean() && id < |session.working.cases|
      requires var c := session.working.cases[id]; c.executor.Escalating? && c.executor.index < |c.actions|
      modifies session
      ensures session.Holds(old(session.committed), id, Escalated(old(session.committed).cases[id], at))
    {
      var c := session.working.cases[id];
      var index := c.executor.index;
      var row := c.actions[index];
      row := row.(status := Succeeded);
      c := c.(actions := c.actions[index := row], executor := ResultRecorded(index, ActionAcceptedOrUnknown));
      session.Put(id, c);
      session.Commit();
      FinishCall(id, at);
    }

    // ---------------------------------------------------------- reconciliation

    /** Settles an unresolved link action from a read by reference; anything but a match changes nothing. */
    method MaybeReconcile(id: nat, index: nat, lookup: LinkLookup, at: int)
      requires session.Clean() && id < |session.working.cases| && index < |session.working.cases[id].actions|
      modifies session
      ensures session.Holds(old(session.committed), id,
                            Reconcile(old(session.committed).cases[id], index, lookup, false, at))
    {
      var c := session.working.cases[id];
      var row := c.actions[index];
      assert WithCase(session.committed, id, c) == session.committed;
      if !UsesPaymentLink(row.action) || c.executor != NoExecutor {
        return;
      }
      var unresolved := row.status == ActionExecuting || row.status == Unknown;
      var missingId := row.status == Succeeded && !row.hasLinkId;
      if !unresolved && !missingId {
        return;
      }
      if lookup != LinkFound {
        return;
      }
      session.Put(id, WithLink(c, index));
      session.Commit();
      var refreshed := session.working.cases[id];
      if refreshed.status == Executing {
        var moved := MoveOrRollback(session, id, refreshed, refreshed.version, ActionAcceptedOrUnknown,
                                    ContextAt(at).(action := Some(index)));
      }
    }

    // ---------------------------------------------------------- the four branches of creating an action

    method ExecuteStop(id: nat, at: int) returns (r: Result<CaseState, WorkflowError>)
      requires session.Clean() && id < |session.working.cases|
      modifies session
      ensures r == Protocol.ExecuteStop(old(session.committed).cases[id], at)
      ensures r.Success? ==> session.Holds(old(session.committed), id, r.value)
      ensures r.Failure? ==> session.Clean() && session.committed == old(session.committed)
    {
      var c := session.working.cases[id];
      r := MoveOrRollback(session, id, c, c.version, StopSelected, ContextAt(at).(reason := "Operator selected STOP."));
    }

    method ExecuteWait(id: nat, run: nat, at: int) returns (r: Result<CaseState, WorkflowError>)
      requires session.Clean() && id < |session.working.cases|
      modifies session
      ensures r == Protocol.ExecuteWait(old(session.committed).cases[id], run, at)
      ensures r.Success? ==> session.Holds(old(session.committed), id, r.value)
      ensures r.Failure? ==> session.Clean() && session.committed == old(session.committed)
    {
      var c := session.working.cases[id];
      var action := ActionRow(Wait, ActionScheduled, NextAttempt(c.actions), run, false, false);
      var ctx := ContextAt(at).(action := Some(|c.actions|), analysisRun := Some(run), scheduledFor := Some(at));
      r := MoveOrRollback(session, id, c.(actions := c.actions + [action]), c.version, ScheduleAction, ctx);
    }

    method StagePendingApproval(id: nat, run: nat, actionType: ActionType, at: int)
      returns (r: Result<CaseState, WorkflowError>)
      requires session.Clean() && id < |session.working.cases|
      modifies session
      ensures r == StageApproval(old(session.committed).cases[id], run, actionType, at)
      ensures r.Success? ==> session.Holds(old(session.committed), id, r.value)
      ensures r.Failure? ==> session.Clean() && session.committed == old(session.committed)
    {
      var c := session.working.cases[id];
      var action := ActionRow(actionType, PendingApproval, NextAttempt(c.actions), run, true, false);
      var ctx := ContextAt(at).(action := Some(|c.actions|), analysisRun := Some(run));
      r := MoveOrRollback(session, id, c.(actions := c.actions + [action]), c.version, ApprovalRequired, ctx);
    }

    method ExecutePaymentLinkNow(id: nat, run: nat, actionType: ActionType, result: ProviderResult, at: int)
      returns (r: Result<CaseState, WorkflowError>)
      requires session.Clean() && id < |session.working.cases|
      modifies session
      ensures var begun := BeginLink(old(session.committed).cases[id], run, actionType, at);
              && (begun.Success? ==>
                    && r == Success(Invoked(begun.value, policy, result, at))
                    && session.Holds(old(session.committed), id, r.value))
              && (begun.Failure? ==> r == begun && session.Clean() && session.committed == old(session.committed))
    {
      var c := session.working.cases[id];
      var index := |c.actions|;
      var action := ActionRow(actionType, ActionExecuting, NextAttempt(c.actions), run, false, false);
      var started := c.(actions := c.actions + [action], executor := ReadyToPost(index));
      r := MoveOrRollback(session, id, started, c.version, AutoExecute, ContextAt(at).(action := Some(index)));
      StartedBeforeMoving(c, run, actionType, at);
      if r.Failure? {
        return;
      }
      InvokePaymentLinkProvider(id, result, at);
      r := Success(session.working.cases[id]);
    }

    /** The row selection picks on the current run, if it is the requested action and still eligible. */
    method LoadCurrentRecommendation(c: CaseState, run: nat, action: ActionType) returns (r: Result<Row, ServiceError>)
      ensures r.Success? <==> && c.currentRun == Some(run) && SelectCandidateRow(RunRows(c, run)).Some?
                              && SelectCandidateRow(RunRows(c, run)).value.action == action
                              && SelectCandidateRow(RunRows(c, run)).value.eligible
      ensures r.Success? ==> SelectCandidateRow(RunRows(c, run)) == Some(r.value)
      ensures r.Failure? && IsExecutable(action) ==>
                forall lookup, crash, at :: CreateAction(c, policy, run, action, lookup, crash, at) == Failure(r.error)
    {
      if c.currentRun != Some(run) {
        return Failure(StaleRecommendation);
      }
      var selected := SelectCandidateRow(RunRows(c, run));
      if selected.None? || selected.value.action != action {
        return Failure(StaleRecommendation);
      }
      if !selected.value.eligible {
        return Failure(ActionBlocked);
      }
      return Success(selected.value);
    }

    /** Guards in the service's order, then one of the four branches. */
    method CreateCaseAction(id: nat, run: nat, action: ActionType, lookup: LinkLookup, result: ProviderResult, at: int)
      returns (r: Result<CaseState, ServiceError>)
      requires session.Clean()
      modifies session
      ensures IsExecutable(action) && id >= |old(session.committed).cases| ==> r == Failure(CaseNotFound)
      ensures id < |old(session.committed).cases| ==>
                r == Created(old(session.committed).cases[id], policy, run, action, lookup, result, at)
      ensures r.Success? ==> session.Holds(old(session.committed), id, r.value)
      ensures r.Failure? ==> session.Clean() && session.committed == old(session.committed)
    {
      if !IsExecutable(action) {
        return Failure(UnsupportedAction);
      }
      if id >= |session.working.cases| {
        return Failure(CaseNotFound);
      }
      var c := session.working.cases[id];
      var recommendation := LoadCurrentRecommendation(c, run, action);
      if recommendation.Failure? {
        return Failure(recommendation.error);
      }
      CreatedCases(c, policy, run, action, lookup, result, at);
      var existing := RowForKey(c.actions, run, action);
      if existing.Some? {
        MaybeReconcile(id, existing.value, lookup, at);
        return Success(session.working.cases[id]);
      }
      if c.status != Recommended {
        return Failure(CaseNotActionable);
      }
      r := DispatchAction(id, run, recommendation.value, result, at);
    }

    method DispatchAction(id: nat, run: nat, row: Row, result: ProviderResult, at: int)
      returns (r: Result<CaseState, ServiceError>)
      requires session.Clean() && id < |session.working.cases| && session.working.cases[id].status == Recommended
      modifies session
      ensures r == Dispatched(old(session.committed).cases[id], policy, run, row, result, at)
      ensures r.Success? ==> session.Holds(old(session.committed), id, r.value)
      ensures r.Failure? ==> session.Clean() && session.committed == old(session.committed)
    {
      var c := session.working.cases[id];
      var blocking := BlockingLink(c.actions);
      if blocking == ManyRows {
        return Failure(MultipleRowsFound);
      }
      var decision := Policy.EvaluatePolicy(Question(c, row), Policy.FromMerchantRow(policy));
      if !decision.eligible {
        return Failure(ActionBlocked);
      }
      if blocking != NoRow && UsesPaymentLink(row.action) {
        return Failure(ActionConflict);
      }
      DispatchTakesBranch(c, policy, run, row, result, at);
      var branch := TakeBranch(id, run, row.action, decision.requiresApproval, result, at);
      r := Lift(branch);
    }

    method TakeBranch(id: nat, run: nat, action: ActionType, requiresApproval: bool, result: ProviderResult, at: int)
      returns (r: Result<CaseState, WorkflowError>)
      requires session.Clean() && id < |session.working.cases| && session.working.cases[id].status == Recommended
      modifies session
      ensures var taken := Branch(old(session.committed).cases[id], run, action, requiresApproval, at);
              r == Carried(taken, policy, result, at)
      ensures r.Success? ==> session.Holds(old(session.committed), id, r.value)
      ensures r.Failure? ==> session.Clean() && session.committed == old(session.committed)
    {
      BranchStatuses(session.working.cases[id], run, action, at);
      if action == Stop {
        r := ExecuteStop(id, at);
      } else if action == Wait {
        r := ExecuteWait(id, run, at);
      } else if requiresApproval {
        r := StagePendingApproval(id, run, action, at);
      } else {
        r := ExecutePaymentLinkNow(id, run, action, result, at);
      }
    }

    // ---------------------------------------------------------- approval

    method ApproveAction(id: nat, index: nat, expectedVersion: nat, result: ProviderResult, at: int)
      returns (r: Result<CaseState, ServiceError>)
      requires session.Clean()
      modifies session
      ensures id >= |old(session.committed).cases| ==> r == Failure(ActionNotFound)
      ensures id < |old(session.committed).cases| ==>
                r == Approved(old(session.committed).cases[id], policy, index, expectedVersion, result, at)
      ensures r.Success? ==> session.Holds(old(session.committed), id, r.value)
      ensures r.Failure? ==> session.Clean() && session.committed == old(session.committed)
    {
      if id >= |session.working.cases| || index >= |session.working.cases[id].actions| {
        return Failure(ActionNotFound);
      }
      var c := session.working.cases[id];
      if IsTerminal(c.status) {
        return Failure(CaseNotActionable);
      }
      if c.actions[index].status != PendingApproval {
        return Failure(ActionConflict);
      }
      if c.status != AwaitingApproval {
        return Failure(ActionConflict);
      }
      if c.version != expectedVersion {
        return Failure(WorkflowFailed(StaleVersion));
      }
      if !IsSelected(c, c.actions[index]) {
        return Failure(StaleRecommendation);
      }
      var blocking := BlockingLink(c.actions);
      if blocking == ManyRows {
        return Failure(MultipleRowsFound);
      }
      if blocking.OneRow? && blocking.index != index {
        return Failure(ActionConflict);
      }
      r := CarryOutApproved(id, index, result, at);
    }

    /** Marks the row EXECUTING, moves the case in the same commit, and carries the action out. */
    method CarryOutApproved(id: nat, index: nat, result: ProviderResult, at: int)
      returns (r: Result<CaseState, ServiceError>)
      requires session.Clean() && id < |session.working.cases| && index < |session.working.cases[id].actions|
      modifies session
      ensures var c := old(session.committed).cases[id];
              var started := StartApproved(c, index, at);
              && (started.Failure? ==> r == started)
              && (started.Success? ==>
                    r == Success(CarriedOut(started.value, policy, c.actions[index].action, result, at)))
      ensures r.Success? ==> session.Holds(old(session.committed), id, r.value)
      ensures r.Failure? ==> session.Clean() && session.committed == old(session.committed)
    {
      var c := session.working.cases[id];
      var action := c.actions[index].action;
      var row := c.actions[index];
      row := row.(status := ActionExecuting);
      var started := c.(actions := c.actions[index := row], executor := DispatchApproved(action, index));
      var moved := MoveOrRollback(session, id, started, c.version, ApprovedNow,
                                  ContextAt(at).(action := Some(index), approverKnown := true));
      ApprovedBeforeMoving(c, index, at);
      if moved.Failure? {
        return Failure(WorkflowFailed(moved.error));
      }
      if UsesPaymentLink(action) {
        InvokePaymentLinkProvider(id, result, at);
      } else if action == EscalateToHuman {
        ResolveEscalation(id, at);
      }
      return Success(session.working.cases[id]);
    }

    /** Cancels the row and moves the case in one commit; the re-analysis that may follow is a call of its own. */
    method RejectAction(id: nat, index: nat, reason: string, reanalyze: bool, at: int)
      returns (r: Result<CaseState, ServiceError>)
      requires session.Clean()
      modifies session
      ensures id >= |old(session.committed).cases| ==> r == Failure(ActionNotFound)
      ensures id < |old(session.committed).cases| ==>
                r == Reject(old(session.committed).cases[id], index, reason, reanalyze, at)
      ensures r.Success? ==> session.Holds(old(session.committed), id, r.value)
      ensures r.Failure? ==> session.Clean() && session.committed == old(session.committed)
    {
      if id >= |session.working.cases| || index >= |session.working.cases[id].actions| {
        return Failure(ActionNotFound);
      }
      var c := session.working.cases[id];
      if c.actions[index].status != PendingApproval {
        return Failure(ActionConflict);
      }
      if IsTerminal(c.status) {
        return Failure(CaseNotActionable);
      }
      var row := c.actions[index];
      row := row.(status := Cancelled);
      var cancelled := c.(actions := c.actions[index := row],
                          analysis := if reanalyze then Computing({row.action}) else c.analysis);
      var event := if reanalyze then ApprovalRejectedReanalyze else ApprovalRejectedStop;
      var moved := MoveOrRollback(session, id, cancelled, c.version, event,
                                  ContextAt(at).(reason := Text.Strip(reason), rejectionRecorded := true));
      RejectedBeforeMoving(c, index, reason, reanalyze, at);
      r := Lift(moved);
    }
  }
}
