/** Runs of one recovery case, and what no step of a run ever rewrites. */
module CaseRuns {
  import opened Domain
  import opened Registry
  import opened Selection
  import opened Cases
  import opened Protocol
  import opened CaseInvariants
  import opened ActionInvariants
  import Policy
  import Text

  /** The facts a case is opened with. */
  datatype Opening = Opening(sourceKey: string, transactionId: Option<string>, amount: nat, currency: string)

  function Run(c: CaseState, policy: Policy.MerchantPolicyRow, steps: seq<CaseStep>): CaseState {
    if steps == [] then c else Next(Run(c, policy, steps[..|steps| - 1]), policy, steps[|steps| - 1])
  }

  /** The case opened from the given facts after the given steps. */
  function Reached(o: Opening, policy: Policy.MerchantPolicyRow, steps: seq<CaseStep>): CaseState {
    Run(NewCase(o.sourceKey, o.transactionId, o.amount, o.currency), policy, steps)
  }

  lemma {:induction false} RunKeepsInv(c: CaseState, policy: Policy.MerchantPolicyRow, steps: seq<CaseStep>)
    requires Inv(c, policy)
    ensures Inv(Run(c, policy, steps), policy)
  {
    if steps != [] {
      RunKeepsInv(c, policy, steps[..|steps| - 1]);
      NextKeepsInv(Run(c, policy, steps[..|steps| - 1]), policy, steps[|steps| - 1]);
    }
  }

  lemma ReachedInv(o: Opening, policy: Policy.MerchantPolicyRow, steps: seq<CaseStep>)
    requires o.amount > 0
    ensures Inv(Reached(o, policy, steps), policy)
  {
    NewCaseInv(o.sourceKey, o.transactionId, o.amount, o.currency, policy);
    RunKeepsInv(NewCase(o.sourceKey, o.transactionId, o.amount, o.currency), policy, steps);
  }

  // ------------------------------------------------------------ the shape of one step

  /** Each committed step appends at most one audit entry, and nothing already written is rewritten. */
  ghost predicate Extends(c: CaseState, d: CaseState) {
    && (d.audits == c.audits || exists entry :: d.audits == c.audits + [entry])
    && d.amountAtRisk == c.amountAtRisk && d.currency == c.currency
    && d.sourceKey == c.sourceKey && d.transactionId == c.transactionId
    && c.runs <= d.runs && c.posts <= d.posts
    && (c.outcome.Some? ==> d.outcome == c.outcome)
    && |c.actions| <= |d.actions|
    && forall i :: 0 <= i < |c.actions| ==>
         && d.actions[i].action == c.actions[i].action && d.actions[i].run == c.actions[i].run
         && d.actions[i].attempt == c.actions[i].attempt
  }

  lemma ExtendedByEntry(c: CaseState, d: CaseState, entry: AuditEntry)
    requires d.audits == c.audits + [entry]
    ensures exists e :: d.audits == c.audits + [e]
  {
  }

  lemma TransitionExtends(c: CaseState, version: nat, event: Event, ctx: TransitionContext)
    ensures Transition(c, version, event, ctx).Success? ==> Extends(c, Transition(c, version, event, ctx).value)
  {
    var r := Transition(c, version, event, ctx);
    if r.Success? {
      ExtendedByEntry(c, r.value, Transitioned(event, c.status, r.value.status, c.version, c.version + 1));
    }
  }

  /** A step that changes rows and then moves. */
  lemma ThenExtends(c: CaseState, b: CaseState, version: nat, event: Event, ctx: TransitionContext)
    requires Extends(c, b) && b.audits == c.audits
    ensures Transition(b, version, event, ctx).Success? ==> Extends(c, Transition(b, version, event, ctx).value)
  {
    TransitionExtends(b, version, event, ctx);
  }

  lemma AnalysisExtends(c: CaseState, policy: Policy.MerchantPolicyRow, step: CaseStep)
    requires step.BeginAnalysisStep? || step.StoreRunStep? || step.CompleteAnalysisStep? || step.FailAnalysisStep?
             || step.AnalysisCrash?
    ensures Extends(c, Next(c, policy, step))
  {
    match step
    case BeginAnalysisStep(reason, at) =>
      if EntryEvent(c.status, reason).Some? {
        var event := EntryEvent(c.status, reason).value;
        TransitionExtends(c, c.version, event, EntryContext(event, at));
      }
    case StoreRunStep(inputs, at) =>
      FailureExtends(c, at);
    case CompleteAnalysisStep(at) =>
      if c.analysis.RunStored? {
        ThenExtends(c, c.(analysis := NoAnalysis), c.version, AnalysisCompleted,
                    ContextAt(at).(analysisRun := Some(c.analysis.run), reason := "ANALYSIS"));
      }
    case FailAnalysisStep(at) =>
      FailureExtends(c, at);
    case AnalysisCrash =>
  }

  lemma FailureExtends(c: CaseState, at: int)
    ensures Extends(c, FailAnalysis(c, at))
  {
    ThenExtends(c, c.(analysis := NoAnalysis), c.version, AnalysisTerminalFailure,
                ContextAt(at).(reason := "ANALYSIS_FAILED"));
  }

  lemma ReconcileExtends(c: CaseState, index: nat, lookup: LinkLookup, crash: bool, at: int)
    requires index < |c.actions|
    ensures Extends(c, Reconcile(c, index, lookup, crash, at))
  {
    ThenExtends(c, WithLink(c, index), c.version, ActionAcceptedOrUnknown, ContextAt(at).(action := Some(index)));
  }

  lemma DispatchExtends(c: CaseState, policy: Policy.MerchantPolicyRow, run: nat, row: Row, at: int)
    ensures Extends(c, Keep(c, Dispatch(c, policy, run, row, at)))
  {
    TransitionExtends(c, c.version, StopSelected, ContextAt(at).(reason := "Operator selected STOP."));
    ThenExtends(c, WithRow(c, Wait, ActionScheduled, run, false), c.version, ScheduleAction,
                ContextAt(at).(action := Some(|c.actions|), analysisRun := Some(run), scheduledFor := Some(at)));
    ThenExtends(c, WithRow(c, row.action, PendingApproval, run, true), c.version, ApprovalRequired,
                ContextAt(at).(action := Some(|c.actions|), analysisRun := Some(run)));
    ThenExtends(c, WithRow(c, row.action, ActionExecuting, run, false), c.version, AutoExecute,
                ContextAt(at).(action := Some(|c.actions|)));
  }

  lemma ApprovalExtends(c: CaseState, policy: Policy.MerchantPolicyRow, step: CaseStep)
    requires step.ApproveStep? || step.RejectStep?
    ensures Extends(c, Next(c, policy, step))
  {
    match step
    case ApproveStep(index, expectedVersion, at) =>
      if index < |c.actions| {
        StartExtends(c, index, at);
      }
    case RejectStep(index, note, reanalyze, at) =>
      if index < |c.actions| {
        ThenExtends(c, WithStatus(c, index, Cancelled), c.version,
                    if reanalyze then ApprovalRejectedReanalyze else ApprovalRejectedStop,
                    ContextAt(at).(reason := Text.Strip(note), rejectionRecorded := true));
      }
  }

  lemma StartExtends(c: CaseState, index: nat, at: int)
    requires index < |c.actions|
    ensures Extends(c, Keep(c, StartApproved(c, index, at)))
  {
    ThenExtends(c, WithStatus(c, index, ActionExecuting), c.version, ApprovedNow,
                ContextAt(at).(action := Some(index), approverKnown := true));
  }

  lemma FinishExtends(c: CaseState, at: int)
    ensures Extends(c, FinishSettlement(c, at))
  {
    if c.executor.ResultRecorded? {
      ThenExtends(c, c.(executor := NoExecutor), c.version, c.executor.next,
                  ContextAt(at).(action := Some(c.executor.index), reason := "Payment link creation settled."));
    }
  }

  lemma VerifiedExtends(c: CaseState, amount: int, currency: string, paymentId: string, at: int)
    ensures ResolveSuccess(c, amount, currency, paymentId, at).Verified? ==>
              Extends(c, ResolveSuccess(c, amount, currency, paymentId, at).case_)
  {
    var v := ResolveSuccess(c, amount, currency, paymentId, at);
    ThenExtends(c, Settled(c, amount, paymentId, at), c.version, PaymentVerified,
                ContextAt(at).(reason := "PAYMENT_VERIFIED"));
    if v.Verified? && v.disposition == Ignored(TerminalReconciliation) {
      ExtendedByEntry(c, v.case_, ReconciliationRequired(c.status));
    }
  }

  /** History is append-only: amounts are frozen, runs, posts and audits only grow, rows keep their identity. */
  lemma NextExtends(c: CaseState, policy: Policy.MerchantPolicyRow, step: CaseStep)
    ensures Extends(c, Next(c, policy, step))
  {
    match step
    case CreateActionStep(run, action, lookup, crash, at) => CreationExtends(c, policy, run, action, lookup, crash, at);
    case ApproveStep(_, _, _) => ApprovalExtends(c, policy, step);
    case RejectStep(_, _, _, _) => ApprovalExtends(c, policy, step);
    case FinishSettlementStep(at) => FinishExtends(c, at);
    case VerifiedPaymentStep(amount, currency, paymentId, at) => VerifiedExtends(c, amount, currency, paymentId, at);
    case PostStep => RecordingExtends(c, policy, step);
    case RecordResultStep(_) => RecordingExtends(c, policy, step);
    case RecordEscalationStep => RecordingExtends(c, policy, step);
    case ExecutorCrash => RecordingExtends(c, policy, step);
    case _ => AnalysisExtends(c, policy, step);
  }

  lemma CreationExtends(c: CaseState, policy: Policy.MerchantPolicyRow, run: nat, action: ActionType,
                        lookup: LinkLookup, crash: bool, at: int)
    ensures Extends(c, Keep(c, CreateAction(c, policy, run, action, lookup, crash, at)))
  {
    var selected := SelectCandidateRow(RunRows(c, run));
    if selected.Some? {
      var existing := RowForKey(c.actions, run, action);
      if existing.Some? {
        ReconcileExtends(c, existing.value, lookup, crash, at);
      } else {
        DispatchExtends(c, policy, run, selected.value, at);
      }
    }
  }

  /** Steps that touch the working row, the POST history or the executor only. */
  lemma RecordingExtends(c: CaseState, policy: Policy.MerchantPolicyRow, step: CaseStep)
    requires step.PostStep? || step.RecordResultStep? || step.RecordEscalationStep? || step.ExecutorCrash?
    ensures Extends(c, Next(c, policy, step))
  {
  }
}
