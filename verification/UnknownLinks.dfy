/** Exactly what settles a payment-link action whose provider result is unknown. */
module UnknownLinks {
  import opened Domain
  import opened Registry
  import opened Selection
  import opened Cases
  import opened Protocol
  import opened CaseInvariants
  import opened ActionInvariants
  import opened CaseRuns
  import opened CaseTheorems
  import opened CaseProgress
  import Policy

  // ------------------------------------------------------------ where rows come from

  predicate Chosen(c: CaseState, row: ActionRow) {
    && SelectCandidateRow(RunRows(c, row.run)).Some?
    && SelectCandidateRow(RunRows(c, row.run)).value.action == row.action
  }

  /** Every row is what selection picks from the run it was created from. */
  ghost predicate OriginOk(c: CaseState) {
    forall i :: 0 <= i < |c.actions| ==> Chosen(c, c.actions[i])
  }

  /** A step that adds a row leaves the case acting on it. */
  lemma NewRowActs(c: CaseState, policy: Policy.MerchantPolicyRow, step: CaseStep)
    requires Inv(c, policy) && |Next(c, policy, step).actions| != |c.actions|
    ensures var d := Next(c, policy, step); |d.actions| == |c.actions| + 1 && ActsOnLastRow(d.status)
  {
    StepIsEdge(c, policy, step);
    var d := Next(c, policy, step);
    var event :| Issued(event) && Target(c.status, event) == Some(d.status)
                 && |d.actions| == |c.actions| + (if AddsRow(c.status, event) then 1 else 0);
    AddedRowTargets(event);
  }

  lemma AddedRowTargets(event: Event)
    ensures AddsRow(Recommended, event) && Issued(event) ==> ActsOnLastRow(Target(Recommended, event).value)
  {
  }

  lemma OriginKept(c: CaseState, policy: Policy.MerchantPolicyRow, step: CaseStep)
    requires Inv(c, policy) && OriginOk(c)
    ensures OriginOk(Next(c, policy, step))
  {
    var d := Next(c, policy, step);
    NextKeepsInv(c, policy, step);
    NextExtends(c, policy, step);
    if |d.actions| != |c.actions| {
      NewRowActs(c, policy, step);
    }
    OriginExtends(c, d);
  }

  /** Runs are never rewritten, so old rows stay chosen; a new last row is acted on, so it is the current selection. */
  lemma OriginExtends(c: CaseState, d: CaseState)
    requires OriginOk(c) && RunOrderOk(c.actions, |c.runs|) && Extends(c, d) && CurrentRunOk(d)
    requires |d.actions| == |c.actions| || (|d.actions| == |c.actions| + 1 && ActsOnLastRow(d.status))
    ensures OriginOk(d)
  {
    forall i | 0 <= i < |c.actions|
      ensures Chosen(d, d.actions[i])
    {
      assert Chosen(c, c.actions[i]);
      assert d.runs[c.actions[i].run] == c.runs[c.actions[i].run];
    }
  }

  lemma {:induction false} ReachedOrigin(o: CaseRuns.Opening, policy: Policy.MerchantPolicyRow, steps: seq<CaseStep>)
    requires o.amount > 0
    ensures OriginOk(Reached(o, policy, steps))
  {
    if steps != [] {
      var front := steps[..|steps| - 1];
      ReachedOrigin(o, policy, front);
      ReachedInv(o, policy, front);
      OriginKept(Reached(o, policy, front), policy, steps[|steps| - 1]);
    }
  }

  // ------------------------------------------------------------ what settles an unknown link

  /** Asking again for the action of this row, on the run that is still current, with a read that finds the link. */
  predicate ReadsAgain(c: CaseState, i: nat, step: CaseStep) {
    && i < |c.actions| && c.executor == NoExecutor
    && step.CreateActionStep? && step.lookup == LinkFound
    && c.currentRun == Some(c.actions[i].run) && step.run == c.actions[i].run && step.action == c.actions[i].action
  }

  /**
   * In every reachable case, whatever its status, a step settles an UNKNOWN
   * link exactly when it asks for the same action again while the row's run is
   * current and the read finds the link; a crash between the two commits of
   * the reconciliation makes no difference to the row.
   */
  lemma UnknownIsSettledExactly(o: CaseRuns.Opening, policy: Policy.MerchantPolicyRow, steps: seq<CaseStep>,
                                i: nat, step: CaseStep)
    requires o.amount > 0 && UnknownLink(Reached(o, policy, steps), i)
    ensures var c := Reached(o, policy, steps);
            var d := Next(c, policy, step);
            && i < |d.actions|
            && (d.actions[i].status != Unknown <==> ReadsAgain(c, i, step))
            && (ReadsAgain(c, i, step) ==> d.actions[i] == c.actions[i].(status := Succeeded, hasLinkId := true))
  {
    ReachedInv(o, policy, steps);
    ReachedOrigin(o, policy, steps);
    UnknownSettledByStep(Reached(o, policy, steps), policy, i, step);
  }

  lemma UnknownSettledByStep(c: CaseState, policy: Policy.MerchantPolicyRow, i: nat, step: CaseStep)
    requires Inv(c, policy) && OriginOk(c) && UnknownLink(c, i)
    ensures var d := Next(c, policy, step);
            && i < |d.actions|
            && (if ReadsAgain(c, i, step) then d.actions[i] == c.actions[i].(status := Succeeded, hasLinkId := true)
                else d.actions[i] == c.actions[i])
  {
    match step
    case CreateActionStep(run, action, lookup, crash, at) =>
      if c.currentRun == Some(c.actions[i].run) && run == c.actions[i].run && action == c.actions[i].action {
        SameActionReads(c, policy, i, lookup, crash, at);
      } else {
        OtherActionLeaves(c, policy, i, run, action, lookup, crash, at);
      }
    case _ => OtherStepLeaves(c, policy, i, step);
  }

  lemma OtherStepLeaves(c: CaseState, policy: Policy.MerchantPolicyRow, i: nat, step: CaseStep)
    requires Inv(c, policy) && UnknownLink(c, i) && !step.CreateActionStep?
    ensures var d := Next(c, policy, step); i < |d.actions| && d.actions[i] == c.actions[i]
  {
    assert BlocksLinks(c.actions[i]);
    match step
    case ApproveStep(_, _, _) => ApprovalUntouched(c, policy, i, step);
    case RejectStep(_, _, _, _) => ApprovalUntouched(c, policy, i, step);
    case VerifiedPaymentStep(_, _, _, _) => PaymentUntouched(c, policy, i, step);
    case PostStep =>
    case RecordResultStep(_) => SettlementUntouched(c, policy, i, step);
    case RecordEscalationStep => SettlementUntouched(c, policy, i, step);
    case FinishSettlementStep(_) => SettlementUntouched(c, policy, i, step);
    case ExecutorCrash => SettlementUntouched(c, policy, i, step);
    case _ => AnalysisUntouched(c, policy, i, step);
  }

  /** The key of the row leads back to it, and the read settles it before anything else can fail. */
  lemma SameActionReads(c: CaseState, policy: Policy.MerchantPolicyRow, i: nat, lookup: LinkLookup, crash: bool,
                        at: int)
    requires Inv(c, policy) && OriginOk(c) && UnknownLink(c, i) && c.currentRun == Some(c.actions[i].run)
    ensures var row := c.actions[i];
            var d := Keep(c, CreateAction(c, policy, row.run, row.action, lookup, crash, at));
            && i < |d.actions|
            && d.actions[i] == if lookup == LinkFound && c.executor == NoExecutor
                               then row.(status := Succeeded, hasLinkId := true) else row
  {
    var row := c.actions[i];
    assert Chosen(c, row) && GoodRun(c.runs[row.run]);
    assert RowForKey(c.actions, row.run, row.action) == Some(i);
    ReadSettles(c, i, lookup, crash, at);
  }

  lemma ReadSettles(c: CaseState, i: nat, lookup: LinkLookup, crash: bool, at: int)
    requires UnknownLink(c, i)
    ensures var d := Reconcile(c, i, lookup, crash, at);
            && i < |d.actions|
            && d.actions[i] == if lookup == LinkFound && c.executor == NoExecutor
                               then c.actions[i].(status := Succeeded, hasLinkId := true) else c.actions[i]
  {
  }

  lemma OtherActionLeaves(c: CaseState, policy: Policy.MerchantPolicyRow, i: nat, run: nat, action: ActionType,
                          lookup: LinkLookup, crash: bool, at: int)
    requires i < |c.actions|
    requires !(c.currentRun == Some(c.actions[i].run) && run == c.actions[i].run && action == c.actions[i].action)
    ensures var d := Keep(c, CreateAction(c, policy, run, action, lookup, crash, at));
            i < |d.actions| && d.actions[i] == c.actions[i]
  {
    var selected := SelectCandidateRow(RunRows(c, run));
    if c.currentRun == Some(run) && selected.Some? && IsExecutable(action) {
      var existing := RowForKey(c.actions, run, action);
      if existing.Some? {
        ReconcileUntouched(c, i, existing.value, lookup, crash, at);
      } else {
        DispatchUntouched(c, policy, i, run, selected.value, at);
      }
    }
  }
}
