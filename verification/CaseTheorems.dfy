/** What holds of one recovery case after any run of the services, the provider and the process. */
module CaseTheorems {
  import opened Domain
  import opened Registry
  import opened Selection
  import opened Cases
  import opened Protocol
  import opened CaseInvariants
  import opened ActionInvariants
  import opened CaseRuns
  import Policy

  // ------------------------------------------------------------ the external effect

  ghost predicate ClosedLink(row: ActionRow) {
    UsesPaymentLink(row.action) ==> row.status == Succeeded || row.status == ActionFailed || row.status == Cancelled
  }

  /**
   * In every run each action row is POSTed at most once, only payment-link
   * rows are, and a POST only leaves the process while every other link row of
   * the case is settled or cancelled.
   */
  lemma AtMostOncePost(o: Opening, policy: Policy.MerchantPolicyRow, steps: seq<CaseStep>)
    requires o.amount > 0
    ensures var c := Reached(o, policy, steps);
            && (forall i, j :: 0 <= i < j < |c.posts| ==> c.posts[i] != c.posts[j])
            && (forall i :: i in c.posts ==> i < |c.actions| && UsesPaymentLink(c.actions[i].action))
            && (SendPost(c).posts != c.posts ==>
                  && |c.actions| > 0
                  && SendPost(c).posts == c.posts + [|c.actions| - 1] && |c.actions| - 1 !in c.posts
                  && UsesPaymentLink(c.actions[|c.actions| - 1].action)
                  && forall i :: 0 <= i < |c.actions| - 1 ==> ClosedLink(c.actions[i]))
  {
    ReachedInv(o, policy, steps);
    var c := Reached(o, policy, steps);
    if c.executor.ReadyToPost? {
      EarlierLinksAreClosed(c, policy);
    }
  }

  lemma EarlierLinksAreClosed(c: CaseState, policy: Policy.MerchantPolicyRow)
    requires Inv(c, policy) && c.executor.ReadyToPost?
    ensures forall i :: 0 <= i < |c.actions| - 1 ==> ClosedLink(c.actions[i])
  {
    forall i | 0 <= i < |c.actions| - 1
      ensures ClosedLink(c.actions[i])
    {
      assert BlocksLinks(c.actions[|c.actions| - 1]);
      assert !BlocksLinks(c.actions[i]);
      assert RowShape(c.actions[i]);
    }
  }

  /** The single-result lookup of a blocking link never meets two rows, so no call fails on it. */
  lemma SingleBlockingLink(o: Opening, policy: Policy.MerchantPolicyRow, steps: seq<CaseStep>,
                           run: nat, action: ActionType, lookup: LinkLookup, crash: bool,
                           index: nat, version: nat, at: int)
    requires o.amount > 0
    ensures var c := Reached(o, policy, steps);
            && BlockingLink(c.actions) != ManyRows
            && CreateAction(c, policy, run, action, lookup, crash, at) != Failure(MultipleRowsFound)
            && Approve(c, index, version, at) != Failure(MultipleRowsFound)
  {
    ReachedInv(o, policy, steps);
    NoLookupFails(Reached(o, policy, steps), policy, run, action, lookup, crash, index, version, at);
  }

  lemma NoLookupFails(c: CaseState, policy: Policy.MerchantPolicyRow, run: nat, action: ActionType, lookup: LinkLookup,
                      crash: bool, index: nat, version: nat, at: int)
    requires LinksOk(c.actions)
    ensures BlockingLink(c.actions) != ManyRows
    ensures CreateAction(c, policy, run, action, lookup, crash, at) != Failure(MultipleRowsFound)
    ensures Approve(c, index, version, at) != Failure(MultipleRowsFound)
  {
    BlockingLinkIsUnique(c.actions);
  }

  // ------------------------------------------------------------ termination

  /** The version a case can reach, and the rows it can hold, are bounded by the merchant's attempt cap. */
  lemma VersionIsBounded(o: Opening, policy: Policy.MerchantPolicyRow, steps: seq<CaseStep>)
    requires o.amount > 0
    ensures var c := Reached(o, policy, steps);
            && |c.actions| <= policy.maxRecoveryAttempts
            && c.version <= 5 * |c.actions| + 4 <= 5 * policy.maxRecoveryAttempts + 4
  {
    ReachedInv(o, policy, steps);
    var c := Reached(o, policy, steps);
    ReplayIsPath(c.audits);
    PathsAreBounded(EventsOf(c.audits), 5);
  }

  /** One step moves the case along at most one registry edge, adding a row exactly on the row-adding edges. */
  lemma StepIsEdge(c: CaseState, policy: Policy.MerchantPolicyRow, step: CaseStep)
    requires Inv(c, policy)
    ensures var d := Next(c, policy, step);
            || (d.version == c.version && d.status == c.status && |d.actions| == |c.actions|)
            || (&& d.version == c.version + 1
                && exists event :: Issued(event) && Target(c.status, event) == Some(d.status)
                     && |d.actions| == |c.actions| + (if AddsRow(c.status, event) then 1 else 0))
  {
    var d := Next(c, policy, step);
    NextKeepsInv(c, policy, step);
    NextExtends(c, policy, step);
    AppendedIsEdge(c, d, policy);
  }

  lemma AppendedIsEdge(c: CaseState, d: CaseState, policy: Policy.MerchantPolicyRow)
    requires Static(c, policy) && Static(d, policy) && Extends(c, d)
    ensures || (d.version == c.version && d.status == c.status && |d.actions| == |c.actions|)
            || (&& d.version == c.version + 1
                && exists event :: Issued(event) && Target(c.status, event) == Some(d.status)
                     && |d.actions| == |c.actions| + (if AddsRow(c.status, event) then 1 else 0))
  {
    if d.audits != c.audits {
      var entry :| d.audits == c.audits + [entry];
      if entry.Transitioned? {
        TransitionEntryIsEdge(c, d, entry);
      } else {
        ReplayAppend(c.audits, entry);
        assert EventsOf(d.audits) == EventsOf(c.audits);
      }
    }
  }

  lemma TransitionEntryIsEdge(c: CaseState, d: CaseState, entry: AuditEntry)
    requires ReplayOk(c) && ReplayOk(d) && CountOk(c) && CountOk(d)
    requires entry.Transitioned? && d.audits == c.audits + [entry]
    ensures d.version == c.version + 1 && Issued(entry.event) && Target(c.status, entry.event) == Some(d.status)
    ensures |d.actions| == |c.actions| + (if AddsRow(c.status, entry.event) then 1 else 0)
  {
    ReplayAppend(c.audits, entry);
    ReplayIsPath(c.audits);
    FollowOne(EventsOf(c.audits), entry.event);
    assert EventsOf(d.audits)[|EventsOf(c.audits)|] == entry.event;
  }

  /** The lexicographic measure (attempts left, status rank) falls on every transition and never rises. */
  lemma MeasureFalls(c: CaseState, policy: Policy.MerchantPolicyRow, step: CaseStep)
    requires Inv(c, policy)
    ensures var d := Next(c, policy, step);
            && |d.actions| <= policy.maxRecoveryAttempts
            && (d.version != c.version ==>
                  || policy.maxRecoveryAttempts - |d.actions| < policy.maxRecoveryAttempts - |c.actions|
                  || (|d.actions| == |c.actions| && StatusRank(d.status) < StatusRank(c.status)))
            && (d.version == c.version ==> |d.actions| == |c.actions| && d.status == c.status)
  {
    StepIsEdge(c, policy, step);
    NextKeepsInv(c, policy, step);
    var d := Next(c, policy, step);
    if d.version != c.version {
      var event :| Issued(event) && Target(c.status, event) == Some(d.status)
                   && |d.actions| == |c.actions| + (if AddsRow(c.status, event) then 1 else 0);
      RankFallsUnlessRowAdded(c.status, event);
    }
  }

  // ------------------------------------------------------------ the audit log

  /** Folding the registry over the log from (DETECTED, 1) rebuilds status and version, in every run. */
  lemma AuditIsFaithful(o: Opening, policy: Policy.MerchantPolicyRow, steps: seq<CaseStep>)
    requires o.amount > 0
    ensures var c := Reached(o, policy, steps);
            && Replay(c.audits) == Some((c.status, c.version))
            && Follow(EventsOf(c.audits)) == Some(c.status)
            && c.version == 1 + |EventsOf(c.audits)|
            && (c.resolvedAt.Some? <==> IsTerminal(c.status))
  {
    ReachedInv(o, policy, steps);
    ReplayIsPath(Reached(o, policy, steps).audits);
  }

  /** Consecutive transition entries of a reached case link on status and version, and none leaves a terminal status. */
  lemma AuditLinks(o: Opening, policy: Policy.MerchantPolicyRow, steps: seq<CaseStep>, i: nat, j: nat)
    requires o.amount > 0
    requires var audits := Reached(o, policy, steps).audits;
             && i < j < |audits| && audits[i].Transitioned? && audits[j].Transitioned?
             && forall k :: i < k < j ==> !audits[k].Transitioned?
    ensures var audits := Reached(o, policy, steps).audits;
            && audits[i].newStatus == audits[j].previousStatus && audits[i].newVersion == audits[j].previousVersion
            && !IsTerminal(audits[j].previousStatus)
  {
    ReachedInv(o, policy, steps);
    ReplayLinks(Reached(o, policy, steps).audits, i, j);
  }

  /** A terminal case never moves again, and keeps its outcome or its lack of one. */
  lemma {:induction false} TerminalIsForever(c: CaseState, policy: Policy.MerchantPolicyRow, steps: seq<CaseStep>)
    requires Inv(c, policy) && IsTerminal(c.status)
    ensures var d := Run(c, policy, steps);
            d.status == c.status && d.version == c.version && |d.actions| == |c.actions|
            && (d.outcome.Some? <==> c.outcome.Some?)
  {
    RunKeepsInv(c, policy, steps);
    if steps != [] {
      var front := steps[..|steps| - 1];
      TerminalIsForever(c, policy, front);
      RunKeepsInv(c, policy, front);
      StepIsEdge(Run(c, policy, front), policy, steps[|steps| - 1]);
      TerminalIffDead(c.status);
    }
  }

  // ------------------------------------------------------------ money

  /** An outcome exists iff the case is RECOVERED, is worth exactly the amount at risk, and is never replaced. */
  lemma OutcomeIsExact(o: Opening, policy: Policy.MerchantPolicyRow, steps: seq<CaseStep>, more: seq<CaseStep>)
    requires o.amount > 0
    ensures var c := Reached(o, policy, steps);
            && c.amountAtRisk == o.amount
            && (c.outcome.Some? <==> c.status == Recovered)
            && (c.outcome.Some? ==> c.outcome.value.amount == o.amount)
            && (c.outcome.Some? ==> Run(c, policy, more).outcome == c.outcome)
  {
    ReachedInv(o, policy, steps);
    RunExtends(NewCase(o.sourceKey, o.transactionId, o.amount, o.currency), policy, steps);
    RunExtends(Reached(o, policy, steps), policy, more);
  }

  lemma {:induction false} RunExtends(c: CaseState, policy: Policy.MerchantPolicyRow, steps: seq<CaseStep>)
    ensures var d := Run(c, policy, steps);
            && d.amountAtRisk == c.amountAtRisk && d.currency == c.currency && d.sourceKey == c.sourceKey
            && (c.outcome.Some? ==> d.outcome == c.outcome)
            && c.runs <= d.runs && c.posts <= d.posts
  {
    if steps != [] {
      RunExtends(c, policy, steps[..|steps| - 1]);
      NextExtends(Run(c, policy, steps[..|steps| - 1]), policy, steps[|steps| - 1]);
    }
  }

  // ------------------------------------------------------------ rows and status

  ghost predicate ExactlyOneIn(actions: seq<ActionRow>, status: ActionStatus) {
    exists i :: 0 <= i < |actions| && actions[i].status == status
                && forall j :: 0 <= j < |actions| && actions[j].status == status ==> j == i
  }

  /** How action rows and the status of their case are coupled, in every run. */
  lemma RowsFollowStatus(o: Opening, policy: Policy.MerchantPolicyRow, steps: seq<CaseStep>)
    requires o.amount > 0
    ensures var c := Reached(o, policy, steps);
            && (c.status == AwaitingApproval <==> ExactlyOneIn(c.actions, PendingApproval))
            && (c.status != AwaitingApproval ==>
                  forall i :: 0 <= i < |c.actions| ==> c.actions[i].status != PendingApproval)
            && (forall i :: 0 <= i < |c.actions| && c.actions[i].status == ActionExecuting ==>
                  (c.status == Executing || c.status == Recovered) && ExactlyOneIn(c.actions, ActionExecuting))
            && (c.status == Recovered ==> forall i :: 0 <= i < |c.actions| ==>
                  c.actions[i].status != PendingApproval && c.actions[i].status != ActionScheduled)
            && (forall i :: 0 <= i < |c.actions| ==> c.actions[i].attempt == i + 1)
            && (forall i, j :: 0 <= i < j < |c.actions| ==> c.actions[i].run != c.actions[j].run)
  {
    ReachedInv(o, policy, steps);
    var c := Reached(o, policy, steps);
    PendingIffAwaiting(c);
    ExecutingIsUnique(c);
  }

  lemma PendingIffAwaiting(c: CaseState)
    requires OpenRowsOk(c)
    ensures c.status == AwaitingApproval <==> ExactlyOneIn(c.actions, PendingApproval)
  {
    if c.status == AwaitingApproval {
      assert c.actions[|c.actions| - 1].status == PendingApproval;
      assert forall j :: 0 <= j < |c.actions| && c.actions[j].status == PendingApproval ==> j == |c.actions| - 1;
    }
  }

  lemma ExecutingIsUnique(c: CaseState)
    requires OpenRowsOk(c)
    ensures forall i :: 0 <= i < |c.actions| && c.actions[i].status == ActionExecuting ==>
              ExactlyOneIn(c.actions, ActionExecuting)
  {
  }

  // ------------------------------------------------------------ who reaches the provider

  /** Whatever is about to be sent, or was sent, is a payment link, and so is a created action that executes at once. */
  lemma OnlyLinksReachProvider(o: Opening, policy: Policy.MerchantPolicyRow, steps: seq<CaseStep>,
                               run: nat, action: ActionType, lookup: LinkLookup, crash: bool, at: int)
    requires o.amount > 0
    ensures var c := Reached(o, policy, steps);
            && (c.executor.ReadyToPost? || c.executor.Posted? ==>
                  c.executor.index < |c.actions| && UsesPaymentLink(c.actions[c.executor.index].action))
            && var r := CreateAction(c, policy, run, action, lookup, crash, at);
               r.Success? && r.value.executor != c.executor ==> UsesPaymentLink(action)
  {
    ReachedInv(o, policy, steps);
    var c := Reached(o, policy, steps);
    CreatedExecutorIsLink(c, policy, run, action, lookup, crash, at);
  }

  lemma CreatedExecutorIsLink(c: CaseState, policy: Policy.MerchantPolicyRow, run: nat, action: ActionType,
                              lookup: LinkLookup, crash: bool, at: int)
    requires Inv(c, policy)
    ensures var r := CreateAction(c, policy, run, action, lookup, crash, at);
            r.Success? && r.value.executor != c.executor ==> UsesPaymentLink(action)
  {
    var selected := SelectCandidateRow(RunRows(c, run));
    if CreateAction(c, policy, run, action, lookup, crash, at).Success? {
      var existing := RowForKey(c.actions, run, action);
      if existing.Some? {
        ReconcileKeepsExecutor(c, existing.value, lookup, crash, at);
      } else {
        EscalationIsStaged(c, policy, selected.value);
        DispatchedExecutorIsLink(c, policy, run, selected.value, at);
      }
    }
  }

  lemma EscalationIsStaged(c: CaseState, policy: Policy.MerchantPolicyRow, row: Row)
    ensures row.action == EscalateToHuman ==> Policy.NeedsApproval(Question(c, row), Policy.FromMerchantRow(policy))
  {
    if row.action == EscalateToHuman {
      Policy.EscalationNeedsApproval(Question(c, row), policy);
    }
  }

  lemma ReconcileKeepsExecutor(c: CaseState, index: nat, lookup: LinkLookup, crash: bool, at: int)
    requires index < |c.actions|
    ensures Reconcile(c, index, lookup, crash, at).executor == c.executor
  {
  }

  lemma DispatchedExecutorIsLink(c: CaseState, policy: Policy.MerchantPolicyRow, run: nat, row: Row, at: int)
    requires IsExecutable(row.action)
    requires row.action == EscalateToHuman ==> Policy.NeedsApproval(Question(c, row), Policy.FromMerchantRow(policy))
    ensures var r := Dispatch(c, policy, run, row, at);
            r.Success? && r.value.executor != c.executor ==> UsesPaymentLink(row.action)
  {
  }

  /** The approved row is a link or an escalation, so dispatch after approval always has something to carry out. */
  lemma ApprovalIsDispatched(o: Opening, policy: Policy.MerchantPolicyRow, steps: seq<CaseStep>, index: nat,
                             version: nat, at: int)
    requires o.amount > 0
    ensures var c := Reached(o, policy, steps);
            && (forall i :: 0 <= i < |c.actions| && c.actions[i].status == PendingApproval ==>
                  UsesPaymentLink(c.actions[i].action) || c.actions[i].action == EscalateToHuman)
            && (Approve(c, index, version, at).Success? ==>
                  var d := Approve(c, index, version, at).value;
                  d.executor == ReadyToPost(index) || d.executor == Escalating(index))
  {
    ReachedInv(o, policy, steps);
    var c := Reached(o, policy, steps);
    forall i | 0 <= i < |c.actions| && c.actions[i].status == PendingApproval
      ensures UsesPaymentLink(c.actions[i].action) || c.actions[i].action == EscalateToHuman
    {
      assert RowShape(c.actions[i]);
    }
  }
}
