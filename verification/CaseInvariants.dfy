/** What every step of the recovery-case protocol keeps. */
module CaseInvariants {
  import opened Domain
  import opened Registry
  import opened Selection
  import opened Cases
  import opened Protocol
  import Ranking
  import Policy
  import Analysis

  // ------------------------------------------------------------ the invariant, part by part

  /** The audit log replays to the row, and resolved_at is set exactly in terminal statuses. */
  ghost predicate ReplayOk(c: CaseState) {
    && Replay(c.audits) == Some((c.status, c.version))
    && (c.resolvedAt.Some? <==> IsTerminal(c.status))
  }

  /** Each row-adding edge of the log added one action row, and only issued events occur. */
  ghost predicate CountOk(c: CaseState) {
    && RowsAdded(EventsOf(c.audits)) == |c.actions|
    && forall event :: event in EventsOf(c.audits) ==> Issued(event)
  }

  /** An outcome exists exactly for a RECOVERED case and carries the amount at risk. */
  ghost predicate MoneyOk(c: CaseState) {
    && c.amountAtRisk > 0
    && (c.outcome.Some? <==> c.status == Recovered)
    && (c.outcome.Some? ==> c.outcome.value.amount == c.amountAtRisk)
  }

  predicate RowShape(row: ActionRow) {
    && IsExecutable(row.action) && row.action != Stop
    && (row.status == ActionScheduled ==> row.action == Wait)
    && (row.action == Wait ==> row.status == ActionScheduled || row.status == Cancelled)
    && (row.status == Unknown || row.status == ActionFailed ==> UsesPaymentLink(row.action))
    && (row.hasLinkId <==> UsesPaymentLink(row.action) && row.status == Succeeded)
  }

  ghost predicate RowsOk(actions: seq<ActionRow>) {
    forall i :: 0 <= i < |actions| ==> RowShape(actions[i]) && actions[i].attempt == i + 1
  }

  /** Rows are created from ever newer runs, so no run and hence no key is used twice. */
  ghost predicate RunOrderOk(actions: seq<ActionRow>, runCount: nat) {
    && (forall i :: 0 <= i < |actions| ==> actions[i].run < runCount)
    && (forall i, j :: 0 <= i < j < |actions| ==> actions[i].run < actions[j].run)
  }

  /** Where an open row sits determines the status of its case, and back. */
  ghost predicate OpenRowsOk(c: CaseState) {
    && (forall i :: 0 <= i < |c.actions| && c.actions[i].status == PendingApproval ==>
          c.status == AwaitingApproval && i == |c.actions| - 1)
    && (c.status == AwaitingApproval ==> |c.actions| > 0 && c.actions[|c.actions| - 1].status == PendingApproval)
    && (forall i :: 0 <= i < |c.actions| && c.actions[i].status == ActionExecuting ==>
          (c.status == Executing || c.status == Recovered) && i == |c.actions| - 1)
    && (c.status == Recovered ==>
          forall i :: 0 <= i < |c.actions| ==> c.actions[i].status != ActionScheduled)
  }

  predicate ActsOnLastRow(status: CaseStatus) {
    status == AwaitingApproval || status == Scheduled || status == Executing || status == WaitingForOutcome
  }

  /** While a case acts, its last row is what the current run selects; a RECOMMENDED case has yet to act on its run. */
  ghost predicate CurrentRunOk(c: CaseState) {
    && (ActsOnLastRow(c.status) ==> |c.actions| > 0 && IsSelected(c, c.actions[|c.actions| - 1]))
    && (c.status == Recommended ==> c.currentRun.Some? && AllBefore(c.actions, c.currentRun.value))
  }

  ghost predicate AllBefore(actions: seq<ActionRow>, run: nat) {
    forall i :: 0 <= i < |actions| ==> actions[i].run < run
  }

  /** At most one payment-link action of the case is pending, executing or unknown. */
  ghost predicate LinksOk(actions: seq<ActionRow>) {
    forall i, j :: 0 <= i < j < |actions| ==> !(BlocksLinks(actions[i]) && BlocksLinks(actions[j]))
  }

  predicate GoodRun(rows: seq<Row>) {
    && SelectCandidateRow(rows).Some?
    && SelectCandidateRow(rows).value.eligible
    && IsExecutable(SelectCandidateRow(rows).value.action)
  }

  ghost predicate RunsOk(c: CaseState) {
    && c.currentRun == (if |c.runs| == 0 then None else Some(|c.runs| - 1))
    && forall k :: 0 <= k < |c.runs| ==> GoodRun(c.runs[k])
  }

  ghost predicate AnalysisOk(c: CaseState) {
    && (c.analysis != NoAnalysis ==> (c.status == Analyzing || c.status == Recovered) && c.executor == NoExecutor)
    && (c.analysis.RunStored? ==> c.currentRun == Some(c.analysis.run) && AllBefore(c.actions, c.analysis.run))
  }

  /** A live executor works on the last row, and its progress matches the row and the POST history. */
  ghost predicate ExecutorOk(c: CaseState) {
    c.executor != NoExecutor ==>
      && (c.status == Executing || c.status == Recovered)
      && c.executor.index + 1 == |c.actions|
      && var row := c.actions[c.executor.index];
         match c.executor
         case ReadyToPost(i) => UsesPaymentLink(row.action) && row.status == ActionExecuting && i !in c.posts
         case Posted(i) => UsesPaymentLink(row.action) && row.status == ActionExecuting && i in c.posts
         case Escalating(i) => row.action == EscalateToHuman && row.status == ActionExecuting
         case ResultRecorded(i, next) =>
           && (row.status == Succeeded || row.status == ActionFailed || row.status == Unknown)
           && (next == ActionAcceptedOrUnknown || next == ActionFailedReanalyze || next == TerminalActionFailure)
  }

  predicate Attempted(status: ActionStatus) {
    status == ActionExecuting || status == Succeeded || status == ActionFailed || status == Unknown
  }

  /** No row was POSTed twice, and only link rows that started executing were. */
  ghost predicate PostsOk(actions: seq<ActionRow>, posts: seq<nat>) {
    && (forall i, j :: 0 <= i < j < |posts| ==> posts[i] != posts[j])
    && (forall i :: i in posts ==> i < |actions| && UsesPaymentLink(actions[i].action) && Attempted(actions[i].status))
  }

  /** The parts about the log, the money, the rows, the runs and the POST history. */
  ghost predicate Static(c: CaseState, policy: Policy.MerchantPolicyRow) {
    && ReplayOk(c)
    && CountOk(c)
    && MoneyOk(c)
    && |c.actions| <= policy.maxRecoveryAttempts
    && TableOk(c.actions, |c.runs|, c.posts)
    && RunsOk(c)
  }

  ghost predicate TableOk(actions: seq<ActionRow>, runCount: nat, posts: seq<nat>) {
    RowsOk(actions) && RunOrderOk(actions, runCount) && LinksOk(actions) && PostsOk(actions, posts)
  }

  /** The parts that couple the rows and the live processes to the status. */
  ghost predicate Dynamic(c: CaseState) {
    OpenRowsOk(c) && CurrentRunOk(c) && AnalysisOk(c) && ExecutorOk(c)
  }

  ghost predicate Inv(c: CaseState, policy: Policy.MerchantPolicyRow) {
    Static(c, policy) && Dynamic(c)
  }

  lemma NewCaseInv(sourceKey: string, transactionId: Option<string>, amount: nat, currency: string,
                   policy: Policy.MerchantPolicyRow)
    requires amount > 0
    ensures Inv(NewCase(sourceKey, transactionId, amount, currency), policy)
  {
    var c := NewCase(sourceKey, transactionId, amount, currency);
    NewLog();
    EmptyTable(c, policy);
  }

  lemma EmptyTable(c: CaseState, policy: Policy.MerchantPolicyRow)
    requires c.status == Detected && c.actions == [] && c.runs == [] && c.posts == [] && c.currentRun.None?
    requires ReplayOk(c) && EventsOf(c.audits) == [] && c.amountAtRisk > 0 && c.outcome.None?
    requires c.analysis == NoAnalysis && c.executor == NoExecutor
    ensures Inv(c, policy)
  {
  }

  lemma NewLog()
    ensures Replay([CaseCreated]) == Some((Detected, 1)) && EventsOf([CaseCreated]) == []
  {
    ReplayAppend([], CaseCreated);
    assert [] + [CaseCreated] == [CaseCreated];
  }

  // ------------------------------------------------------------ transitions and rows

  /** What a successful transition does to the log, and that it touches nothing else. */
  lemma TransitionLedger(c: CaseState, event: Event, ctx: TransitionContext, d: CaseState)
    requires ReplayOk(c) && Issued(event)
    requires forall e :: e in EventsOf(c.audits) ==> Issued(e)
    requires Transition(c, c.version, event, ctx) == Success(d)
    ensures ReplayOk(d)
    ensures Target(c.status, event) == Some(d.status)
    ensures RowsAdded(EventsOf(d.audits)) == RowsAdded(EventsOf(c.audits)) + (if AddsRow(c.status, event) then 1 else 0)
    ensures forall e :: e in EventsOf(d.audits) ==> Issued(e)
    ensures d == c.(status := d.status, version := d.version, resolvedAt := d.resolvedAt, audits := d.audits)
  {
    ReplayTransition(c.audits, event);
    ReplayIsPath(c.audits);
    ReplayAppend(c.audits, Transitioned(event, c.status, d.status, c.version, c.version + 1));
    FollowOne(EventsOf(c.audits), event);
  }

  /** A transition that adds no row and does not recover the case keeps the static parts. */
  lemma MoveKeepsStatic(c: CaseState, policy: Policy.MerchantPolicyRow, event: Event, ctx: TransitionContext,
                        d: CaseState)
    requires Static(c, policy) && Issued(event) && !AddsRow(c.status, event) && event != PaymentVerified
    requires Transition(c, c.version, event, ctx) == Success(d)
    ensures Static(d, policy) && Target(c.status, event) == Some(d.status)
    ensures d == c.(status := d.status, version := d.version, resolvedAt := d.resolvedAt, audits := d.audits)
  {
    TransitionLedger(c, event, ctx, d);
    PaidOnlyByVerification(c.status, event);
  }

  lemma PaidOnlyByVerification(status: CaseStatus, event: Event)
    ensures Target(status, event) == Some(Recovered) ==> event == PaymentVerified
    ensures Target(status, event).Some? ==> status != Recovered
  {
  }

  /** Replacing a row by one that is no more blocking and no less attempted keeps the table in order. */
  lemma RowUpdateKeeps(actions: seq<ActionRow>, runCount: nat, posts: seq<nat>, index: nat, row: ActionRow)
    requires TableOk(actions, runCount, posts) && index < |actions|
    requires row == actions[index].(status := row.status, hasLinkId := row.hasLinkId) && RowShape(row)
    requires BlocksLinks(row) ==> BlocksLinks(actions[index])
    requires index in posts ==> Attempted(row.status)
    ensures TableOk(actions[index := row], runCount, posts)
  {
    var updated := actions[index := row];
    assert RowsOk(updated);
    assert RunOrderOk(updated, runCount);
    assert LinksOk(updated);
  }

  /** Appending a row of a newer run, with no other blocking link when it blocks, keeps the table in order. */
  lemma RowAddKeeps(actions: seq<ActionRow>, runCount: nat, posts: seq<nat>, row: ActionRow)
    requires TableOk(actions, runCount, posts)
    requires RowShape(row) && row.attempt == |actions| + 1 && row.run < runCount && AllBefore(actions, row.run)
    requires BlocksLinks(row) ==> forall i :: 0 <= i < |actions| ==> !BlocksLinks(actions[i])
    ensures TableOk(actions + [row], runCount, posts)
  {
    var longer := actions + [row];
    assert RowsOk(longer);
    assert RunOrderOk(longer, runCount);
    assert LinksOk(longer);
  }

  lemma {:induction false} BlockingLinkSpec(actions: seq<ActionRow>)
    ensures BlockingLink(actions).NoRow? <==> forall i :: 0 <= i < |actions| ==> !BlocksLinks(actions[i])
    ensures BlockingLink(actions).OneRow? ==>
              && BlockingLink(actions).index < |actions|
              && forall i :: 0 <= i < |actions| ==> (BlocksLinks(actions[i]) <==> i == BlockingLink(actions).index)
    ensures BlockingLink(actions).ManyRows? ==>
              exists i, j :: 0 <= i < j < |actions| && BlocksLinks(actions[i]) && BlocksLinks(actions[j])
  {
    if actions != [] {
      var front := actions[..|actions| - 1];
      BlockingLinkSpec(front);
      if BlockingLink(front).ManyRows? {
        var i, j :| 0 <= i < j < |front| && BlocksLinks(front[i]) && BlocksLinks(front[j]);
        assert BlocksLinks(actions[i]) && BlocksLinks(actions[j]);
      } else if BlockingLink(front).OneRow? && BlocksLinks(actions[|actions| - 1]) {
        assert BlocksLinks(actions[BlockingLink(front).index]);
      }
    }
  }

  /** In an ordered table the single-result query never finds two rows. */
  lemma BlockingLinkIsUnique(actions: seq<ActionRow>)
    requires LinksOk(actions)
    ensures !BlockingLink(actions).ManyRows?
  {
    BlockingLinkSpec(actions);
  }

  lemma {:induction false} NextAttemptIsCount(actions: seq<ActionRow>)
    requires forall i :: 0 <= i < |actions| ==> actions[i].attempt == i + 1
    ensures NextAttempt(actions) == |actions| + 1
  {
    if actions != [] {
      NextAttemptIsCount(actions[..|actions| - 1]);
    }
  }

  ghost predicate NoOpenRows(actions: seq<ActionRow>) {
    forall i :: 0 <= i < |actions| ==> actions[i].status != PendingApproval && actions[i].status != ActionExecuting
  }

  /** Statuses in which nothing is open and nobody works. */
  lemma QuietDynamic(d: CaseState)
    requires NoOpenRows(d.actions) && d.executor == NoExecutor && !d.analysis.RunStored?
    requires d.status == Analyzing || ((d.status == Failed || d.status == Stopped) && d.analysis == NoAnalysis)
    ensures Dynamic(d)
  {
  }

  lemma ClosedBefore(c: CaseState)
    requires Dynamic(c) && c.status != AwaitingApproval && c.status != Executing && c.status != Recovered
    ensures NoOpenRows(c.actions) && c.executor == NoExecutor
  {
  }

  lemma RecommendedDynamic(d: CaseState)
    requires d.status == Recommended && NoOpenRows(d.actions)
    requires d.executor == NoExecutor && d.analysis == NoAnalysis
    requires d.currentRun.Some? && AllBefore(d.actions, d.currentRun.value)
    ensures Dynamic(d)
  {
  }

  /** Which processes are alive is no concern of the static parts. */
  lemma ProcessesAreNotStatic(c: CaseState, policy: Policy.MerchantPolicyRow, analysis: AnalysisWorker,
                              executor: Executor)
    requires Static(c, policy)
    ensures Static(c.(analysis := analysis, executor := executor), policy)
  {
  }

  // ------------------------------------------------------------ analysis steps

  lemma BeginAnalysisKeeps(c: CaseState, policy: Policy.MerchantPolicyRow, reason: AnalysisReason, at: int)
    requires Inv(c, policy)
    ensures Inv(Keep(c, BeginAnalysis(c, reason, at)), policy)
  {
    var r := BeginAnalysis(c, reason, at);
    if r.Success? {
      var event := EntryEvent(c.status, reason).value;
      var d := Transition(c, c.version, event, EntryContext(event, at)).value;
      MoveKeepsStatic(c, policy, event, EntryContext(event, at), d);
      ClosedBefore(c);
      QuietDynamic(r.value);
    }
  }

  lemma StoredRunIsGood(c: CaseState, policy: Policy.MerchantPolicyRow, inputs: Analysis.AnalysisInputs,
                        excluded: set<ActionType>, ranked: seq<Ranking.Ranked>)
    requires Analysis.Compute(inputs, c.amountAtRisk, |c.actions|, Policy.FromMerchantRow(policy), excluded)
          == Success(ranked)
    ensures GoodRun(Persist(ranked))
  {
    Analysis.ExecutorAgreesWithAnalysis(inputs, c.amountAtRisk, |c.actions|, Policy.FromMerchantRow(policy),
                                        excluded, ranked, Persist(ranked));
  }

  lemma FailAnalysisKeeps(c: CaseState, policy: Policy.MerchantPolicyRow, at: int)
    requires Inv(c, policy)
    ensures Inv(FailAnalysis(c, at), policy)
  {
    if c.analysis.Computing? {
      AnalysisDies(c, policy);
      if c.status == Analyzing {
        FailedFromAnalyzing(c.(analysis := NoAnalysis), policy, at);
      }
    }
  }

  lemma FailedFromAnalyzing(c: CaseState, policy: Policy.MerchantPolicyRow, at: int)
    requires Inv(c, policy) && c.status == Analyzing && c.analysis == NoAnalysis
    ensures var ctx := ContextAt(at).(reason := "ANALYSIS_FAILED");
            var r := Transition(c, c.version, AnalysisTerminalFailure, ctx);
            r.Success? ==> Inv(r.value, policy)
  {
    var ctx := ContextAt(at).(reason := "ANALYSIS_FAILED");
    var r := Transition(c, c.version, AnalysisTerminalFailure, ctx);
    if r.Success? {
      MoveKeepsStatic(c, policy, AnalysisTerminalFailure, ctx, r.value);
      ClosedBefore(c);
      QuietDynamic(r.value);
    }
  }

  /** A dying analysis leaves the committed rows in order. */
  lemma AnalysisDies(c: CaseState, policy: Policy.MerchantPolicyRow)
    requires Inv(c, policy)
    ensures Inv(c.(analysis := NoAnalysis), policy)
  {
    ProcessesAreNotStatic(c, policy, NoAnalysis, c.executor);
  }

  lemma RunAppended(c: CaseState, policy: Policy.MerchantPolicyRow, rows: seq<Row>)
    requires Inv(c, policy) && c.analysis.Computing? && GoodRun(rows)
    ensures Inv(c.(runs := c.runs + [rows], currentRun := Some(|c.runs|), analysis := RunStored(|c.runs|)), policy)
  {
    assert AllBefore(c.actions, |c.runs|);
  }

  lemma StoreRunKeeps(c: CaseState, policy: Policy.MerchantPolicyRow, inputs: Analysis.AnalysisInputs, at: int)
    requires Inv(c, policy)
    ensures Inv(StoreRun(c, policy, inputs, at), policy)
  {
    if c.analysis.Computing? {
      AnalysisDies(c, policy);
      FailAnalysisKeeps(c, policy, at);
      var r := Analysis.Compute(inputs, c.amountAtRisk, |c.actions|, Policy.FromMerchantRow(policy),
                                c.analysis.excluded);
      if r.Success? {
        StoredRunIsGood(c, policy, inputs, c.analysis.excluded, r.value);
        RunAppended(c, policy, Persist(r.value));
      }
    }
  }

  lemma CompleteAnalysisKeeps(c: CaseState, policy: Policy.MerchantPolicyRow, at: int)
    requires Inv(c, policy)
    ensures Inv(CompleteAnalysis(c, at), policy)
  {
    if c.analysis.RunStored? {
      AnalysisDies(c, policy);
      CompletedRun(c, policy, ContextAt(at).(analysisRun := Some(c.analysis.run), reason := "ANALYSIS"));
    }
  }

  lemma CompletedRun(c: CaseState, policy: Policy.MerchantPolicyRow, ctx: TransitionContext)
    requires Inv(c, policy) && c.analysis.RunStored?
    ensures var done := c.(analysis := NoAnalysis);
            var r := Transition(done, done.version, AnalysisCompleted, ctx);
            r.Success? ==> Inv(r.value, policy)
  {
    var done := c.(analysis := NoAnalysis);
    var r := Transition(done, done.version, AnalysisCompleted, ctx);
    if r.Success? {
      ProcessesAreNotStatic(c, policy, NoAnalysis, c.executor);
      MoveKeepsStatic(done, policy, AnalysisCompleted, ctx, r.value);
      ClosedBefore(c);
      RecommendedDynamic(r.value);
    }
  }
}
