/** The analysis workflow: enter ANALYZING, compute, persist, complete, each its own commit. */
module AnalysisWorkflow {
  import opened Domain
  import opened Registry
  import opened Selection
  import opened Cases
  import opened Protocol
  import opened Persistence
  import opened StateMachine
  import Analysis
  import Candidates
  import Policy
  import Ranking
  import Text

  /** An analysis carried through; without the case's data, or a model, it ends the case. */
  function Analyzed(c: CaseState, policy: Policy.MerchantPolicyRow, inputs: Option<Analysis.AnalysisInputs>, at: int)
    : CaseState
  {
    match inputs
    case None => FailAnalysis(c, at)
    case Some(i) => CompleteAnalysis(StoreRun(c, policy, i, at), at)
  }

  /** The case ended by a failed analysis. */
  function FailedBy(c: CaseState, at: int): CaseState {
    c.(status := Failed, version := c.version + 1, resolvedAt := Some(at), analysis := NoAnalysis,
       audits := c.audits + [Transitioned(AnalysisTerminalFailure, Analyzing, Failed, c.version, c.version + 1)])
  }

  /** A failed analysis ends a case that is still ANALYZING, and lets go of any other. */
  lemma FailsExactly(c: CaseState, at: int)
    requires c.analysis.Computing?
    ensures FailAnalysis(c, at) == if c.status == Analyzing then FailedBy(c, at) else c.(analysis := NoAnalysis)
  {
    Text.BlankExactly("ANALYSIS_FAILED");
    assert !Text.IsSpace("ANALYSIS_FAILED"[0]);
  }

  class RecoveryAnalysisWorkflowService {
    const session: Session
    const policy: Policy.MerchantPolicyRow

    constructor (session: Session, policy: Policy.MerchantPolicyRow)
      ensures this.session == session && this.policy == policy
    {
      this.session := session;
      this.policy := policy;
    }

    /** Ends the phase: the process lets go of the case. */
    method LetGo(id: nat)
      requires session.Clean() && id < |session.working.cases|
      modifies session
      ensures session.Holds(old(session.committed), id, old(session.committed).cases[id].(analysis := NoAnalysis))
    {
      session.Put(id, session.working.cases[id].(analysis := NoAnalysis));
      session.Commit();
    }

    /** ANALYZING to FAILED, unless the case has moved on meanwhile. */
    method FinalizeTerminalAnalysisFailure(id: nat, at: int) returns (applied: bool)
      requires session.Clean() && id < |session.working.cases| && session.working.cases[id].analysis.Computing?
      modifies session
      ensures session.Holds(old(session.committed), id, FailAnalysis(old(session.committed).cases[id], at))
      ensures applied <==> old(session.committed).cases[id].status == Analyzing
      ensures applied ==> session.committed.cases[id] == FailedBy(old(session.committed).cases[id], at)
    {
      FailsExactly(session.committed.cases[id], at);
      LetGo(id);
      var c := session.working.cases[id];
      if c.status != Analyzing {
        return false;
      }
      var moved := MoveOrRollback(session, id, c, c.version, AnalysisTerminalFailure,
                                  ContextAt(at).(reason := "ANALYSIS_FAILED"));
      return moved.Success?;
    }

    /** Computes, stores the rows of a new run and makes it current. */
    method PersistAnalysis(id: nat, inputs: Analysis.AnalysisInputs, at: int)
      requires session.Clean() && id < |session.working.cases| && session.working.cases[id].analysis.Computing?
      modifies session
      ensures session.Holds(old(session.committed), id, StoreRun(old(session.committed).cases[id], policy, inputs, at))
    {
      var c := session.working.cases[id];
      var computed := Analysis.ComputeAnalysis(inputs, c.amountAtRisk, |c.actions|, Policy.FromMerchantRow(policy),
                                               c.analysis.excluded);
      match computed {
        case Success(ranked) =>
          var run := |c.runs|;
          session.Put(id, c.(runs := c.runs + [Persist(ranked)], currentRun := Some(run), analysis := RunStored(run)));
          session.Commit();
        case Failure(error) =>
          if error.ModelUnavailable? {
            var applied := FinalizeTerminalAnalysisFailure(id, at);
          } else {
            LetGo(id);
          }
      }
    }

    /** Moves the case to RECOMMENDED on the run just stored, if it is still where the analysis left it. */
    method Complete(id: nat, at: int)
      requires session.Clean() && id < |session.working.cases| && session.working.cases[id].analysis.RunStored?
      modifies session
      ensures session.Holds(old(session.committed), id, CompleteAnalysis(old(session.committed).cases[id], at))
    {
      var run := session.working.cases[id].analysis.run;
      LetGo(id);
      var c := session.working.cases[id];
      var moved := MoveOrRollback(session, id, c, c.version, AnalysisCompleted,
                                  ContextAt(at).(analysisRun := Some(run), reason := "ANALYSIS"));
    }

    method RunAnalysis(id: nat, inputs: Option<Analysis.AnalysisInputs>, at: int)
      requires session.Clean() && id < |session.working.cases| && session.working.cases[id].analysis.Computing?
      modifies session
      ensures session.Holds(old(session.committed), id, Analyzed(old(session.committed).cases[id], policy, inputs, at))
    {
      if inputs.None? {
        var applied := FinalizeTerminalAnalysisFailure(id, at);
        return;
      }
      PersistAnalysis(id, inputs.value, at);
      if session.working.cases[id].analysis.RunStored? {
        Complete(id, at);
      }
    }

    method AnalyzeRecoveryCase(id: nat, reason: AnalysisReason, inputs: Option<Analysis.AnalysisInputs>, at: int)
      returns (r: Result<CaseState, ServiceError>)
      requires session.Clean()
      modifies session
      ensures id >= |old(session.committed).cases| ==> r == Failure(CaseNotFound)
      ensures id < |old(session.committed).cases| ==>
                var begun := BeginAnalysis(old(session.committed).cases[id], reason, at);
                && (begun.Failure? ==> r == begun)
                && (begun.Success? ==> r == Success(Analyzed(begun.value, policy, inputs, at)))
      ensures r.Success? ==> session.Holds(old(session.committed), id, r.value)
      ensures r.Failure? ==> session.Clean() && session.committed == old(session.committed)
    {
      if id >= |session.working.cases| {
        return Failure(CaseNotFound);
      }
      var c := session.working.cases[id];
      var entry := EntryEvent(c.status, reason);
      if entry.None? {
        return Failure(AnalysisNotAllowed);
      }
      var entered := MoveOrRollback(session, id, c.(analysis := Computing({})), c.version, entry.value,
                                    EntryContext(entry.value, at));
      EnteredBeforeMoving(c, reason, at);
      if entered.Failure? {
        return Failure(WorkflowFailed(entered.error));
      }
      RunAnalysis(id, inputs, at);
      return Success(session.working.cases[id]);
    }

    /** Analysis of a case that a rejection already moved to ANALYZING. */
    method CompleteImmediateReanalysis(id: nat, inputs: Option<Analysis.AnalysisInputs>, at: int)
      returns (r: Result<CaseState, ServiceError>)
      requires session.Clean()
      requires id < |session.working.cases| ==> session.working.cases[id].analysis.Computing?
      modifies session
      ensures id >= |old(session.committed).cases| ==>
                r == Failure(CaseNotFound) && session.committed == old(session.committed)
      ensures id < |old(session.committed).cases| ==>
                var c := old(session.committed).cases[id];
                if c.status == Analyzing
                then r.Success? && session.Holds(old(session.committed), id, Analyzed(c, policy, inputs, at))
                else && r == Failure(AnalysisNotAllowed)
                     && session.Holds(old(session.committed), id, c.(analysis := NoAnalysis))
    {
      if id >= |session.working.cases| {
        return Failure(CaseNotFound);
      }
      if session.working.cases[id].status != Analyzing {
        LetGo(id);
        return Failure(AnalysisNotAllowed);
      }
      RunAnalysis(id, inputs, at);
      return Success(session.working.cases[id]);
    }
  }

  lemma EnteredBeforeMoving(c: CaseState, reason: AnalysisReason, at: int)
    requires EntryEvent(c.status, reason).Some?
    ensures var event := EntryEvent(c.status, reason).value;
            var entered := Transition(c.(analysis := Computing({})), c.version, event, EntryContext(event, at));
            && Lift(entered) == BeginAnalysis(c, reason, at)
            && (entered.Success? ==> entered.value.analysis == Computing({}))
  {
  }

  /** With the case's data and a usable model, an uninterrupted analysis ends in RECOMMENDED on a run of its own. */
  lemma AnalysisRecommends(c: CaseState, policy: Policy.MerchantPolicyRow, inputs: Analysis.AnalysisInputs, at: int)
    requires c.status == Analyzing && c.analysis.Computing?
    requires Analysis.Compute(inputs, c.amountAtRisk, |c.actions|, Policy.FromMerchantRow(policy),
                              c.analysis.excluded).Success?
    ensures var d := Analyzed(c, policy, Some(inputs), at);
            && d.status == Recommended && d.currentRun == Some(|c.runs|) && |d.runs| == |c.runs| + 1
            && SelectCandidateRow(d.runs[|c.runs|]).Some?
            && var selected := SelectCandidateRow(d.runs[|c.runs|]).value;
               selected.action == Stop || selected.action !in c.analysis.excluded
  {
    var config := Policy.FromMerchantRow(policy);
    var ranked := Analysis.Compute(inputs, c.amountAtRisk, |c.actions|, config, c.analysis.excluded).value;
    StoredSelection(inputs, c.amountAtRisk, |c.actions|, config, c.analysis.excluded, ranked);
    StoresRun(c, policy, inputs, at, ranked);
    CompletesStored(StoreRun(c, policy, inputs, at), at);
  }

  lemma StoresRun(c: CaseState, policy: Policy.MerchantPolicyRow, inputs: Analysis.AnalysisInputs, at: int,
                  ranked: seq<Ranking.Ranked>)
    requires c.analysis.Computing?
    requires Analysis.Compute(inputs, c.amountAtRisk, |c.actions|, Policy.FromMerchantRow(policy), c.analysis.excluded)
          == Success(ranked)
    ensures StoreRun(c, policy, inputs, at)
         == c.(runs := c.runs + [Persist(ranked)], currentRun := Some(|c.runs|), analysis := RunStored(|c.runs|))
  {
  }

  lemma StoredSelection(inputs: Analysis.AnalysisInputs, amount: nat, attempts: nat, config: Policy.PolicyConfig,
                        excluded: set<ActionType>, ranked: seq<Ranking.Ranked>)
    requires Analysis.Compute(inputs, amount, attempts, config, excluded) == Success(ranked)
    ensures SelectCandidateRow(Persist(ranked)).Some?
    ensures var action := SelectCandidateRow(Persist(ranked)).value.action; action == Stop || action !in excluded
  {
    Analysis.AnalysisSelects(inputs, amount, attempts, config, excluded);
    Analysis.ExecutorAgreesWithAnalysis(inputs, amount, attempts, config, excluded, ranked, Persist(ranked));
  }

  lemma CompletesStored(c: CaseState, at: int)
    requires c.status == Analyzing && c.analysis.RunStored?
    ensures var d := CompleteAnalysis(c, at);
            d == c.(status := Recommended, version := d.version, audits := d.audits, analysis := NoAnalysis)
  {
  }

  // ------------------------------------------------------------ entry and end

  /** From each of three statuses one reason leads into ANALYZING, and nothing else does. */
  lemma EntersExactly(c: CaseState, reason: AnalysisReason, at: int)
    ensures BeginAnalysis(c, reason, at).Success?
       <==> || (c.status == Detected && reason == ManualAnalysis)
            || (c.status == Scheduled && reason == ScheduledReevaluation)
            || (c.status == WaitingForOutcome && reason == NewProviderEvidence)
    ensures BeginAnalysis(c, reason, at).Success? ==>
              var event := if c.status == Detected then AnalysisRequested
                           else if c.status == Scheduled then ReevaluationDue else NegativeOutcomeOrTimeout;
              BeginAnalysis(c, reason, at).value
              == c.(status := Analyzing, version := c.version + 1, analysis := Computing({}),
                    audits := c.audits + [Transitioned(event, c.status, Analyzing, c.version, c.version + 1)])
    ensures BeginAnalysis(c, reason, at).Failure? ==> BeginAnalysis(c, reason, at).error == AnalysisNotAllowed
  {
    if EntryEvent(c.status, reason).Some? {
      EntryMoves(c, EntryEvent(c.status, reason).value, at);
    }
  }

  lemma EntryMoves(c: CaseState, event: Event, at: int)
    requires (c.status == Detected && event == AnalysisRequested) || (c.status == Scheduled && event == ReevaluationDue)
             || (c.status == WaitingForOutcome && event == NegativeOutcomeOrTimeout)
    ensures Transition(c, c.version, event, EntryContext(event, at))
         == Success(c.(status := Analyzing, version := c.version + 1,
                       audits := c.audits + [Transitioned(event, c.status, Analyzing, c.version, c.version + 1)]))
  {
    ReasonIsGiven();
  }

  lemma ReasonIsGiven()
    ensures Text.Strip("ANALYSIS") != ""
  {
    Text.BlankExactly("ANALYSIS");
    assert !Text.IsSpace("ANALYSIS"[0]);
  }

  /** No case data, or no model and no fallback. */
  predicate CannotStart(inputs: Option<Analysis.AnalysisInputs>) {
    inputs.None? || (inputs.value.inference.ModelFailure? && !inputs.value.allowFallback)
  }

  predicate Usable(inputs: Option<Analysis.AnalysisInputs>, excluded: set<ActionType>) {
    inputs.Some? && Analysis.UsableInference(inputs.value, excluded)
  }

  /** The case with these rows stored as its new current run. */
  function RecommendedBy(c: CaseState, rows: seq<Row>): CaseState {
    c.(status := Recommended, version := c.version + 1, runs := c.runs + [rows], currentRun := Some(|c.runs|),
       analysis := NoAnalysis,
       audits := c.audits + [Transitioned(AnalysisCompleted, Analyzing, Recommended, c.version, c.version + 1)])
  }

  lemma UsableEndsRecommended(c: CaseState, policy: Policy.MerchantPolicyRow, inputs: Analysis.AnalysisInputs, at: int,
                              ranked: seq<Ranking.Ranked>)
    requires c.status == Analyzing && c.analysis.Computing?
    requires Analysis.Compute(inputs, c.amountAtRisk, |c.actions|, Policy.FromMerchantRow(policy), c.analysis.excluded)
          == Success(ranked)
    ensures Analyzed(c, policy, Some(inputs), at) == RecommendedBy(c, Persist(ranked))
  {
    StoresRun(c, policy, inputs, at, ranked);
    StoredEndsRecommended(c, StoreRun(c, policy, inputs, at), Persist(ranked), at);
  }

  lemma StoredEndsRecommended(c: CaseState, stored: CaseState, rows: seq<Row>, at: int)
    requires c.status == Analyzing
    requires stored == c.(runs := c.runs + [rows], currentRun := Some(|c.runs|), analysis := RunStored(|c.runs|))
    ensures CompleteAnalysis(stored, at) == RecommendedBy(c, rows)
  {
    CompletesExactly(stored, at);
  }

  lemma CompletesExactly(c: CaseState, at: int)
    requires c.analysis.RunStored?
    ensures CompleteAnalysis(c, at)
         == if c.status != Analyzing then c.(analysis := NoAnalysis)
            else c.(status := Recommended, version := c.version + 1, analysis := NoAnalysis,
                    audits := c.audits + [Transitioned(AnalysisCompleted, Analyzing, Recommended,
                                                       c.version, c.version + 1)])
  {
  }

  lemma UnusableEnds(c: CaseState, policy: Policy.MerchantPolicyRow, inputs: Analysis.AnalysisInputs, at: int)
    requires c.status == Analyzing && c.analysis.Computing?
    requires Analysis.Compute(inputs, c.amountAtRisk, |c.actions|, Policy.FromMerchantRow(policy),
                              c.analysis.excluded).Failure?
    ensures Analyzed(c, policy, Some(inputs), at)
         == if CannotStart(Some(inputs)) then FailedBy(c, at) else c.(analysis := NoAnalysis)
  {
    FailsExactly(c, at);
    FailureKind(inputs, c.amountAtRisk, |c.actions|, Policy.FromMerchantRow(policy), c.analysis.excluded);
  }

  lemma FailureKind(inputs: Analysis.AnalysisInputs, amount: nat, attempts: nat, config: Policy.PolicyConfig,
                    excluded: set<ActionType>)
    requires Analysis.Compute(inputs, amount, attempts, config, excluded).Failure?
    ensures Analysis.Compute(inputs, amount, attempts, config, excluded).error == Analysis.ModelUnavailable
       <==> CannotStart(Some(inputs))
  {
    Analysis.AnalysisFinishes(inputs, amount, attempts, config, excluded);
    var actions := Candidates.AfterExclusions(Analysis.BuildContext(inputs), excluded);
    if inputs.inference.ModelScores? {
      NeverUnavailable(inputs, amount, attempts, config, inputs.inference.scores, actions);
    }
  }

  lemma {:induction false} NeverUnavailable(inputs: Analysis.AnalysisInputs, amount: nat, attempts: nat,
                                            config: Policy.PolicyConfig, scores: map<ActionType, real>,
                                            actions: seq<ActionType>)
    ensures var r := Analysis.BuildAll(inputs, amount, attempts, config, scores, actions);
            r.Failure? ==> r.error != Analysis.ModelUnavailable
  {
    if actions != [] {
      NeverUnavailable(inputs, amount, attempts, config, scores, actions[..|actions| - 1]);
    }
  }

  /**
   * Where an uninterrupted analysis leaves a case: FAILED exactly when it could
   * not start, RECOMMENDED on a new run exactly when the scores are usable, and
   * else, with scores that are no probabilities, ANALYZING as it was.
   */
  lemma AnalysisEndsExactly(c: CaseState, policy: Policy.MerchantPolicyRow, inputs: Option<Analysis.AnalysisInputs>,
                            at: int)
    requires c.status == Analyzing && c.analysis.Computing?
    ensures var d := Analyzed(c, policy, inputs, at);
            var config := Policy.FromMerchantRow(policy);
            && (d.status == Failed <==> CannotStart(inputs))
            && (d.status == Recommended <==> Usable(inputs, c.analysis.excluded))
            && (CannotStart(inputs) ==> d == FailedBy(c, at))
            && (Usable(inputs, c.analysis.excluded) ==>
                  var r := Analysis.Compute(inputs.value, c.amountAtRisk, |c.actions|, config, c.analysis.excluded);
                  r.Success? && d == RecommendedBy(c, Persist(r.value)))
            && (!CannotStart(inputs) && !Usable(inputs, c.analysis.excluded) ==> d == c.(analysis := NoAnalysis))
  {
    FailsExactly(c, at);
    if inputs.Some? {
      var config := Policy.FromMerchantRow(policy);
      var r := Analysis.Compute(inputs.value, c.amountAtRisk, |c.actions|, config, c.analysis.excluded);
      Analysis.AnalysisFinishes(inputs.value, c.amountAtRisk, |c.actions|, config, c.analysis.excluded);
      if r.Success? {
        UsableEndsRecommended(c, policy, inputs.value, at, r.value);
      } else {
        UnusableEnds(c, policy, inputs.value, at);
      }
    }
  }
}
