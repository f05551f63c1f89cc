/** Agents that keep revising: what the revision counter counts, and when it ends a run. */
module RevisionRuns {
  import opened Prelude
  import opened Recovery
  import opened Stopping
  import opened Gates
  import opened AgentLoop
  import opened AgentRuns
  import opened AgentBudgets
  import opened FinishTurns
  import opened LastValidation
  import opened LogCounts
  import opened StopReasons
  import opened AttemptRuns

  predicate Mutates(invocations: seq<Invocation>) {
    exists i :: 0 <= i < |invocations| && IsMutation(invocations[i].call)
  }

  /** No validation among the calls leaves a trace. */
  predicate Untraced(invocations: seq<Invocation>) {
    forall i :: 0 <= i < |invocations| ==> !Tracked(ToolEvent(0, invocations[i].call, invocations[i].outcome))
  }

  /** The agent calls a mutation tool, and no validation that leaves a trace. */
  predicate Revising(t: Turn) { Mutates(t.invocations) && Untraced(t.invocations) }

  function Revisions(r: Recovery): nat { if r.active.Some? then r.active.value.revisions else 0 }

  /** What calls without a traced validation do to an active issue: the first mutation of the turn counts. */
  predicate Revised(r: Recovery, next: Recovery, mutated: bool, turn: nat) {
    && r.active.Some? && SameIssueCount(r.active, next.active) && Deferrals(next) == Deferrals(r)
    && Revisions(next) == Revisions(r) + (if mutated && r.lastRevision != Some(turn) then 1 else 0)
    && next.lastRevision == (if mutated then Some(turn) else r.lastRevision) && next.budgets == r.budgets
  }

  lemma RevisionStep(r: Recovery, call: Call, result: ToolResult, turn: nat)
    requires r.active.Some? && !IsFinish(call) && !Tracked(ToolEvent(0, call, result))
    ensures Revised(r, NoteCorrective(RecordTool(r, call, result, turn), turn), IsMutation(call), turn)
    ensures Revised(r, RecordTool(r, call, result, turn), IsMutation(call), turn)
  {
    hide EvidenceOf, PhaseOf, IsRecoverable, IssueKindOf, RecordMutation, RecordSuccess, RecordFailure;
    var seen := if IsMutation(call) then RecordMutation(r, turn) else r;
    RevisionNoted(r, turn);
    SuccessCounts(seen, call, turn);
    FailureCounts(seen, call, result, turn);
    if IsValidation(call) {
      UnrecoverableValidationLeavesNoTrace(r, call, result, turn);
      assert !IsMutation(call);
    } else {
      RevisionKept(seen, call, result, turn);
    }
    ToolFacts(r, call, result, turn);
  }

  lemma RevisionNoted(r: Recovery, turn: nat)
    requires r.active.Some?
    ensures Revised(r, RecordMutation(r, turn), true, turn)
  {
  }

  lemma RevisionKept(r: Recovery, call: Call, result: ToolResult, turn: nat)
    requires !IsValidation(call)
    ensures RecordSuccess(r, call, turn).lastRevision == r.lastRevision
    ensures RecordFailure(r, call, result, turn).lastRevision == r.lastRevision
  {
    hide EvidenceOf, PhaseOf;
  }

  lemma RevisedTwice(a: Recovery, b: Recovery, c: Recovery, first: bool, second: bool, turn: nat)
    requires Revised(a, b, first, turn) && Revised(b, c, second, turn)
    ensures Revised(a, c, first || second, turn)
  {
  }

  lemma RevisedReading(a: Recovery, b: Recovery, c: Recovery, mutated: bool, turn: nat)
    requires Revised(a, b, mutated, turn) && SameFacts(b, c)
    ensures Revised(a, c, mutated, turn)
  {
  }

  lemma {:induction false} InvokeAllRevises(w: Working, invocations: seq<Invocation>, turn: nat)
    requires w.recovery.active.Some? && Untraced(invocations)
    ensures Revised(w.recovery, InvokeAll(w, invocations, turn).recovery, Mutates(invocations), turn)
  {
    hide RecordTool, AfterCheck, Revised, Tracked;
    if invocations == [] {
      NotRevised(w.recovery, turn);
    } else {
      var init, inv := invocations[..|invocations| - 1], invocations[|invocations| - 1];
      InvokeAllRevises(w, init, turn);
      var before := InvokeAll(w, init, turn);
      assert Mutates(invocations) <==> Mutates(init) || IsMutation(inv.call);
      StillActive(w.recovery, before.recovery, Mutates(init), turn);
      if IsFinish(inv.call) {
        CheckKeepsFacts(before.recovery, PolicyOf(before.progress, turn));
        RevisedReading(w.recovery, before.recovery, AfterCheck(before.recovery, PolicyOf(before.progress, turn)),
                       Mutates(init), turn);
        assert !IsMutation(inv.call);
      } else {
        RevisionStep(before.recovery, inv.call, inv.outcome, turn);
        RevisedTwice(w.recovery, before.recovery, InvokeAll(w, invocations, turn).recovery, Mutates(init),
                     IsMutation(inv.call), turn);
      }
    }
  }

  lemma NotRevised(r: Recovery, turn: nat)
    requires r.active.Some?
    ensures Revised(r, r, false, turn)
  {
  }

  lemma StillActive(a: Recovery, b: Recovery, mutated: bool, turn: nat)
    requires Revised(a, b, mutated, turn)
    ensures b.active.Some?
  {
  }

  /** One revising turn of an agent with an active issue fails for the revision budget if that was reached, else
      for the turn limit if it is the last, and goes on otherwise with one more revision counted. */
  lemma RevisingTurn(a: Agent, t: Turn, maxTurns: nat)
    requires Revising(t) && AtRest(a.work.recovery, a.turn) && a.work.recovery.active.Some?
    ensures var r, next := a.work.recovery, TakeTurn(a, t, maxTurns);
      && next.turn == a.turn + 1
      && LastReason(next) == (if Revisions(r) >= r.budgets.revisions then Some(BudgetStop(RevisionBudget))
                              else if a.turn + 1 >= maxTurns then Some(MaxTurnsStop) else None)
      && next.status == (if LastReason(next).Some? then Failed else Running)
      && SameIssueCount(r.active, next.work.recovery.active) && Deferrals(next.work.recovery) == Deferrals(r)
      && Revisions(next.work.recovery) == Revisions(r) + 1 && next.work.recovery.budgets == r.budgets
      && (next.status == Running ==> AtRest(next.work.recovery, next.turn))
  {
    hide Judge, AfterAssess, AfterParse, InvokeAll, Exhausted, Assess, AtRest, SameButCharged, EnsureIssue,
         NoteDeferral, Revised, Tracked;
    var turn, r := a.turn + 1, a.work.recovery;
    var parsed, worked := AfterParse(a.work, t, turn), AfterTools(a.work, t, turn);
    var policy := PolicyOf(worked.progress, turn);
    var judged := AfterAssess(worked.recovery, policy);
    ParseKeepsIssue(a.work, t, turn);
    InvokeAllRevises(parsed, t.invocations, turn);
    TurnJudged(a, t, maxTurns);
    RevisedReading(parsed.recovery, worked.recovery, judged, true, turn);
    RevisedExhausted(r, a.turn, parsed.recovery, judged);
    CallsMutate(t);
    ReasonsExactly(judged, CallsIn(t), t.errors, turn, maxTurns, policy);
    StopsWithReason(judged, CallsIn(t), t.errors, turn, maxTurns, policy);
    JudgeOfOthers(judged, CallsIn(t), t.errors, turn, maxTurns, policy);
    RevisedReading(parsed.recovery, judged, TakeTurn(a, t, maxTurns).work.recovery, true, turn);
    RevisedOnce(r, a.turn, parsed.recovery, TakeTurn(a, t, maxTurns).work.recovery);
    TurnBounds(a, t, maxTurns);
    AllReasons(LastReason(TakeTurn(a, t, maxTurns)));
  }

  lemma CallsMutate(t: Turn)
    requires Mutates(t.invocations)
    ensures CallsOther(CallsIn(t)) && CallsIn(t) != []
  {
    var i :| 0 <= i < |t.invocations| && IsMutation(t.invocations[i].call);
    assert !IsFinish(CallsIn(t)[i]);
  }

  lemma RevisedExhausted(r: Recovery, turn: nat, parsed: Recovery, judged: Recovery)
    requires AtRest(r, turn) && r.active.Some? && parsed.active == r.active && parsed.budgets == r.budgets
    requires parsed.lastRevision == r.lastRevision && Revised(parsed, judged, true, turn + 1)
    ensures Exhausted(judged) == if Revisions(r) >= r.budgets.revisions then Some(RevisionBudget) else None
  {
  }

  lemma RevisedOnce(r: Recovery, turn: nat, parsed: Recovery, next: Recovery)
    requires AtRest(r, turn) && r.active.Some? && parsed.active == r.active && parsed.budgets == r.budgets
    requires parsed.lastRevision == r.lastRevision && Revised(parsed, next, true, turn + 1)
    ensures SameIssueCount(r.active, next.active) && Deferrals(next) == Deferrals(r)
    ensures Revisions(next) == Revisions(r) + 1 && next.budgets == r.budgets
  {
  }

  /** Calls other than finish are not charged: the state stays as it was. */
  lemma JudgeOfOthers(r: Recovery, calls: seq<Call>, errors: nat, turn: nat, maxTurns: nat, policy: Policy)
    requires CallsOther(calls) && calls != []
    ensures SameFacts(r, Judge(r, calls, errors, turn, maxTurns, policy).state)
  {
    hide Reported, Exhausted, Refreshed, Completion;
    var facts := Refreshed(r);
    ReadingKeepsFacts(r, policy);
    ReportKeepsFacts(facts, true, Some(MaxTurnsStop), MaxTurnsReached, None, None);
    ReportKeepsFacts(facts, false, None, ContinueWithTools, None, None);
    SameFactsChain(r, facts, Reported(facts, true, Some(MaxTurnsStop), MaxTurnsReached, None, None).state);
    SameFactsChain(r, facts, Reported(facts, false, None, ContinueWithTools, None, None).state);
    if Exhausted(facts).Some? {
      var b := Exhausted(facts).value;
      ReportKeepsFacts(facts, true, Some(BudgetStop(b)), BudgetExhausted(b), None, None);
      SameFactsChain(r, facts, Reported(facts, true, Some(BudgetStop(b)), BudgetExhausted(b), None, None).state);
    }
  }

  /** Any number of revising turns of an agent with an active issue: the run goes on exactly while the turn
      limit is not reached and the issue has seen no more revisions than its budget allows. */
  lemma {:induction false} RevisionsExactly(a: Agent, turns: seq<Turn>, maxTurns: nat)
    requires a.status == Running && AtRest(a.work.recovery, a.turn) && a.work.recovery.active.Some?
    requires a.turn < maxTurns && forall i :: 0 <= i < |turns| ==> Revising(turns[i])
    ensures var r, end, n := a.work.recovery, RunAgent(a, turns, maxTurns), |turns|;
      && (end.status == Running <==> a.turn + n < maxTurns && Revisions(r) + n <= r.budgets.revisions)
      && (end.status == Running || end.status == Failed)
      && (end.status == Failed ==>
            LastReason(end) == Some(if r.budgets.revisions + 1 - Revisions(r) <= maxTurns - a.turn
                                    then BudgetStop(RevisionBudget) else MaxTurnsStop))
      && (end.status == Running ==>
            && end.turn == a.turn + n && AtRest(end.work.recovery, end.turn)
            && SameIssueCount(r.active, end.work.recovery.active) && end.work.recovery.budgets == r.budgets
            && Revisions(end.work.recovery) == Revisions(r) + n)
  {
    hide TakeTurn, AtRest, Revising;
    var n := |turns|;
    if n == 0 {
      WithinRevisions(a.work.recovery, a.turn);
    } else {
      RevisionsExactly(a, turns[..n - 1], maxTurns);
      var before := RunAgent(a, turns[..n - 1], maxTurns);
      if before.status == Running {
        RevisingTurn(before, turns[n - 1], maxTurns);
      }
    }
  }

  lemma WithinRevisions(r: Recovery, turn: nat)
    requires AtRest(r, turn)
    ensures Revisions(r) <= r.budgets.revisions
  {
  }

  /** Over runs: an agent with an active issue that from then on only revises. */
  lemma RevisionBudgetExactly(required: bool, budgets: Budgets, turns: seq<Turn>, more: seq<Turn>, maxTurns: nat)
    requires maxTurns >= 1
    requires var a := RunAgent(Start(required, budgets), turns, maxTurns);
      a.status == Running && a.work.recovery.active.Some?
    requires forall i :: 0 <= i < |more| ==> Revising(more[i])
    ensures var a, end := RunAgent(Start(required, budgets), turns, maxTurns),
                          RunAgent(Start(required, budgets), turns + more, maxTurns);
      && (end.status == Running <==>
            a.turn + |more| < maxTurns && Revisions(a.work.recovery) + |more| <= budgets.revisions)
      && (end.status != Running ==>
            LastReason(end) == Some(if budgets.revisions + 1 - Revisions(a.work.recovery) <= maxTurns - a.turn
                                    then BudgetStop(RevisionBudget) else MaxTurnsStop))
  {
    hide TakeTurn, AtRest, Bounded, Revising;
    var start := Start(required, budgets);
    CountersStayBounded(required, budgets, turns, maxTurns);
    BudgetsKept(required, budgets, turns, maxTurns);
    RunOfConcat(start, turns, more, maxTurns);
    RevisionsExactly(RunAgent(start, turns, maxTurns), more, maxTurns);
  }

  // ----- Revise or revalidate -----

  /** While a validation failure is pending, its issue is active, and the last revision is noted after the
      failure exactly if a mutation tool was called in a later turn. */
  ghost predicate RevisionDated(r: Recovery, turn: nat) {
    && NotAfter(r.lastRevision, turn) && NotAfter(r.lastMutation, turn) && NotAfter(r.lastFailure, turn)
    && (r.pending == Some(ValidationFailurePending) ==>
          && r.active.Some? && r.lastFailure.Some?
          && (LaterThan(r.lastRevision, r.lastFailure.value) <==> LaterThan(r.lastMutation, r.lastFailure.value)))
  }

  predicate LaterThan(when: Option<nat>, turn: nat) { when.Some? && when.value > turn }

  lemma MutationDated(r: Recovery, turn: nat)
    requires RevisionDated(r, turn)
    ensures RevisionDated(RecordMutation(r, turn), turn)
  {
  }

  lemma SuccessDated(r: Recovery, call: Call, turn: nat)
    requires RevisionDated(r, turn)
    ensures RevisionDated(RecordSuccess(r, call, turn), turn)
  {
    hide RecordSuccess;
    PendingAfterSuccess(r, call, turn);
    SuccessFacts(r, call, turn);
    SuccessCounts(r, call, turn);
  }

  lemma PendingAfterSuccess(r: Recovery, call: Call, turn: nat)
    ensures var next := RecordSuccess(r, call, turn);
      && next.lastRevision == r.lastRevision
      && (next.pending == Some(ValidationFailurePending) ==>
            r.pending == Some(ValidationFailurePending) && !IsValidation(call))
  {
    hide EvidenceOf, PhaseOf;
  }

  lemma FailureDated(r: Recovery, call: Call, result: ToolResult, turn: nat)
    requires RevisionDated(r, turn)
    ensures RevisionDated(RecordFailure(r, call, result, turn), turn)
  {
    hide RecordFailure;
    PendingAfterFailure(r, call, result, turn);
    FailureFacts(r, call, result, turn);
    FailureCounts(r, call, result, turn);
  }

  lemma PendingAfterFailure(r: Recovery, call: Call, result: ToolResult, turn: nat)
    ensures var next := RecordFailure(r, call, result, turn);
      next.lastRevision == r.lastRevision && (next.pending == Some(ValidationFailurePending) <==> IsValidation(call))
  {
    hide EvidenceOf, PhaseOf, IssueKindOf;
  }

  lemma ToolDated(r: Recovery, call: Call, result: ToolResult, turn: nat)
    requires RevisionDated(r, turn)
    ensures RevisionDated(NoteCorrective(RecordTool(r, call, result, turn), turn), turn)
    ensures RevisionDated(RecordTool(r, call, result, turn), turn)
  {
    hide RecordMutation, RecordSuccess, RecordFailure, IsRecoverable;
    var seen := if IsMutation(call) then RecordMutation(r, turn) else r;
    MutationDated(r, turn);
    SuccessDated(seen, call, turn);
    FailureDated(seen, call, result, turn);
  }

  lemma ChargedDated(a: Recovery, b: Recovery, turn: nat)
    requires SameButCharged(a, b) && RevisionDated(a, turn)
    ensures RevisionDated(b, turn)
  {
  }

  lemma {:induction false} InvokeAllDated(w: Working, invocations: seq<Invocation>, turn: nat)
    requires RevisionDated(w.recovery, turn)
    ensures RevisionDated(InvokeAll(w, invocations, turn).recovery, turn)
  {
    hide RecordTool, AfterCheck, RevisionDated, SameButCharged;
    if invocations != [] {
      var init, inv := invocations[..|invocations| - 1], invocations[|invocations| - 1];
      InvokeAllDated(w, init, turn);
      var before := InvokeAll(w, init, turn);
      if IsFinish(inv.call) {
        CheckKeepsFacts(before.recovery, PolicyOf(before.progress, turn));
        FactsCharged(before.recovery, AfterCheck(before.recovery, PolicyOf(before.progress, turn)));
        ChargedDated(before.recovery, AfterCheck(before.recovery, PolicyOf(before.progress, turn)), turn);
      } else {
        ToolDated(before.recovery, inv.call, inv.outcome, turn);
      }
    }
  }

  lemma ParseDated(w: Working, t: Turn, turn: nat)
    requires RevisionDated(w.recovery, turn)
    ensures RevisionDated(AfterParse(w, t, turn + 1).recovery, turn + 1)
  {
    hide AfterParse;
    ParseKeepsIssue(w, t, turn + 1);
    ParseKeepsEvidence(w, t, turn + 1);
    ParseKeepsDates(w, t, turn + 1);
    PendingAfterParse(w, t, turn + 1);
  }

  lemma PendingAfterParse(w: Working, t: Turn, turn: nat)
    ensures AfterParse(w, t, turn).recovery.pending == Some(ValidationFailurePending) ==>
      w.recovery.pending == Some(ValidationFailurePending)
  {
    hide PhaseOf;
  }

  lemma TurnDated(a: Agent, t: Turn, maxTurns: nat)
    requires RevisionDated(a.work.recovery, a.turn)
    ensures RevisionDated(TakeTurn(a, t, maxTurns).work.recovery, a.turn + 1)
  {
    hide AfterParse, InvokeAll, Judge, AfterAssess, RevisionDated, SameButCharged;
    var turn := a.turn + 1;
    ParseDated(a.work, t, a.turn);
    InvokeAllDated(AfterParse(a.work, t, turn), t.invocations, turn);
    TurnJudged(a, t, maxTurns);
    var worked := AfterTools(a.work, t, turn);
    var policy := PolicyOf(worked.progress, turn);
    var judged := AfterAssess(worked.recovery, policy);
    FactsCharged(worked.recovery, judged);
    ChargedDated(worked.recovery, judged, turn);
    JudgeCharges(judged, CallsIn(t), t.errors, turn, maxTurns, policy);
    ChargedDated(judged, TakeTurn(a, t, maxTurns).work.recovery, turn);
  }

  lemma {:induction false} RunDated(required: bool, budgets: Budgets, turns: seq<Turn>, maxTurns: nat)
    ensures var end := RunAgent(Start(required, budgets), turns, maxTurns); RevisionDated(end.work.recovery, end.turn)
  {
    hide TakeTurn, RevisionDated;
    if turns == [] {
      StartDated(required, budgets);
    } else {
      var before := RunAgent(Start(required, budgets), turns[..|turns| - 1], maxTurns);
      RunDated(required, budgets, turns[..|turns| - 1], maxTurns);
      TurnDated(before, turns[|turns| - 1], maxTurns);
      LastTurnStops(before, turns[|turns| - 1], maxTurns);
    }
  }

  lemma StartDated(required: bool, budgets: Budgets)
    ensures RevisionDated(Start(required, budgets).work.recovery, 0)
  {
  }

  /** Over every run: while a validation failure is pending the agent is told to validate again exactly if it
      has called a mutation tool in a turn after the last failing validation, and to revise otherwise. */
  lemma RevalidateExactly(required: bool, budgets: Budgets, turns: seq<Turn>, maxTurns: nat)
    requires var r := RunAgent(Start(required, budgets), turns, maxTurns).work.recovery;
      r.pending == Some(ValidationFailurePending)
    ensures var end := RunAgent(Start(required, budgets), turns, maxTurns);
      var failed, mutated := LastTurn(end.work.events, Failing), LastTurn(end.work.events, Mutating);
      && failed.Some?
      && StepOf(end.work.recovery)
           == (if mutated.Some? && mutated.value > failed.value then Revalidate else Revise)
  {
    hide RunAgent, LastTurn, Count, IssueCounts, StepOf;
    var r := RunAgent(Start(required, budgets), turns, maxTurns).work.recovery;
    RunReadsLog(required, budgets, turns, maxTurns);
    RunDated(required, budgets, turns, maxTurns);
    StepExactly(r);
  }
}
