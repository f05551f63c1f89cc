/** Whole runs of the agent loop: what completion means, what the budgets bound, and when the run must end. */
module AgentRuns {
  import opened Prelude
  import opened Recovery
  import opened Stopping
  import opened Gates
  import opened AgentLoop

  lemma RunTurns(a: Agent, turns: seq<Turn>, t: Turn, maxTurns: nat)
    ensures RunAgent(a, turns + [t], maxTurns)
         == var before := RunAgent(a, turns, maxTurns);
            if before.status.Running? && before.turn < maxTurns then TakeTurn(before, t, maxTurns) else before
  {
    assert (turns + [t])[..|turns|] == turns;
  }

  // ----- What each step of a turn changes -----

  lemma MutationFacts(r: Recovery, turn: nat)
    ensures var seen := RecordMutation(r, turn);
      && seen.required == r.required && seen.budgets == r.budgets && seen.streak == r.streak
      && seen.parseErrors == r.parseErrors
      && seen.lastSuccess == r.lastSuccess && seen.lastDeferral == r.lastDeferral
      && seen.lastMutation == Some(turn)
  {
  }

  lemma SuccessFacts(r: Recovery, call: Call, turn: nat)
    ensures var next := RecordSuccess(r, call, turn);
      && next.required == r.required && next.budgets == r.budgets && next.streak == r.streak
      && next.parseErrors == r.parseErrors
      && next.lastMutation == r.lastMutation && next.lastDeferral == r.lastDeferral
      && next.lastSuccess == (if IsValidation(call) then Some(turn) else r.lastSuccess)
  {
    hide EvidenceOf, PhaseOf;
  }

  lemma FailureFacts(r: Recovery, call: Call, result: ToolResult, turn: nat)
    ensures var next := RecordFailure(r, call, result, turn);
      && next.required == r.required && next.budgets == r.budgets && next.streak == r.streak
      && next.parseErrors == r.parseErrors
      && next.lastMutation == r.lastMutation && next.lastDeferral == r.lastDeferral
      && next.lastSuccess == r.lastSuccess
  {
    hide EvidenceOf, PhaseOf, IssueKindOf;
  }

  /** The effect of one tool result on the facts completion depends on. */
  lemma ToolFacts(r: Recovery, call: Call, result: ToolResult, turn: nat)
    ensures var next := RecordTool(r, call, result, turn);
      && next.required == r.required && next.budgets == r.budgets && next.streak == r.streak
      && next.parseErrors == r.parseErrors
      && next.lastMutation == (if IsMutation(call) then Some(turn) else r.lastMutation)
      && next.lastSuccess == (if IsValidation(call) && Succeeded(result) then Some(turn) else r.lastSuccess)
      && next.lastDeferral == r.lastDeferral
  {
    hide RecordMutation, RecordSuccess, RecordFailure, IsRecoverable;
    var seen := if IsMutation(call) then RecordMutation(r, turn) else r;
    MutationFacts(r, turn);
    SuccessFacts(seen, call, turn);
    FailureFacts(seen, call, result, turn);
  }

  // ----- Completion safety -----

  ghost predicate ValidatedIn(events: seq<ToolEvent>, s: nat) {
    exists i :: 0 <= i < |events| && events[i].turn == s && IsValidation(events[i].call) && Succeeded(events[i].result)
  }

  ghost predicate NoMutationAfter(events: seq<ToolEvent>, s: nat) {
    forall i :: 0 <= i < |events| && IsMutation(events[i].call) ==> events[i].turn <= s
  }

  /** The recorded turns are backed by the log of tool calls. */
  ghost predicate Backed(r: Recovery, events: seq<ToolEvent>) {
    && (r.lastSuccess.Some? ==> ValidatedIn(events, r.lastSuccess.value))
    && (forall i :: 0 <= i < |events| && IsMutation(events[i].call) ==>
          r.lastMutation.Some? && events[i].turn <= r.lastMutation.value)
  }

  /** The facts the stop policy decides on, apart from the caches and the counters of the active issue. */
  predicate SameEvidence(a: Recovery, b: Recovery) {
    && a.required == b.required && a.budgets == b.budgets && a.lastSuccess == b.lastSuccess
    && a.lastMutation == b.lastMutation
  }

  lemma InvokeBacked(w: Working, inv: Invocation, turn: nat)
    requires Backed(w.recovery, w.events)
    requires forall i :: 0 <= i < |w.events| ==> w.events[i].turn <= turn
    ensures var next := Invoke(w, inv, turn);
      && Backed(next.recovery, next.events)
      && (forall i :: 0 <= i < |next.events| ==> next.events[i].turn <= turn)
      && next.recovery.required == w.recovery.required && next.recovery.budgets == w.recovery.budgets
  {
    hide RecordTool, AfterBlockCheck, AfterAssess;
    var next := Invoke(w, inv, turn);
    if IsFinish(inv.call) {
      CheckKeepsFacts(w.recovery, PolicyOf(w.progress, turn));
    } else {
      ToolFacts(w.recovery, inv.call, inv.outcome, turn);
      assert next.events[|w.events|] == ToolEvent(turn, inv.call, inv.outcome);
      if next.recovery.lastSuccess.Some? && !(IsValidation(inv.call) && Succeeded(inv.outcome)) {
        var i :| 0 <= i < |w.events| && w.events[i].turn == w.recovery.lastSuccess.value
                 && IsValidation(w.events[i].call) && Succeeded(w.events[i].result);
        assert next.events[i] == w.events[i];
      }
    }
  }

  lemma CheckKeepsFacts(r: Recovery, policy: Policy)
    ensures SameFacts(r, AfterCheck(r, policy))
  {
    hide AfterBlockCheck, AfterAssess;
    ReadingKeepsFacts(r, policy);
    ReadingKeepsFacts(AfterAssess(r, policy), policy);
  }

  lemma {:induction false} InvokeAllBacked(w: Working, invocations: seq<Invocation>, turn: nat)
    requires Backed(w.recovery, w.events)
    requires forall i :: 0 <= i < |w.events| ==> w.events[i].turn <= turn
    ensures var next := InvokeAll(w, invocations, turn);
      && Backed(next.recovery, next.events)
      && (forall i :: 0 <= i < |next.events| ==> next.events[i].turn <= turn)
      && next.recovery.required == w.recovery.required && next.recovery.budgets == w.recovery.budgets
  {
    hide Invoke, Backed;
    if invocations != [] {
      InvokeAllBacked(w, invocations[..|invocations| - 1], turn);
      InvokeBacked(InvokeAll(w, invocations[..|invocations| - 1], turn), invocations[|invocations| - 1], turn);
    }
  }

  lemma ParseKeepsEvidence(w: Working, t: Turn, turn: nat)
    ensures SameEvidence(w.recovery, AfterParse(w, t, turn).recovery) && AfterParse(w, t, turn).events == w.events
  {
  }

  /** Deferring, judging and reporting keep the evidence and never clear a pending issue. */
  lemma DeferKeepsEvidence(r: Recovery, assessment: Assessment, turn: nat, finishing: bool)
    ensures var verdict := Deferred(r, assessment, turn, finishing);
      SameEvidence(r, verdict.state) && verdict.state.pending == r.pending && verdict.state.streak == r.streak
  {
    hide Reported, Exhausted;
    var counted := NoteDeferral(EnsureIssue(r, turn), turn);
    assert SameEvidence(r, counted) && counted.pending == r.pending && counted.streak == r.streak;
    if Exhausted(counted).Some? {
      ReportKeepsFacts(counted, true, Some(BudgetStop(Exhausted(counted).value)),
                       BudgetExhausted(Exhausted(counted).value), None, None);
    } else {
      ReportKeepsFacts(counted, false, None, DeferralCode(assessment.reason, finishing), assessment.reason,
                       assessment.next);
    }
  }

  lemma JudgeKeepsEvidence(r: Recovery, calls: seq<Call>, errors: nat, turn: nat, maxTurns: nat, policy: Policy)
    ensures var verdict := Judge(r, calls, errors, turn, maxTurns, policy);
      SameEvidence(r, verdict.state) && verdict.state.pending == r.pending && verdict.state.streak == r.streak
  {
    hide Reported, Deferred, Exhausted, AfterAssess, Assess;
    var facts := Refreshed(r);
    ReadingKeepsFacts(r, policy);
    ReadingKeepsFacts(facts, policy);
    var assessed := AfterAssess(facts, policy);
    DeferKeepsEvidence(assessed, Assess(facts, policy), turn, CallsFinish(calls));
    ReportKeepsFacts(assessed, true, Some(FinishStop), Finished, None, None);
    ReportKeepsFacts(assessed, true, Some(NoToolCallsStop), Answered, None, None);
    ReportKeepsFacts(facts, true, Some(MaxTurnsStop), MaxTurnsReached, None, None);
    ReportKeepsFacts(facts, false, None, RecoverableParse, None, None);
    ReportKeepsFacts(facts, true, Some(ParseErrorStop), ParseErrors, None, None);
    ReportKeepsFacts(facts, false, None, ContinueWithTools, None, None);
    if Exhausted(facts).Some? {
      ReportKeepsFacts(facts, true, Some(BudgetStop(Exhausted(facts).value)), BudgetExhausted(Exhausted(facts).value),
                       None, None);
    }
  }

  /** `should_stop` accepts completion exactly when no other stop applies, the model asks for nothing but
      finish, and the assessment does not block. */
  lemma AcceptsExactly(r: Recovery, calls: seq<Call>, errors: nat, turn: nat, maxTurns: nat, policy: Policy)
    ensures StatusAfter(Judge(r, calls, errors, turn, maxTurns, policy).decision) == Completed <==>
      && Exhausted(r).None? && turn < maxTurns && !(errors > 0 && calls == []) && !CallsOther(calls)
      && !Assess(r, policy).blocked
  {
    hide Reported, Exhausted, AfterAssess, Assess, EnsureIssue, NoteDeferral;
    var facts := Refreshed(r);
    ReadingKeepsFacts(r, policy);
    ReadingsAgree(r, facts, policy);
    var assessed := AfterAssess(facts, policy);
    var counted := NoteDeferral(EnsureIssue(assessed, turn), turn);
    ReportKeepsFacts(assessed, true, Some(FinishStop), Finished, None, None);
    ReportKeepsFacts(assessed, true, Some(NoToolCallsStop), Answered, None, None);
    ReportKeepsFacts(facts, true, Some(MaxTurnsStop), MaxTurnsReached, None, None);
    ReportKeepsFacts(facts, false, None, RecoverableParse, None, None);
    ReportKeepsFacts(facts, true, Some(ParseErrorStop), ParseErrors, None, None);
    ReportKeepsFacts(facts, false, None, ContinueWithTools, None, None);
    BudgetReport(facts);
    BudgetReport(counted);
    var assessment := Assess(facts, policy);
    ReportKeepsFacts(counted, false, None, DeferralCode(assessment.reason, CallsFinish(calls)), assessment.reason,
                     assessment.next);
  }

  lemma BudgetReport(r: Recovery)
    ensures Exhausted(r).Some? ==>
      StatusAfter(Halted(r, BudgetStop(Exhausted(r).value), BudgetExhausted(Exhausted(r).value)).decision) == Failed
  {
    hide Exhausted, AfterStep, StepOf, AfterGate;
  }

  ghost predicate AgentBacked(a: Agent) {
    && Backed(a.work.recovery, a.work.events)
    && (forall i :: 0 <= i < |a.work.events| ==> a.work.events[i].turn <= a.turn)
  }

  lemma TakeTurnBacked(a: Agent, t: Turn, maxTurns: nat)
    requires AgentBacked(a)
    ensures AgentBacked(TakeTurn(a, t, maxTurns))
    ensures TakeTurn(a, t, maxTurns).work.recovery.required == a.work.recovery.required
    ensures TakeTurn(a, t, maxTurns).work.recovery.budgets == a.work.recovery.budgets
  {
    hide AfterParse, InvokeAll, Judge, AfterAssess;
    var turn := a.turn + 1;
    ParseKeepsEvidence(a.work, t, turn);
    InvokeAllBacked(AfterParse(a.work, t, turn), t.invocations, turn);
    var worked := AfterTools(a.work, t, turn);
    var policy := PolicyOf(worked.progress, turn);
    ReadingKeepsFacts(worked.recovery, policy);
    JudgeKeepsEvidence(AfterAssess(worked.recovery, policy), CallsIn(t), t.errors, turn, maxTurns, policy);
  }

  /** What completing a turn tells: the gate was open when the turn was judged, and still is. */
  lemma CompletedTurnIsOpen(a: Agent, t: Turn, maxTurns: nat)
    requires TakeTurn(a, t, maxTurns).status == Completed
    ensures GateOf(TakeTurn(a, t, maxTurns).work.recovery) == Open
  {
    hide AfterTools, Judge, AfterAssess, Assess;
    var turn := a.turn + 1;
    var worked := AfterTools(a.work, t, turn);
    var policy := PolicyOf(worked.progress, turn);
    var r := AfterAssess(worked.recovery, policy);
    AcceptsExactly(r, CallsIn(t), t.errors, turn, maxTurns, policy);
    AssessmentMatchesGate(r, policy);
    JudgeKeepsEvidence(r, CallsIn(t), t.errors, turn, maxTurns, policy);
    SameGateFacts(r, Judge(r, CallsIn(t), t.errors, turn, maxTurns, policy).state);
  }

  lemma SameGateFacts(a: Recovery, b: Recovery)
    requires SameEvidence(a, b) && a.pending == b.pending
    ensures GateOf(a) == GateOf(b)
  {
  }

  /** No issue is pending, some turn validated, and no mutation was called in a later turn. */
  ghost predicate SafelyDone(a: Agent) {
    && a.work.recovery.pending.None?
    && exists s: nat :: ValidatedIn(a.work.events, s) && NoMutationAfter(a.work.events, s)
  }

  lemma OpenIsSafe(a: Agent)
    requires AgentBacked(a) && a.work.recovery.required && GateOf(a.work.recovery) == Open
    ensures SafelyDone(a)
  {
    var r := a.work.recovery;
    assert EvidenceOf(r) == Validated;
    assert ValidatedIn(a.work.events, r.lastSuccess.value) && NoMutationAfter(a.work.events, r.lastSuccess.value);
  }

  /** Completion safety over whole runs: an agent that must show validation evidence ends completed, by
      finish or by an answer without tool calls, only if no issue is pending, some turn had a successful
      validation, and no mutation tool was called in any later turn. */
  lemma {:induction false} CompletionIsSafe(budgets: Budgets, turns: seq<Turn>, maxTurns: nat)
    ensures var end := RunAgent(Start(true, budgets), turns, maxTurns);
      && AgentBacked(end) && end.work.recovery.required && end.work.recovery.budgets == budgets
      && (end.status == Completed ==> SafelyDone(end))
  {
    hide TakeTurn, AgentBacked, GateOf;
    if turns == [] {
      assert AgentBacked(Start(true, budgets)) by {
        StartBacked(true, budgets);
      }
    } else {
      var init := turns[..|turns| - 1];
      CompletionIsSafe(budgets, init, maxTurns);
      var before := RunAgent(Start(true, budgets), init, maxTurns);
      TakeTurnBacked(before, turns[|init|], maxTurns);
      var after := TakeTurn(before, turns[|init|], maxTurns);
      if after.status == Completed {
        CompletedTurnIsOpen(before, turns[|init|], maxTurns);
        OpenIsSafe(after);
      }
    }
  }

  lemma StartBacked(required: bool, budgets: Budgets)
    ensures AgentBacked(Start(required, budgets))
  {
  }
}
