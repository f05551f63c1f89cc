/** Budgets of the agent loop, and the runs that must end. */
module AgentBudgets {
  import opened Prelude
  import opened Recovery
  import opened Stopping
  import opened Gates
  import opened AgentLoop
  import opened AgentRuns

  ghost predicate NotAfter(when: Option<nat>, turn: nat) { when.Some? ==> when.value <= turn }

  /** Between turns: every counter of the active issue is within its limit. */
  ghost predicate AtRest(r: Recovery, turn: nat) {
    Exhausted(r).None? && NotAfter(r.lastRevision, turn) && NotAfter(r.lastDeferral, turn)
  }

  /** During `turn`, before it is judged: at most one revision has been counted. */
  ghost predicate Underway(r: Recovery, turn: nat) {
    && NotAfter(r.lastRevision, turn) && NotAfter(r.lastDeferral, turn) && r.lastDeferral != Some(turn)
    && (r.active.Some? ==>
          && r.active.value.revisions <= r.budgets.revisions + (if r.lastRevision == Some(turn) then 1 else 0)
          && r.active.value.deferrals <= r.budgets.deferrals)
  }

  /** No counter that moves once a turn ever exceeds its limit by more than one. */
  ghost predicate Bounded(r: Recovery) {
    r.active.Some? ==>
      r.active.value.revisions <= r.budgets.revisions + 1 && r.active.value.deferrals <= r.budgets.deferrals + 1
  }

  lemma MutationUnderway(r: Recovery, turn: nat)
    requires Underway(r, turn)
    ensures Underway(RecordMutation(r, turn), turn)
  {
  }

  lemma SuccessUnderway(r: Recovery, call: Call, turn: nat)
    requires Underway(r, turn)
    ensures Underway(RecordSuccess(r, call, turn), turn)
  {
    hide EvidenceOf, PhaseOf, RecordValidated, Underway;
    ValidatedUnderway(r, turn);
    CorrectiveUnderway(r, turn);
    SameIssueUnderway(r, ClearFailure(r), turn);
    var noted := if IsValidation(call) then RecordValidated(r, turn)
                 else if RetryPending(r) then ClearFailure(r) else NoteCorrective(r, turn);
    SameIssueUnderway(noted, RecordSuccess(r, call, turn), turn);
  }

  lemma ValidatedUnderway(r: Recovery, turn: nat)
    requires Underway(r, turn)
    ensures Underway(RecordValidated(r, turn), turn)
  {
  }

  lemma FailureUnderway(r: Recovery, call: Call, result: ToolResult, turn: nat)
    requires Underway(r, turn)
    ensures Underway(RecordFailure(r, call, result, turn), turn)
  {
    hide EvidenceOf, PhaseOf, IssueKindOf;
  }

  lemma ToolUnderway(r: Recovery, call: Call, result: ToolResult, turn: nat)
    requires Underway(r, turn)
    ensures Underway(RecordTool(r, call, result, turn), turn)
  {
    hide RecordMutation, RecordSuccess, RecordFailure, IsRecoverable, Underway;
    var seen := if IsMutation(call) then RecordMutation(r, turn) else r;
    MutationUnderway(r, turn);
    SuccessUnderway(seen, call, turn);
    FailureUnderway(seen, call, result, turn);
  }

  lemma FactsUnderway(a: Recovery, b: Recovery, turn: nat)
    requires SameFacts(a, b) && Underway(a, turn)
    ensures Underway(b, turn)
  {
  }

  lemma {:induction false} InvokeAllUnderway(w: Working, invocations: seq<Invocation>, turn: nat)
    requires Underway(w.recovery, turn)
    ensures Underway(InvokeAll(w, invocations, turn).recovery, turn)
  {
    hide RecordTool, AfterCheck, Underway;
    if invocations != [] {
      var init, inv := invocations[..|invocations| - 1], invocations[|invocations| - 1];
      InvokeAllUnderway(w, init, turn);
      var before := InvokeAll(w, init, turn);
      var policy := PolicyOf(before.progress, turn);
      CheckKeepsFacts(before.recovery, policy);
      FactsUnderway(before.recovery, AfterCheck(before.recovery, policy), turn);
      ToolUnderway(before.recovery, inv.call, inv.outcome, turn);
      CorrectiveUnderway(RecordTool(before.recovery, inv.call, inv.outcome, turn), turn);
    }
  }

  lemma CorrectiveUnderway(r: Recovery, turn: nat)
    requires Underway(r, turn)
    ensures Underway(NoteCorrective(r, turn), turn)
  {
  }

  lemma DeferralCounts(r: Recovery, turn: nat)
    requires Underway(r, turn)
    ensures var counted := NoteDeferral(EnsureIssue(r, turn), turn);
      && Bounded(counted) && NotAfter(counted.lastRevision, turn) && NotAfter(counted.lastDeferral, turn)
      && (counted.active.Some? <==> r.active.Some? || EvidenceOf(r) == Missing || EvidenceOf(r) == Stale)
      && (counted.active.Some? ==>
            counted.active.value.deferrals == 1 + (if r.active.Some? then r.active.value.deferrals else 0))
  {
  }

  lemma FactsAtRest(a: Recovery, b: Recovery, turn: nat)
    requires SameFacts(a, b)
    ensures Exhausted(a) == Exhausted(b) && (Bounded(a) <==> Bounded(b))
    ensures AtRest(a, turn) <==> AtRest(b, turn)
  {
  }

  lemma DeferBounds(r: Recovery, assessment: Assessment, turn: nat, finishing: bool)
    requires Underway(r, turn)
    ensures var verdict := Deferred(r, assessment, turn, finishing);
      && Bounded(verdict.state)
      && (!verdict.decision.stop ==> AtRest(verdict.state, turn))
      && (verdict.state.active.Some? <==> r.active.Some? || EvidenceOf(r) == Missing || EvidenceOf(r) == Stale)
      && (verdict.state.active.Some? ==>
            verdict.state.active.value.deferrals == 1 + (if r.active.Some? then r.active.value.deferrals else 0))
      && (verdict.decision.stop ==> verdict.state.active.Some?)
  {
    hide Reported, Exhausted, Bounded, AtRest, EnsureIssue, NoteDeferral, EvidenceOf;
    var counted := NoteDeferral(EnsureIssue(r, turn), turn);
    DeferralCounts(r, turn);
    RestingIfFresh(counted, turn);
    if Exhausted(counted).Some? {
      var b := Exhausted(counted).value;
      ReportKeepsFacts(counted, true, Some(BudgetStop(b)), BudgetExhausted(b), None, None);
      FactsAtRest(counted, Reported(counted, true, Some(BudgetStop(b)), BudgetExhausted(b), None, None).state, turn);
    } else {
      var code := DeferralCode(assessment.reason, finishing);
      ReportKeepsFacts(counted, false, None, code, assessment.reason, assessment.next);
      FactsAtRest(counted, Reported(counted, false, None, code, assessment.reason, assessment.next).state, turn);
    }
  }

  lemma RestingIfFresh(r: Recovery, turn: nat)
    ensures Exhausted(r).None? && NotAfter(r.lastRevision, turn) && NotAfter(r.lastDeferral, turn) ==> AtRest(r, turn)
    ensures Exhausted(r).Some? ==> r.active.Some?
  {
  }

  lemma UnderwayBounded(r: Recovery, turn: nat)
    requires Underway(r, turn)
    ensures Bounded(r)
    ensures Exhausted(r).None? ==> AtRest(r, turn)
  {
  }

  /** Whenever the policy lets the loop continue, every counter of the active issue is within its limit;
      and no once-a-turn counter ever exceeds its limit by more than one. */
  lemma JudgeBounds(r: Recovery, calls: seq<Call>, errors: nat, turn: nat, maxTurns: nat, policy: Policy)
    requires Underway(r, turn)
    ensures var verdict := Judge(r, calls, errors, turn, maxTurns, policy);
      Bounded(verdict.state) && (!verdict.decision.stop ==> AtRest(verdict.state, turn))
  {
    hide Reported, Deferred, Exhausted, AfterAssess, Assess, Bounded, AtRest, Underway, Refreshed, CallsOther,
         CallsFinish;
    var facts := Refreshed(r);
    ReadingKeepsFacts(r, policy);
    FactsUnderway(r, facts, turn);
    UnderwayBounded(facts, turn);
    ReportsAtRest(facts, turn);
    ReadingKeepsFacts(facts, policy);
    var assessed := AfterAssess(facts, policy);
    FactsUnderway(facts, assessed, turn);
    DeferBounds(assessed, Assess(facts, policy), turn, CallsFinish(calls));
    UnderwayBounded(assessed, turn);
    ReportsAtRest(assessed, turn);
  }

  lemma ReportsAtRest(r: Recovery, turn: nat)
    requires Bounded(r)
    ensures forall stop, reason, code {:trigger Reported(r, stop, reason, code, None, None)} ::
      var verdict := Reported(r, stop, reason, code, None, None);
      && verdict.decision.stop == stop && Bounded(verdict.state)
      && (AtRest(r, turn) ==> AtRest(verdict.state, turn))
  {
    hide Reported, Bounded, AtRest;
    forall stop, reason, code
      ensures var verdict := Reported(r, stop, reason, code, None, None);
        && verdict.decision.stop == stop && Bounded(verdict.state)
        && (AtRest(r, turn) ==> AtRest(verdict.state, turn))
    {
      ReportKeepsFacts(r, stop, reason, code, None, None);
      FactsAtRest(r, Reported(r, stop, reason, code, None, None).state, turn);
    }
  }

  lemma RestUnderway(r: Recovery, turn: nat)
    requires turn > 0 && AtRest(r, turn - 1)
    ensures Underway(r, turn)
  {
  }

  lemma ParseUnderway(w: Working, t: Turn, turn: nat)
    requires turn > 0 && AtRest(w.recovery, turn - 1)
    ensures Underway(AfterParse(w, t, turn).recovery, turn)
  {
    hide AtRest, Underway;
    RestUnderway(w.recovery, turn);
    ParseKeepsIssue(w, t, turn);
    SameIssueUnderway(w.recovery, AfterParse(w, t, turn).recovery, turn);
  }

  lemma SameIssueUnderway(a: Recovery, b: Recovery, turn: nat)
    requires a.active == b.active && a.budgets == b.budgets
    requires a.lastRevision == b.lastRevision && a.lastDeferral == b.lastDeferral && Underway(a, turn)
    ensures Underway(b, turn)
  {
  }

  /** Parsing leaves the validation issue and the evidence alone. */
  lemma RecordParseKeepsIssue(r: Recovery, errors: nat, hasCalls: bool, turn: nat)
    ensures var next := RecordParse(r, errors, hasCalls, turn);
      && next.active == r.active && next.budgets == r.budgets
      && next.lastRevision == r.lastRevision && next.lastDeferral == r.lastDeferral
      && next.required == r.required && next.lastSuccess == r.lastSuccess && next.lastMutation == r.lastMutation
  {
  }

  lemma SameIssue(a: Recovery, b: Recovery)
    requires a.active == b.active && a.budgets == b.budgets
    requires a.required == b.required && a.lastSuccess == b.lastSuccess && a.lastMutation == b.lastMutation
    ensures Exhausted(a) == Exhausted(b) && EvidenceOf(a) == EvidenceOf(b)
  {
  }

  lemma ParseKeepsIssue(w: Working, t: Turn, turn: nat)
    ensures var r := AfterParse(w, t, turn).recovery;
      && r.active == w.recovery.active && r.budgets == w.recovery.budgets && Exhausted(r) == Exhausted(w.recovery)
      && r.lastRevision == w.recovery.lastRevision && r.lastDeferral == w.recovery.lastDeferral
      && EvidenceOf(r) == EvidenceOf(w.recovery)
  {
    hide RecordParse, Exhausted, EvidenceOf;
    hide PhaseOf;
    RecordParseKeepsIssue(RefreshPhase(w.recovery), t.errors, t.invocations != [], turn);
    SameIssue(w.recovery, AfterParse(w, t, turn).recovery);
  }

  /** What one turn does to the counters. */
  lemma TurnBounds(a: Agent, t: Turn, maxTurns: nat)
    requires AtRest(a.work.recovery, a.turn)
    ensures var next := TakeTurn(a, t, maxTurns);
      && Bounded(next.work.recovery)
      && (next.status == Running ==> AtRest(next.work.recovery, next.turn))
      && Underway(AfterTools(a.work, t, a.turn + 1).recovery, a.turn + 1)
  {
    hide Judge, AfterAssess, InvokeAll, AfterParse, Underway, Bounded;
    var turn := a.turn + 1;
    ParseUnderway(a.work, t, turn);
    InvokeAllUnderway(AfterParse(a.work, t, turn), t.invocations, turn);
    var worked := AfterTools(a.work, t, turn);
    var policy := PolicyOf(worked.progress, turn);
    ReadingKeepsFacts(worked.recovery, policy);
    FactsUnderway(worked.recovery, AfterAssess(worked.recovery, policy), turn);
    JudgeBounds(AfterAssess(worked.recovery, policy), CallsIn(t), t.errors, turn, maxTurns, policy);
  }

  /** Over every run: while the loop continues, the counters of the active issue are within their limits,
      and no run ends with a revision or deferral counter more than one above its limit. The loop never
      runs past its last turn, and uses up one response per turn while it runs. */
  lemma {:induction false} CountersStayBounded(required: bool, budgets: Budgets, turns: seq<Turn>, maxTurns: nat)
    requires maxTurns >= 1
    ensures var end := RunAgent(Start(required, budgets), turns, maxTurns);
      && Bounded(end.work.recovery)
      && (end.status == Running ==> AtRest(end.work.recovery, end.turn) && end.turn == |turns| < maxTurns)
  {
    hide TakeTurn, AtRest, Bounded;
    if turns == [] {
      StartAtRest(required, budgets);
    } else {
      var init := turns[..|turns| - 1];
      CountersStayBounded(required, budgets, init, maxTurns);
      var before := RunAgent(Start(required, budgets), init, maxTurns);
      if before.status == Running {
        TurnBounds(before, turns[|init|], maxTurns);
        LastTurnStops(before, turns[|init|], maxTurns);
      }
    }
  }

  lemma StartAtRest(required: bool, budgets: Budgets)
    ensures AtRest(Start(required, budgets).work.recovery, 0) && Bounded(Start(required, budgets).work.recovery)
  {
  }

  /** Continuing past the turn limit is impossible. */
  lemma LastTurnStops(a: Agent, t: Turn, maxTurns: nat)
    ensures var next := TakeTurn(a, t, maxTurns);
      next.turn == a.turn + 1 && (next.status == Running ==> next.turn < maxTurns)
  {
    hide AfterTools, AfterAssess, Judge;
    var turn := a.turn + 1;
    var worked := AfterTools(a.work, t, turn);
    var policy := PolicyOf(worked.progress, turn);
    JudgeAtLimit(AfterAssess(worked.recovery, policy), CallsIn(t), t.errors, turn, maxTurns, policy);
  }

  lemma JudgeAtLimit(r: Recovery, calls: seq<Call>, errors: nat, turn: nat, maxTurns: nat, policy: Policy)
    ensures turn >= maxTurns ==> Judge(r, calls, errors, turn, maxTurns, policy).decision.stop
  {
    hide AfterStep, AfterGate, StepOf, Exhausted, Completion;
  }

  // ----- Parse errors -----

  predicate ParseErrorTurn(t: Turn) { t.errors > 0 && t.invocations == [] }

  lemma ParseErrorJudged(a: Agent, t: Turn, maxTurns: nat)
    requires ParseErrorTurn(t)
    ensures var next := TakeTurn(a, t, maxTurns);
      && next.work.recovery.streak == a.work.recovery.streak + 1
      && (next.status == Running ==> next.work.recovery.streak < MAX_PARSE_ERROR_TURNS)
  {
    hide AfterAssess, Judge;
    var turn := a.turn + 1;
    var worked := AfterTools(a.work, t, turn);
    var policy := PolicyOf(worked.progress, turn);
    assert worked.recovery.streak == a.work.recovery.streak + 1;
    ReadingKeepsFacts(worked.recovery, policy);
    var r := AfterAssess(worked.recovery, policy);
    JudgeKeepsEvidence(r, CallsIn(t), t.errors, turn, maxTurns, policy);
    JudgeOfParseErrors(r, t.errors, turn, maxTurns, policy);
    assert CallsIn(t) == [];
  }

  lemma JudgeOfParseErrors(r: Recovery, errors: nat, turn: nat, maxTurns: nat, policy: Policy)
    requires errors > 0
    ensures !Judge(r, [], errors, turn, maxTurns, policy).decision.stop ==> r.streak < MAX_PARSE_ERROR_TURNS
  {
    hide AfterStep, AfterGate, StepOf, Exhausted, Completion, EvidenceOf, PhaseOf;
  }

  /** Two consecutive turns of parse errors end the run, whatever came before. */
  lemma TwoParseErrorTurnsEnd(required: bool, budgets: Budgets, turns: seq<Turn>, first: Turn, second: Turn,
                              maxTurns: nat)
    requires maxTurns >= 1 && ParseErrorTurn(first) && ParseErrorTurn(second)
    ensures RunAgent(Start(required, budgets), turns + [first] + [second], maxTurns).status != Running
  {
    hide TakeTurn, AtRest, Bounded;
    var a := Start(required, budgets);
    var before := RunAgent(a, turns, maxTurns);
    CountersStayBounded(required, budgets, turns, maxTurns);
    CountersStayBounded(required, budgets, turns + [first], maxTurns);
    RunTurns(a, turns, first, maxTurns);
    RunTurns(a, turns + [first], second, maxTurns);
    var middle := RunAgent(a, turns + [first], maxTurns);
    ParseErrorJudged(before, first, maxTurns);
    ParseErrorJudged(middle, second, maxTurns);
  }
}
