/** Turns in which the agent only finishes or answers: when its finish is carried out, and what is counted. */
module FinishTurns {
  import opened Prelude
  import opened Recovery
  import opened Stopping
  import opened Gates
  import opened AgentLoop
  import opened AgentRuns
  import opened AgentBudgets

  predicate OnlyFinishes(invocations: seq<Invocation>) {
    forall i :: 0 <= i < |invocations| ==> IsFinish(invocations[i].call)
  }

  /** The agent calls finish, or answers without tool calls; nothing else. */
  predicate FinishOnly(t: Turn) { t.errors == 0 && !t.protocol && OnlyFinishes(t.invocations) }

  lemma {:induction false} FinishCallsOnlyRead(w: Working, invocations: seq<Invocation>, turn: nat)
    requires OnlyFinishes(invocations)
    ensures var next := InvokeAll(w, invocations, turn);
      SameFacts(w.recovery, next.recovery) && next.progress == w.progress && next.events == w.events
  {
    hide AfterCheck;
    if invocations != [] {
      FinishCallsOnlyRead(w, invocations[..|invocations| - 1], turn);
      var before := InvokeAll(w, invocations[..|invocations| - 1], turn);
      CheckKeepsFacts(before.recovery, PolicyOf(before.progress, turn));
    }
  }

  lemma NoOtherCalls(t: Turn)
    requires OnlyFinishes(t.invocations)
    ensures !CallsOther(CallsIn(t))
    ensures CallsFinish(CallsIn(t)) <==> t.invocations != []
  {
    if t.invocations != [] {
      assert IsFinish(CallsIn(t)[0]);
    }
  }

  /** The turn as `should_stop` sees it: the facts are those after parsing. */
  lemma FinishTurnJudged(a: Agent, t: Turn, maxTurns: nat)
    requires OnlyFinishes(t.invocations)
    ensures var turn := a.turn + 1;
      var parsed := AfterParse(a.work, t, turn);
      var policy := PolicyOf(parsed.progress, turn);
      var judged := AfterAssess(AfterTools(a.work, t, turn).recovery, policy);
      && SameFacts(parsed.recovery, judged)
      && JudgeTurn(a.work, t, turn, maxTurns) == Judge(judged, CallsIn(t), t.errors, turn, maxTurns, policy)
      && AfterTools(a.work, t, turn).events == a.work.events
      && AfterTools(a.work, t, turn).progress == parsed.progress
  {
    hide AfterAssess, Judge, AfterParse, InvokeAll;
    var turn := a.turn + 1;
    var parsed := AfterParse(a.work, t, turn);
    FinishCallsOnlyRead(parsed, t.invocations, turn);
    ReadingKeepsFacts(AfterTools(a.work, t, turn).recovery, PolicyOf(parsed.progress, turn));
    ParseKeepsEvidence(a.work, t, turn);
  }

  /** In a turn of nothing but finish calls, the runner carries out a finish call exactly when `should_stop`
      accepts the completion, budget and turn-limit stops aside; except that a call whose arguments do not
      map is never carried out, so the two part exactly when such a call ends the run. */
  lemma HandlerAgreesWithStop(a: Agent, t: Turn, maxTurns: nat, i: nat)
    requires t.errors == 0 && OnlyFinishes(t.invocations) && i < |t.invocations|
    requires Exhausted(a.work.recovery).None? && a.turn + 1 < maxTurns
    ensures var w := InvokeAll(AfterParse(a.work, t, a.turn + 1), t.invocations[..i], a.turn + 1);
      var completed := TakeTurn(a, t, maxTurns).status == Completed;
      && (HandlerRuns(w, t.invocations[i], a.turn + 1) <==> t.invocations[i].mapped && completed)
      && ((HandlerRuns(w, t.invocations[i], a.turn + 1) <==> completed) <==> t.invocations[i].mapped || !completed)
  {
    hide AfterAssess, Assess, Judge, AfterParse, InvokeAll, Exhausted;
    var turn := a.turn + 1;
    var parsed := AfterParse(a.work, t, turn);
    var policy := PolicyOf(parsed.progress, turn);
    var w := InvokeAll(parsed, t.invocations[..i], turn);
    FinishCallsOnlyRead(parsed, t.invocations[..i], turn);
    ReadingKeepsFacts(w.recovery, policy);
    SameAssessment(parsed.recovery, w.recovery, AfterAssess(w.recovery, policy), policy);
    FinishTurnJudged(a, t, maxTurns);
    NoOtherCalls(t);
    var judged := AfterAssess(AfterTools(a.work, t, turn).recovery, policy);
    AcceptsExactly(judged, CallsIn(t), 0, turn, maxTurns, policy);
    ReadingsAgree(parsed.recovery, judged, policy);
    ParseKeepsIssue(a.work, t, turn);
  }

  lemma SameAssessment(a: Recovery, b: Recovery, c: Recovery, policy: Policy)
    requires SameFacts(a, b) && SameFacts(b, c)
    ensures Assess(a, policy) == Assess(c, policy)
  {
    hide Assess, Exhausted, GateOf, EvidenceOf, PhaseOf, StepOf;
    ReadingsAgree(a, b, policy);
    ReadingsAgree(b, c, policy);
  }

  /** A finish call whose arguments do not map is not carried out, and still ends the run. */
  lemma MalformedFinishCompletes(outcome: ToolResult)
    ensures var t := Turn([Invocation(Call(FINISH), false, outcome)], 0, false);
      var a := Start(false, DEFAULT_BUDGETS);
      && !HandlerRuns(InvokeAll(AfterParse(a.work, t, 1), [], 1), t.invocations[0], 1)
      && TakeTurn(a, t, 2).status == Completed
  {
    hide Judge, AfterAssess, Assess, Exhausted, AfterParse, JudgeTurn;
    var t, a := Turn([Invocation(Call(FINISH), false, outcome)], 0, false), Start(false, DEFAULT_BUDGETS);
    FinishTurnJudged(a, t, 2);
    FreshStartOpen(t);
    NoOtherCalls(t);
    var parsed := AfterParse(a.work, t, 1);
    var judged := AfterAssess(AfterTools(a.work, t, 1).recovery, PolicyOf(parsed.progress, 1));
    ReadingsAgree(parsed.recovery, judged, PolicyOf(parsed.progress, 1));
    AcceptsExactly(judged, CallsIn(t), 0, 1, 2, PolicyOf(parsed.progress, 1));
    assert CallsIn(t) != [];
  }

  lemma FreshStartOpen(t: Turn)
    requires t.errors == 0 && !t.protocol
    ensures var parsed := AfterParse(Start(false, DEFAULT_BUDGETS).work, t, 1);
      Exhausted(parsed.recovery).None? && !Assess(parsed.recovery, PolicyOf(parsed.progress, 1)).blocked
  {
  }

  // ----- Agents that only finish -----

  /** A blocked completion attempt is counted against some issue's deferral budget. */
  predicate Counted(r: Recovery) { r.active.Some? || EvidenceOf(r) == Missing || EvidenceOf(r) == Stale }

  function Deferrals(r: Recovery): nat { if r.active.Some? then r.active.value.deferrals else 0 }

  lemma CompletionRuns(r: Recovery, turn: nat, finishing: bool, policy: Policy)
    requires Underway(r, turn)
    ensures var verdict := Completion(r, turn, finishing, policy);
      var status := StatusAfter(verdict.decision);
      && (status == Running ==> (verdict.state.active.Some? <==> Counted(r)))
      && (status == Running && Counted(r) ==> Deferrals(verdict.state) == Deferrals(r) + 1)
      && (status == Failed ==> Counted(r))
      && (status == Running || status == Failed || status == Completed)
      && (status == Completed <==> !Assess(r, policy).blocked)
  {
    hide Reported, Deferred, Assess, AfterAssess, Underway, EvidenceOf;
    ReadingKeepsFacts(r, policy);
    var assessed := AfterAssess(r, policy);
    FactsUnderway(r, assessed, turn);
    DeferBounds(assessed, Assess(r, policy), turn, finishing);
    SameEvidenceOf(r, assessed);
    DeferEnds(assessed, Assess(r, policy), turn, finishing);
    ReportKeepsFacts(assessed, true, Some(FinishStop), Finished, None, None);
    ReportKeepsFacts(assessed, true, Some(NoToolCallsStop), Answered, None, None);
  }

  lemma SameEvidenceOf(a: Recovery, b: Recovery)
    requires SameFacts(a, b)
    ensures EvidenceOf(a) == EvidenceOf(b)
  {
  }

  lemma DeferEnds(r: Recovery, assessment: Assessment, turn: nat, finishing: bool)
    ensures var status := StatusAfter(Deferred(r, assessment, turn, finishing).decision);
      status == Running || status == Failed
  {
    hide AfterStep, StepOf, AfterGate, EnsureIssue, NoteDeferral, Exhausted;
  }

  /** One finish-only turn: while it does not end the run, a counted attempt raises the deferral counter and
      an uncounted one leaves the agent without an issue; only a counted attempt can exhaust a budget. */
  lemma FinishOnlyTurn(a: Agent, t: Turn, maxTurns: nat)
    requires FinishOnly(t) && AtRest(a.work.recovery, a.turn)
    ensures var r, next := a.work.recovery, TakeTurn(a, t, maxTurns);
      && SameEvidence(r, next.work.recovery)
      && (next.status == Running && Counted(r) ==>
            next.work.recovery.active.Some? && Deferrals(next.work.recovery) == Deferrals(r) + 1)
      && (next.status == Running && !Counted(r) ==> next.work.recovery.active.None?)
      && (next.status == Failed && a.turn + 1 < maxTurns ==> Counted(r))
  {
    hide Judge, AfterAssess, AfterParse, AtRest, Underway, InvokeAll, Exhausted, EvidenceOf;
    var turn := a.turn + 1;
    FinishTurnJudged(a, t, maxTurns);
    var parsed := AfterParse(a.work, t, turn);
    var policy := PolicyOf(parsed.progress, turn);
    var judged := AfterAssess(AfterTools(a.work, t, turn).recovery, policy);
    ParseUnderway(a.work, t, turn);
    FactsUnderway(parsed.recovery, judged, turn);
    ParseKeepsIssue(a.work, t, turn);
    SameEvidenceOf(parsed.recovery, judged);
    FactsAtRest(parsed.recovery, judged, turn);
    RestHasRoom(a.work.recovery, a.turn);
    NoOtherCalls(t);
    JudgeOfFinish(judged, CallsIn(t), turn, maxTurns, policy);
    JudgeKeepsEvidence(judged, CallsIn(t), 0, turn, maxTurns, policy);
    ParseKeepsEvidence(a.work, t, turn);
  }

  lemma RestHasRoom(r: Recovery, turn: nat)
    requires AtRest(r, turn)
    ensures Exhausted(r).None?
  {
  }

  lemma JudgeOfFinish(r: Recovery, calls: seq<Call>, turn: nat, maxTurns: nat, policy: Policy)
    requires Underway(r, turn) && Exhausted(r).None? && !CallsOther(calls)
    ensures var verdict := Judge(r, calls, 0, turn, maxTurns, policy);
      var status := StatusAfter(verdict.decision);
      && (status == Running ==> (verdict.state.active.Some? <==> Counted(r)))
      && (status == Running && Counted(r) ==> Deferrals(verdict.state) == Deferrals(r) + 1)
      && (status == Failed && turn < maxTurns ==> Counted(r))
      && (turn < maxTurns ==> (status == Completed <==> !Assess(r, policy).blocked))
  {
    hide Completion, Reported, Underway, Exhausted, Refreshed, EvidenceOf, Assess;
    var facts := Refreshed(r);
    ReadingKeepsFacts(r, policy);
    FactsUnderway(r, facts, turn);
    FactsAtRest(r, facts, turn);
    SameEvidenceOf(r, facts);
    ReadingsAgree(r, facts, policy);
    ReportKeepsFacts(facts, true, Some(MaxTurnsStop), MaxTurnsReached, None, None);
    CompletionRuns(facts, turn, CallsFinish(calls), policy);
  }

  lemma {:induction false} FinishOnlyCounts(a: Agent, turns: seq<Turn>, maxTurns: nat)
    requires a.status == Running && AtRest(a.work.recovery, a.turn) && a.turn < maxTurns
    requires forall i :: 0 <= i < |turns| ==> FinishOnly(turns[i])
    requires RunAgent(a, turns, maxTurns).status == Running && turns != []
    ensures var end := RunAgent(a, turns, maxTurns);
      && AtRest(end.work.recovery, end.turn) && SameEvidence(a.work.recovery, end.work.recovery)
      && end.turn == a.turn + |turns| < maxTurns
      && (Counted(a.work.recovery) ==>
            end.work.recovery.active.Some? && Deferrals(end.work.recovery) == Deferrals(a.work.recovery) + |turns|)
      && (!Counted(a.work.recovery) ==> end.work.recovery.active.None?)
  {
    hide TakeTurn, AtRest, EvidenceOf, FinishOnly;
    var init, last := turns[..|turns| - 1], turns[|turns| - 1];
    var before := RunAgent(a, init, maxTurns);
    if init != [] {
      FinishOnlyCounts(a, init, maxTurns);
      SameCounting(a.work.recovery, before.work.recovery);
    }
    FinishOnlyTurn(before, last, maxTurns);
    TurnBounds(before, last, maxTurns);
    LastTurnStops(before, last, maxTurns);
  }

  lemma SameCounting(a: Recovery, b: Recovery)
    requires SameEvidence(a, b)
    ensures EvidenceOf(a) == EvidenceOf(b)
  {
  }

  lemma RestWithinDeferrals(r: Recovery, turn: nat)
    requires AtRest(r, turn)
    ensures Deferrals(r) <= r.budgets.deferrals
  {
  }

  /** An agent whose attempts are counted and which from some point on only finishes or answers stops within
      the deferral limit plus one further turns. */
  lemma FinishOnlyStops(required: bool, budgets: Budgets, turns: seq<Turn>, more: seq<Turn>, maxTurns: nat)
    requires maxTurns >= 1 && Counted(RunAgent(Start(required, budgets), turns, maxTurns).work.recovery)
    requires (forall i :: 0 <= i < |more| ==> FinishOnly(more[i])) && |more| > budgets.deferrals
    ensures RunAgent(Start(required, budgets), turns + more, maxTurns).status != Running
  {
    hide TakeTurn, AtRest, Counted, FinishOnly;
    var start := Start(required, budgets);
    var a := RunAgent(start, turns, maxTurns);
    CountersStayBounded(required, budgets, turns, maxTurns);
    RunOfConcat(start, turns, more, maxTurns);
    var end := RunAgent(a, more, maxTurns);
    if end.status == Running {
      RunningBefore(a, more, maxTurns);
      FinishOnlyCounts(a, more, maxTurns);
      RestWithinDeferrals(end.work.recovery, end.turn);
      BudgetsKept(required, budgets, turns, maxTurns);
    }
  }

  lemma {:induction false} RunOfConcat(a: Agent, turns: seq<Turn>, more: seq<Turn>, maxTurns: nat)
    ensures RunAgent(a, turns + more, maxTurns) == RunAgent(RunAgent(a, turns, maxTurns), more, maxTurns)
  {
    hide TakeTurn;
    if more == [] {
      assert turns + more == turns;
    } else {
      assert (turns + more)[..|turns + more| - 1] == turns + more[..|more| - 1];
      RunOfConcat(a, turns, more[..|more| - 1], maxTurns);
    }
  }

  lemma {:induction false} RunningBefore(a: Agent, turns: seq<Turn>, maxTurns: nat)
    requires RunAgent(a, turns, maxTurns).status == Running
    ensures a.status == Running
  {
    hide TakeTurn;
    if turns != [] {
      RunningBefore(a, turns[..|turns| - 1], maxTurns);
    }
  }

  lemma {:induction false} BudgetsKept(required: bool, budgets: Budgets, turns: seq<Turn>, maxTurns: nat)
    ensures var r := RunAgent(Start(required, budgets), turns, maxTurns).work.recovery;
      r.budgets == budgets && r.required == required
  {
    hide TakeTurn, AgentBacked;
    if turns == [] {
    } else {
      BudgetsKept(required, budgets, turns[..|turns| - 1], maxTurns);
      var before := RunAgent(Start(required, budgets), turns[..|turns| - 1], maxTurns);
      RunBacked(required, budgets, turns[..|turns| - 1], maxTurns);
      TakeTurnBacked(before, turns[|turns| - 1], maxTurns);
    }
  }

  lemma {:induction false} RunBacked(required: bool, budgets: Budgets, turns: seq<Turn>, maxTurns: nat)
    ensures AgentBacked(RunAgent(Start(required, budgets), turns, maxTurns))
  {
    hide TakeTurn, AgentBacked;
    if turns == [] {
      StartBacked(required, budgets);
    } else {
      RunBacked(required, budgets, turns[..|turns| - 1], maxTurns);
      TakeTurnBacked(RunAgent(Start(required, budgets), turns[..|turns| - 1], maxTurns), turns[|turns| - 1], maxTurns);
    }
  }

  /** On a task that requires validation evidence, an agent that only finishes or answers from the start
      stops within the deferral limit plus one turns, and does not complete. */
  lemma FinishOnlyNeverCompletes(budgets: Budgets, turns: seq<Turn>, maxTurns: nat)
    requires maxTurns >= 1 && (forall i :: 0 <= i < |turns| ==> FinishOnly(turns[i])) && |turns| > budgets.deferrals
    ensures var end := RunAgent(Start(true, budgets), turns, maxTurns);
      end.status != Running && end.status != Completed
  {
    hide FinishOnly, TakeTurn, SafelyDone;
    assert [] + turns == turns;
    FinishOnlyStops(true, budgets, [], turns, maxTurns);
    CompletionIsSafe(budgets, turns, maxTurns);
    NoEventsWhenFinishing(Start(true, budgets), turns, maxTurns);
    UnsafeWithoutEvents(RunAgent(Start(true, budgets), turns, maxTurns));
  }

  lemma UnsafeWithoutEvents(a: Agent)
    requires a.work.events == []
    ensures !SafelyDone(a)
  {
  }

  lemma {:induction false} NoEventsWhenFinishing(a: Agent, turns: seq<Turn>, maxTurns: nat)
    requires a.work.events == [] && forall i :: 0 <= i < |turns| ==> FinishOnly(turns[i])
    ensures RunAgent(a, turns, maxTurns).work.events == []
  {
    hide JudgeTurn, AfterParse, InvokeAll;
    if turns != [] {
      NoEventsWhenFinishing(a, turns[..|turns| - 1], maxTurns);
      FinishTurnJudged(RunAgent(a, turns[..|turns| - 1], maxTurns), turns[|turns| - 1], maxTurns);
    }
  }
}
