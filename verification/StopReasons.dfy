/** Why a run ends, read off the log of tool calls and the responses. */
module StopReasons {
  import opened Prelude
  import opened Recovery
  import opened Stopping
  import opened Gates
  import opened AgentLoop
  import opened AgentRuns
  import opened AgentBudgets
  import opened FinishTurns
  import opened LastValidation
  import opened LogCounts

  /** The turn asks for nothing but to finish, or answers, without parse errors. */
  predicate Attempts(calls: seq<Call>, errors: nat) { !(errors > 0 && calls == []) && !CallsOther(calls) }

  /** Every reason the policy can give, and when. */
  lemma ReasonsExactly(r: Recovery, calls: seq<Call>, errors: nat, turn: nat, maxTurns: nat, policy: Policy)
    ensures var reason := Judge(r, calls, errors, turn, maxTurns, policy).decision.reason;
      var judged, free := Exhausted(r).None? && turn < maxTurns, !Assess(r, policy).blocked;
      && (reason == Some(BudgetStop(ValidationBudget)) <==> Exhausted(r) == Some(ValidationBudget))
      && (reason == Some(BudgetStop(RevisionBudget)) <==> Exhausted(r) == Some(RevisionBudget))
      && (reason == Some(MaxTurnsStop) <==> Exhausted(r).None? && turn >= maxTurns)
      && (reason == Some(ParseErrorStop) <==> judged && errors > 0 && calls == [] && r.streak >= MAX_PARSE_ERROR_TURNS)
      && (reason == Some(FinishStop) <==> judged && Attempts(calls, errors) && free && CallsFinish(calls))
      && (reason == Some(NoToolCallsStop) <==> judged && Attempts(calls, errors) && free && !CallsFinish(calls))
      && (reason == Some(BudgetStop(DeferralBudget)) <==>
            || Exhausted(r) == Some(DeferralBudget)
            || (judged && Attempts(calls, errors) && !free
                && Exhausted(NoteDeferral(EnsureIssue(r, turn), turn)) == Some(DeferralBudget)))
  {
    hide Reported, Exhausted, AfterAssess, Assess, Refreshed, EnsureIssue, NoteDeferral, Completion, CallsOther;
    var facts := Refreshed(r);
    ReadingKeepsFacts(r, policy);
    ReadingsAgree(r, facts, policy);
    ReasonsReported(facts);
    if Exhausted(facts).None? {
      CompletionReasons(facts, turn, CallsFinish(calls), policy);
    }
    SameCharge(r, facts, turn);
  }

  /** The code that goes with a reason. */
  function CodeFor(reason: StopReason): Code {
    match reason
    case FinishStop => Finished
    case NoToolCallsStop => Answered
    case MaxTurnsStop => MaxTurnsReached
    case ParseErrorStop => ParseErrors
    case BudgetStop(b) => BudgetExhausted(b)
  }

  /** What a decision tells besides its reason. When it stops, its code is that of the reason. When it goes on,
      the code says why: parse errors, tools to run, or a deferral with the block and the step of the
      assessment. The gate is always the one the facts give, and so is the step unless deferred. */
  lemma DecisionTells(r: Recovery, calls: seq<Call>, errors: nat, turn: nat, maxTurns: nat, policy: Policy)
    ensures var d, a := Judge(r, calls, errors, turn, maxTurns, policy).decision, Assess(r, policy);
      && d.gate == GateOf(r)
      && (d.reason.Some? ==> d.code == CodeFor(d.reason.value) && d.block.None? && d.next == StepOf(r))
      && (d.reason.None? && errors > 0 && calls == [] ==>
            d.code == RecoverableParse && d.block.None? && d.next == StepOf(r))
      && (d.reason.None? && !(errors > 0 && calls == []) && CallsOther(calls) ==>
            d.code == ContinueWithTools && d.block.None? && d.next == StepOf(r))
      && (d.reason.None? && Attempts(calls, errors) ==>
            && a.blocked && d.block == a.reason && Some(d.next) == a.next
            && d.code == (if a.family == EvidenceFamily then DeferredMissingEvidence(CallsFinish(calls))
                          else DeferredPendingIssue(CallsFinish(calls))))
  {
    hide Reported, Exhausted, AfterAssess, Assess, Refreshed, EnsureIssue, NoteDeferral, Completion, CallsOther, StepOf,
         GateOf;
    var facts := Refreshed(r);
    ReadingKeepsFacts(r, policy);
    ReadingsAgree(r, facts, policy);
    ReportsTell(facts);
    StopsWithReason(r, calls, errors, turn, maxTurns, policy);
    if Exhausted(facts).None? {
      CompletionTells(facts, turn, CallsFinish(calls), policy);
    }
  }

  lemma ReportsTell(r: Recovery)
    ensures forall stop, reason, code {:trigger Reported(r, stop, reason, code, None, None)} ::
      var d := Reported(r, stop, reason, code, None, None).decision;
      d.reason == reason && d.code == code && d.block.None? && d.gate == GateOf(r) && d.next == StepOf(r)
  {
    hide Reported, StepOf, GateOf;
    forall stop, reason, code
      ensures var d := Reported(r, stop, reason, code, None, None).decision;
        d.reason == reason && d.code == code && d.block.None? && d.gate == GateOf(r) && d.next == StepOf(r)
    {
      ReportKeepsFacts(r, stop, reason, code, None, None);
      StepReported(r, stop, reason, code);
    }
  }

  lemma StepReported(r: Recovery, stop: bool, reason: Option<StopReason>, code: Code)
    ensures Reported(r, stop, reason, code, None, None).decision.next == StepOf(r)
  {
    hide StepOf, GateOf, AfterStep, AfterGate;
  }

  lemma CompletionTells(r: Recovery, turn: nat, finishing: bool, policy: Policy)
    requires Exhausted(r).None?
    ensures var d, a := Completion(r, turn, finishing, policy).decision, Assess(r, policy);
      && d.gate == GateOf(r)
      && (d.reason.Some? ==> d.code == CodeFor(d.reason.value) && d.block.None? && d.next == StepOf(r))
      && (d.reason.None? ==>
            && a.blocked && d.block == a.reason && Some(d.next) == a.next
            && d.code == (if a.family == EvidenceFamily then DeferredMissingEvidence(finishing)
                          else DeferredPendingIssue(finishing)))
  {
    hide Reported, Exhausted, AfterAssess, Assess, EnsureIssue, NoteDeferral, StepOf, GateOf, DeferralCode, FamilyOf;
    var a, assessed := Assess(r, policy), AfterAssess(r, policy);
    ReadingKeepsFacts(r, policy);
    ReadingsAgree(r, assessed, policy);
    var counted := NoteDeferral(EnsureIssue(assessed, turn), turn);
    ChargeKeepsStep(assessed, turn);
    ReportsTell(assessed);
    ReportsTell(counted);
    AssessmentHasStep(r, policy);
    if a.reason.Some? {
      CodeTellsFamily(a.reason.value, finishing);
    }
    if a.blocked {
      DeferralTells(counted, DeferralCode(a.reason, finishing), a);
    }
  }

  lemma ChargeKeepsStep(r: Recovery, turn: nat)
    ensures var counted := NoteDeferral(EnsureIssue(r, turn), turn);
      StepOf(counted) == StepOf(r) && GateOf(counted) == GateOf(r)
  {
    hide EvidenceOf;
    EnsuredIssue(r, turn);
    ChargeKeeps(r, turn);
    hide EnsureIssue;
    StepIgnoresCharge(r, NoteDeferral(EnsureIssue(r, turn), turn));
  }

  lemma StepIgnoresCharge(a: Recovery, b: Recovery)
    requires SameButCharged(a, b)
    ensures StepOf(a) == StepOf(b) && GateOf(a) == GateOf(b)
  {
  }

  lemma AssessmentHasStep(r: Recovery, policy: Policy)
    ensures var a := Assess(r, policy);
      (a.blocked <==> a.reason.Some?) && (a.blocked ==> a.next.Some?) && a.family == FamilyOf(a.reason)
  {
  }

  lemma DeferralTells(r: Recovery, code: Code, a: Assessment)
    requires a.next.Some?
    ensures var d := Reported(r, false, None, code, a.reason, a.next).decision;
      d.reason.None? && d.code == code && d.block == a.reason && Some(d.next) == a.next && d.gate == GateOf(r)
  {
    hide StepOf, GateOf, AfterStep, AfterGate;
  }

  lemma ReasonsReported(r: Recovery)
    ensures forall stop, reason, code {:trigger Reported(r, stop, reason, code, None, None)} ::
      Reported(r, stop, reason, code, None, None).decision.reason == reason
  {
    hide Reported;
    forall stop, reason, code ensures Reported(r, stop, reason, code, None, None).decision.reason == reason {
      ReportKeepsFacts(r, stop, reason, code, None, None);
    }
  }

  lemma CompletionReasons(r: Recovery, turn: nat, finishing: bool, policy: Policy)
    requires Exhausted(r).None?
    ensures var counted, reason := NoteDeferral(EnsureIssue(r, turn), turn),
                                   Completion(r, turn, finishing, policy).decision.reason;
      reason == (if !Assess(r, policy).blocked then Some(if finishing then FinishStop else NoToolCallsStop)
                 else if Exhausted(counted) == Some(DeferralBudget) then Some(BudgetStop(DeferralBudget)) else None)
  {
    hide Reported, Exhausted, AfterAssess, Assess, EnsureIssue, NoteDeferral;
    ReadingKeepsFacts(r, policy);
    var assessed, assessment := AfterAssess(r, policy), Assess(r, policy);
    var counted := NoteDeferral(EnsureIssue(assessed, turn), turn);
    SameCharge(r, assessed, turn);
    OnlyDeferrals(r, turn);
    ReasonsReported(assessed);
    ReasonsReported(counted);
    ReportKeepsFacts(counted, false, None, DeferralCode(assessment.reason, finishing), assessment.reason,
                     assessment.next);
  }

  lemma SameCharge(a: Recovery, b: Recovery, turn: nat)
    requires SameFacts(a, b)
    ensures Exhausted(NoteDeferral(EnsureIssue(a, turn), turn)) == Exhausted(NoteDeferral(EnsureIssue(b, turn), turn))
  {
    hide EvidenceOf, Exhausted, EnsureIssue;
    SameEvidenceOf(a, b);
    EnsuredIssue(a, turn);
    EnsuredIssue(b, turn);
    SameIssueExhausted(NoteDeferral(EnsureIssue(a, turn), turn), NoteDeferral(EnsureIssue(b, turn), turn));
  }

  lemma EnsuredIssue(r: Recovery, turn: nat)
    ensures var next := EnsureIssue(r, turn);
      && next.lastDeferral == r.lastDeferral && next.budgets == r.budgets
      && next.active == (if r.active.Some? then Some(r.active.value.(lastObserved := turn))
                         else match EvidenceOf(r)
                              case NotRequired | Validated => None
                              case Stale => Some(ValidationIssue(StaleEvidence, turn, turn, 0, 0, 0))
                              case Missing => Some(ValidationIssue(FinishWithoutValidation, turn, turn, 0, 0, 0)))
  {
    hide EvidenceOf;
  }

  lemma SameIssueExhausted(a: Recovery, b: Recovery)
    requires a.active == b.active && a.budgets == b.budgets
    ensures Exhausted(a) == Exhausted(b)
  {
  }

  /** Charging a blocked attempt can exhaust no other budget. */
  lemma OnlyDeferrals(r: Recovery, turn: nat)
    requires Exhausted(r).None?
    ensures var budget := Exhausted(NoteDeferral(EnsureIssue(r, turn), turn));
      budget.None? || budget == Some(DeferralBudget)
  {
  }

  /** The policy's view of a turn: the state the tools left, up to caches. */
  lemma TurnJudged(a: Agent, t: Turn, maxTurns: nat)
    ensures var turn, worked, next := a.turn + 1, AfterTools(a.work, t, a.turn + 1), TakeTurn(a, t, maxTurns);
      var policy := PolicyOf(worked.progress, turn);
      var judged := AfterAssess(worked.recovery, policy);
      && SameFacts(worked.recovery, judged) && next.turn == turn && next.work.events == worked.events
      && next.decision == Some(Judge(judged, CallsIn(t), t.errors, turn, maxTurns, policy).decision)
      && next.work.recovery == Judge(judged, CallsIn(t), t.errors, turn, maxTurns, policy).state
      && next.status == StatusAfter(next.decision.value)
  {
    hide AfterTools, AfterAssess, Judge;
    ReadingKeepsFacts(AfterTools(a.work, t, a.turn + 1).recovery,
                      PolicyOf(AfterTools(a.work, t, a.turn + 1).progress, a.turn + 1));
  }

  /** The policy gives a reason exactly when it stops. */
  lemma StopsWithReason(r: Recovery, calls: seq<Call>, errors: nat, turn: nat, maxTurns: nat, policy: Policy)
    ensures var d := Judge(r, calls, errors, turn, maxTurns, policy).decision; d.stop <==> d.reason.Some?
  {
    hide AfterStep, StepOf, AfterGate, Exhausted, AfterAssess, Assess, Refreshed, EnsureIssue, NoteDeferral, CallsOther;
  }

  function LastReason(a: Agent): Option<StopReason> { if a.decision.None? then None else a.decision.value.reason }

  /** A run is over exactly if its last decision gives a reason. */
  lemma {:induction false} RunHasReason(required: bool, budgets: Budgets, turns: seq<Turn>, maxTurns: nat)
    ensures var end := RunAgent(Start(required, budgets), turns, maxTurns);
      end.status == Running <==> LastReason(end).None?
  {
    hide TakeTurn;
    if turns != [] {
      RunHasReason(required, budgets, turns[..|turns| - 1], maxTurns);
      var before := RunAgent(Start(required, budgets), turns[..|turns| - 1], maxTurns);
      TurnHasReason(before, turns[|turns| - 1], maxTurns);
    }
  }

  lemma TurnHasReason(a: Agent, t: Turn, maxTurns: nat)
    ensures TakeTurn(a, t, maxTurns).status == Running <==> LastReason(TakeTurn(a, t, maxTurns)).None?
  {
    hide AfterTools, AfterAssess, Judge;
    TurnJudged(a, t, maxTurns);
    var turn, worked := a.turn + 1, AfterTools(a.work, t, a.turn + 1);
    var policy := PolicyOf(worked.progress, turn);
    StopsWithReason(AfterAssess(worked.recovery, policy), CallsIn(t), t.errors, turn, maxTurns, policy);
  }

  // ----- Failing validations -----

  ghost predicate TooManyFailures(events: seq<ToolEvent>, limit: nat) {
    exists kind :: FailuresInARow(events, kind) > limit
  }

  lemma ExhaustedByFailures(r: Recovery, events: seq<ToolEvent>)
    requires ReadsLog(r, events)
    ensures Exhausted(r) == Some(ValidationBudget) <==> TooManyFailures(events, r.budgets.validations)
  {
    hide LastTurn, Count, IssueKindOf, FailuresInARow, LastTracked;
    forall kind ensures FailuresInARow(events, kind) > 0 <==>
      FailedLast(events) && IssueKindOf(LastTracked(events).value.result) == kind
    {
      RowHasKind(events, kind);
    }
    if FailedLast(events) {
      assert TooManyFailures(events, r.budgets.validations) <==>
        FailuresInARow(events, r.active.value.kind) > r.budgets.validations;
    }
  }

  lemma TurnStopsOnFailures(a: Agent, t: Turn, maxTurns: nat)
    requires AgentReadsLog(a)
    ensures var next := TakeTurn(a, t, maxTurns);
      LastReason(next) == Some(BudgetStop(ValidationBudget))
      <==> TooManyFailures(next.work.events, a.work.recovery.budgets.validations)
  {
    hide AfterTools, AfterAssess, Judge, ReadsLog, TooManyFailures, Exhausted, Assess, EnsureIssue, NoteDeferral;
    TurnJudged(a, t, maxTurns);
    TurnReadsLog(a, t, maxTurns);
    ToolsKeepBudgets(a, t);
    var turn, worked := a.turn + 1, AfterTools(a.work, t, a.turn + 1);
    var policy := PolicyOf(worked.progress, turn);
    var judged := AfterAssess(worked.recovery, policy);
    SameExhausted(worked.recovery, judged);
    ExhaustedByFailures(worked.recovery, worked.events);
    ReasonsExactly(judged, CallsIn(t), t.errors, turn, maxTurns, policy);
  }

  lemma ToolsKeepBudgets(a: Agent, t: Turn)
    ensures AfterTools(a.work, t, a.turn + 1).recovery.budgets == a.work.recovery.budgets
  {
    ParseKeepsEvidence(a.work, t, a.turn + 1);
    BudgetsThroughTools(AfterParse(a.work, t, a.turn + 1), t.invocations, a.turn + 1);
  }

  lemma {:induction false} BudgetsThroughTools(w: Working, invocations: seq<Invocation>, turn: nat)
    ensures InvokeAll(w, invocations, turn).recovery.budgets == w.recovery.budgets
  {
    hide RecordTool, AfterCheck;
    if invocations != [] {
      var init, inv := invocations[..|invocations| - 1], invocations[|invocations| - 1];
      BudgetsThroughTools(w, init, turn);
      var before := InvokeAll(w, init, turn);
      CheckKeepsFacts(before.recovery, PolicyOf(before.progress, turn));
      ToolFacts(before.recovery, inv.call, inv.outcome, turn);
    }
  }

  /** A run fails for the validation budget exactly if its log ends in more failing validations of one kind in a
      row than the budget allows. So one more of them than that always ends a run, and nothing less does. */
  lemma {:induction false} ValidationBudgetExactly(required: bool, budgets: Budgets, turns: seq<Turn>, maxTurns: nat)
    ensures var end := RunAgent(Start(required, budgets), turns, maxTurns);
      && (LastReason(end) == Some(BudgetStop(ValidationBudget)) <==> TooManyFailures(end.work.events, budgets.validations))
      && (TooManyFailures(end.work.events, budgets.validations) ==> end.status == Failed)
  {
    hide TakeTurn, AgentReadsLog, TooManyFailures;
    var end := RunAgent(Start(required, budgets), turns, maxTurns);
    if turns == [] {
      NoFailures(budgets.validations);
    } else {
      var init := turns[..|turns| - 1];
      var before := RunAgent(Start(required, budgets), init, maxTurns);
      ValidationBudgetExactly(required, budgets, init, maxTurns);
      RunReadsLog(required, budgets, init, maxTurns);
      BudgetsKept(required, budgets, init, maxTurns);
      TurnStopsOnFailures(before, turns[|init|], maxTurns);
      TurnFails(before, turns[|init|], maxTurns);
    }
  }

  lemma NoFailures(limit: nat)
    ensures !TooManyFailures([], limit)
  {
  }

  lemma TurnFails(a: Agent, t: Turn, maxTurns: nat)
    ensures var next := TakeTurn(a, t, maxTurns); var reason := LastReason(next);
      && (reason.Some? && reason.value.BudgetStop? ==> next.status == Failed)
      && (reason == Some(MaxTurnsStop) ==> next.status == Failed)
      && (reason == Some(ParseErrorStop) ==> next.status == Errored)
  {
    hide AfterTools, AfterAssess, Judge;
    TurnJudged(a, t, maxTurns);
    var turn, worked := a.turn + 1, AfterTools(a.work, t, a.turn + 1);
    var policy := PolicyOf(worked.progress, turn);
    StopsWithReason(AfterAssess(worked.recovery, policy), CallsIn(t), t.errors, turn, maxTurns, policy);
  }

  /** In particular, while a run goes on no kind of validation has failed more often in a row than allowed. */
  lemma FailuresWithinBudget(required: bool, budgets: Budgets, turns: seq<Turn>, maxTurns: nat, kind: IssueKind)
    requires RunAgent(Start(required, budgets), turns, maxTurns).status == Running
    ensures FailuresInARow(RunAgent(Start(required, budgets), turns, maxTurns).work.events, kind) <= budgets.validations
  {
    hide RunAgent, FailuresInARow;
    ValidationBudgetExactly(required, budgets, turns, maxTurns);
  }

  // ----- Parse errors -----

  /** The parse-error turns that end a list of responses. */
  function ParseErrorsInARow(turns: seq<Turn>): nat {
    if turns == [] || !ParseErrorTurn(turns[|turns| - 1]) then 0
    else ParseErrorsInARow(turns[..|turns| - 1]) + 1
  }

  function ParseErrorsIn(turns: seq<Turn>): nat {
    if turns == [] then 0 else ParseErrorsIn(turns[..|turns| - 1]) + turns[|turns| - 1].errors
  }

  lemma {:induction false} ToolsKeepStreak(w: Working, invocations: seq<Invocation>, turn: nat)
    ensures var next := InvokeAll(w, invocations, turn).recovery;
      next.streak == w.recovery.streak && next.parseErrors == w.recovery.parseErrors
  {
    hide RecordTool, AfterCheck;
    if invocations != [] {
      var init, inv := invocations[..|invocations| - 1], invocations[|invocations| - 1];
      ToolsKeepStreak(w, init, turn);
      var before := InvokeAll(w, init, turn);
      CheckKeepsFacts(before.recovery, PolicyOf(before.progress, turn));
      ToolFacts(before.recovery, inv.call, inv.outcome, turn);
    }
  }

  lemma TurnParses(a: Agent, t: Turn, maxTurns: nat)
    ensures var r, next, worked := a.work.recovery, TakeTurn(a, t, maxTurns), AfterTools(a.work, t, a.turn + 1).recovery;
      && worked.streak == (if ParseErrorTurn(t) then r.streak + 1 else 0)
      && next.work.recovery.streak == worked.streak
      && next.work.recovery.parseErrors == r.parseErrors + t.errors
  {
    hide AfterAssess, Judge, InvokeAll, SameButCharged;
    var turn := a.turn + 1;
    ToolsKeepStreak(AfterParse(a.work, t, turn), t.invocations, turn);
    TurnJudged(a, t, maxTurns);
    var worked := AfterTools(a.work, t, turn);
    var policy := PolicyOf(worked.progress, turn);
    var judged := AfterAssess(worked.recovery, policy);
    JudgeCharges(judged, CallsIn(t), t.errors, turn, maxTurns, policy);
    ChargedParsing(judged, TakeTurn(a, t, maxTurns).work.recovery);
  }

  lemma ChargedParsing(a: Recovery, b: Recovery)
    requires SameButCharged(a, b)
    ensures b.streak == a.streak && b.parseErrors == a.parseErrors
  {
  }

  /** Over every run: the streak is the number of parse-error turns in a row, and the total that of all errors
      in the responses taken. */
  lemma {:induction false} RunCountsParsing(required: bool, budgets: Budgets, turns: seq<Turn>, maxTurns: nat)
    ensures var end := RunAgent(Start(required, budgets), turns, maxTurns);
      && end.turn <= |turns| && (end.status == Running && end.turn < maxTurns ==> end.turn == |turns|)
      && end.work.recovery.streak == ParseErrorsInARow(turns[..end.turn])
      && end.work.recovery.parseErrors == ParseErrorsIn(turns[..end.turn])
  {
    hide TakeTurn;
    if turns != [] {
      var init := turns[..|turns| - 1];
      RunCountsParsing(required, budgets, init, maxTurns);
      var before := RunAgent(Start(required, budgets), init, maxTurns);
      assert init[..before.turn] == turns[..before.turn];
      TurnParses(before, turns[|init|], maxTurns);
      LastTurnStops(before, turns[|init|], maxTurns);
      assert turns[..|turns|] == turns;
    }
  }

  /** A run ends in error exactly if its last two responses were parse errors, the turn limit not reached. */
  lemma {:induction false} ParseErrorStopExactly(required: bool, budgets: Budgets, turns: seq<Turn>, maxTurns: nat)
    requires maxTurns >= 1
    ensures var end := RunAgent(Start(required, budgets), turns, maxTurns);
      && end.turn <= |turns|
      && (LastReason(end) == Some(ParseErrorStop) <==>
            end.turn < maxTurns && ParseErrorsInARow(turns[..end.turn]) >= MAX_PARSE_ERROR_TURNS)
      && (LastReason(end) == Some(ParseErrorStop) <==> end.status == Errored)
  {
    hide TakeTurn, AtRest, Bounded;
    RunCountsParsing(required, budgets, turns, maxTurns);
    if turns != [] {
      var init := turns[..|turns| - 1];
      ParseErrorStopExactly(required, budgets, init, maxTurns);
      CountersStayBounded(required, budgets, init, maxTurns);
      var before := RunAgent(Start(required, budgets), init, maxTurns);
      assert init[..before.turn] == turns[..before.turn];
      if before.status == Running && before.turn < maxTurns {
        LastTurnStops(before, turns[|init|], maxTurns);
        TurnStopsOnErrors(before, turns[|init|], maxTurns);
      }
    }
  }

  lemma TurnStopsOnErrors(a: Agent, t: Turn, maxTurns: nat)
    requires AtRest(a.work.recovery, a.turn)
    ensures var next := TakeTurn(a, t, maxTurns);
      && (LastReason(next) == Some(ParseErrorStop) <==>
            a.turn + 1 < maxTurns && ParseErrorTurn(t) && next.work.recovery.streak >= MAX_PARSE_ERROR_TURNS)
      && (LastReason(next) == Some(ParseErrorStop) <==> next.status == Errored)
  {
    hide AfterAssess, Judge, AfterParse, Exhausted, Assess, EnsureIssue, NoteDeferral, AtRest;
    var turn, worked := a.turn + 1, AfterTools(a.work, t, a.turn + 1);
    var policy := PolicyOf(worked.progress, turn);
    var judged := AfterAssess(worked.recovery, policy);
    TurnJudged(a, t, maxTurns);
    TurnParses(a, t, maxTurns);
    ReasonsExactly(judged, CallsIn(t), t.errors, turn, maxTurns, policy);
    StopsWithReason(judged, CallsIn(t), t.errors, turn, maxTurns, policy);
    TurnFails(a, t, maxTurns);
    if ParseErrorTurn(t) {
      ParseKeepsIssue(a.work, t, turn);
      SameExhausted(worked.recovery, judged);
      RestHasRoom(a.work.recovery, a.turn);
      assert CallsIn(t) == [];
    } else {
      assert CallsIn(t) != [] || t.errors == 0;
    }
  }

  // ----- The turn limit -----

  lemma LastTurnJudged(a: Agent, t: Turn, maxTurns: nat)
    requires a.turn + 1 >= maxTurns
    ensures var next := TakeTurn(a, t, maxTurns);
      && next.status == Failed && LastReason(next).Some?
      && (LastReason(next) == Some(MaxTurnsStop) || LastReason(next).value.BudgetStop?)
  {
    hide AfterTools, AfterAssess, Judge, Exhausted, Assess, EnsureIssue, NoteDeferral;
    var turn, worked := a.turn + 1, AfterTools(a.work, t, a.turn + 1);
    var policy := PolicyOf(worked.progress, turn);
    var judged := AfterAssess(worked.recovery, policy);
    TurnJudged(a, t, maxTurns);
    ReasonsExactly(judged, CallsIn(t), t.errors, turn, maxTurns, policy);
    JudgeAtLimit(judged, CallsIn(t), t.errors, turn, maxTurns, policy);
    StopsWithReason(judged, CallsIn(t), t.errors, turn, maxTurns, policy);
    TurnFails(a, t, maxTurns);
  }

  /** A run that uses up its turns has failed, even if it finishes in the last one; so completed runs have turns
      left. A run that is allowed no turn fails without one. */
  lemma {:induction false} LastTurnFails(required: bool, budgets: Budgets, turns: seq<Turn>, maxTurns: nat)
    ensures var end := RunAgent(Start(required, budgets), turns, maxTurns);
      && end.turn <= maxTurns
      && (end.turn == maxTurns ==> FinalStatus(end, maxTurns) == Failed)
      && (end.turn < maxTurns ==> FinalStatus(end, maxTurns) == end.status)
      && (end.turn == maxTurns > 0 ==>
            LastReason(end).Some? && (LastReason(end) == Some(MaxTurnsStop) || LastReason(end).value.BudgetStop?))
  {
    hide TakeTurn;
    if turns != [] {
      LastTurnFails(required, budgets, turns[..|turns| - 1], maxTurns);
      var before := RunAgent(Start(required, budgets), turns[..|turns| - 1], maxTurns);
      LastTurnStops(before, turns[|turns| - 1], maxTurns);
      if before.turn + 1 == maxTurns {
        LastTurnJudged(before, turns[|turns| - 1], maxTurns);
      }
    }
  }

  // ----- Caches -----

  /** The cached evidence and phase are those the facts give. */
  predicate Fresh(r: Recovery) { r == Refreshed(r) }

  lemma FreshReport(r: Recovery, stop: bool, reason: Option<StopReason>, code: Code, block: Option<BlockReason>,
                    next: Option<Step>)
    requires Fresh(r)
    ensures Fresh(Reported(r, stop, reason, code, block, next).state)
  {
    hide StepOf, GateOf;
    FreshStep(r);
  }

  lemma FreshStep(r: Recovery)
    requires Fresh(r)
    ensures AfterStep(r) == r && AfterGate(r) == r && RefreshEvidence(r) == r
  {
  }

  lemma FreshAssess(r: Recovery, policy: Policy)
    requires Fresh(r)
    ensures Fresh(AfterAssess(r, policy))
  {
    hide BranchOf, StepOf;
    FreshStep(r.(gateReason := ReasonOf(BranchOf(r, policy))));
  }

  lemma FreshCharge(r: Recovery, turn: nat)
    requires Fresh(r)
    ensures Fresh(NoteDeferral(EnsureIssue(r, turn), turn))
  {
  }

  /** What a turn leaves behind is fresh: evidence, phase and the flag of a mutation to validate are never stale
      when they are recorded. */
  lemma CachesAreFresh(a: Agent, t: Turn, maxTurns: nat)
    ensures Fresh(TakeTurn(a, t, maxTurns).work.recovery)
  {
    hide AfterTools, AfterAssess, Judge, Fresh;
    TurnJudged(a, t, maxTurns);
    var turn, worked := a.turn + 1, AfterTools(a.work, t, a.turn + 1);
    var policy := PolicyOf(worked.progress, turn);
    FreshJudge(AfterAssess(worked.recovery, policy), CallsIn(t), t.errors, turn, maxTurns, policy);
  }

  lemma FreshJudge(r: Recovery, calls: seq<Call>, errors: nat, turn: nat, maxTurns: nat, policy: Policy)
    ensures Fresh(Judge(r, calls, errors, turn, maxTurns, policy).state)
  {
    hide Reported, Exhausted, AfterAssess, Assess, EnsureIssue, NoteDeferral, Fresh, Refreshed;
    var facts := Refreshed(r);
    RefreshedIsFresh(r);
    FreshAssess(facts, policy);
    var assessed, assessment := AfterAssess(facts, policy), Assess(facts, policy);
    var counted := NoteDeferral(EnsureIssue(assessed, turn), turn);
    FreshCharge(assessed, turn);
    FreshReports(facts);
    FreshReports(assessed);
    FreshReports(counted);
    FreshReport(counted, false, None, DeferralCode(assessment.reason, CallsFinish(calls)), assessment.reason,
                assessment.next);
  }

  lemma RefreshedIsFresh(r: Recovery)
    ensures Fresh(Refreshed(r))
  {
  }

  lemma FreshReports(r: Recovery)
    requires Fresh(r)
    ensures forall stop, reason, code {:trigger Reported(r, stop, reason, code, None, None)} ::
      Fresh(Reported(r, stop, reason, code, None, None).state)
  {
    hide Reported, Fresh;
    forall stop, reason, code ensures Fresh(Reported(r, stop, reason, code, None, None).state) {
      FreshReport(r, stop, reason, code, None, None);
    }
  }
}
