/** What validation evidence does not promise: runs that complete although one might expect otherwise. */
module EvidenceLimits {
  import opened Prelude
  import opened Recovery
  import opened Stopping
  import opened Gates
  import opened AgentLoop
  import opened AgentRuns
  import opened AgentBudgets
  import opened FinishTurns
  import opened LastValidation
  import opened AttemptRuns

  const PASSED := ToolResult(true, false, "", "", true)
  const FAILED_CHECK := ToolResult(false, true, "", "", true)
  const NOT_FOUND := ToolResult(false, true, "not_found", "", false)

  const VALIDATE := Call("python_run")
  const WRITE := Call("write_file")
  const READ := Call("read_file")
  const LIST := Call("list_files")

  const ANSWER_TURN := Turn([], 0, false)

  /** A turn of tool calls goes on, and leaves the facts as the tools left them. */
  lemma ToolTurnContinues(a: Agent, t: Turn, maxTurns: nat)
    requires t.errors == 0 && t.invocations != [] && !IsFinish(t.invocations[0].call) && a.turn + 1 < maxTurns
    requires Exhausted(AfterTools(a.work, t, a.turn + 1).recovery).None?
    ensures var next, worked := TakeTurn(a, t, maxTurns), AfterTools(a.work, t, a.turn + 1);
      && next.status == Running && next.turn == a.turn + 1
      && SameFacts(worked.recovery, next.work.recovery)
      && next.work.progress == worked.progress && next.work.events == worked.events
  {
    hide AfterTools, AfterAssess, Exhausted;
    var worked := AfterTools(a.work, t, a.turn + 1);
    var policy := PolicyOf(worked.progress, a.turn + 1);
    var r := AfterAssess(worked.recovery, policy);
    ReadingKeepsFacts(worked.recovery, policy);
    SameExhausted(worked.recovery, r);
    assert !IsFinish(CallsIn(t)[0]);
    JudgeOfTools(r, CallsIn(t), a.turn + 1, maxTurns, policy);
    FactsChain(worked.recovery, r, Judge(r, CallsIn(t), 0, a.turn + 1, maxTurns, policy).state);
  }

  lemma FactsChain(a: Recovery, b: Recovery, c: Recovery)
    requires SameFacts(a, b) && SameFacts(b, c)
    ensures SameFacts(a, c)
  {
  }

  lemma JudgeOfTools(r: Recovery, calls: seq<Call>, turn: nat, maxTurns: nat, policy: Policy)
    requires Exhausted(r).None? && CallsOther(calls) && turn < maxTurns
    ensures var verdict := Judge(r, calls, 0, turn, maxTurns, policy);
      !verdict.decision.stop && SameFacts(r, verdict.state)
  {
    hide Exhausted, Reported, Completion;
    var facts := Refreshed(r);
    StepKeepsFacts(r);
    SameExhausted(r, facts);
    ReportKeepsFacts(facts, false, None, ContinueWithTools, None, None);
    FactsChain(r, facts, Reported(facts, false, None, ContinueWithTools, None, None).state);
  }

  /** An answer without tool calls completes as soon as the gate is open and progress is not in question. */
  lemma AnswerCompletes(a: Agent, maxTurns: nat)
    requires a.turn + 1 < maxTurns && Exhausted(a.work.recovery).None?
    requires a.work.recovery.pending.None? && (a.work.recovery.failure.None? || a.work.recovery.corrective)
    requires EvidenceOf(a.work.recovery) == Validated && a.work.progress.recent.None? && Meaningful(a.work.progress)
    ensures TakeTurn(a, ANSWER_TURN, maxTurns).status == Completed
    ensures TakeTurn(a, ANSWER_TURN, maxTurns).work.events == a.work.events
  {
    hide Judge, AfterAssess, Exhausted, Assess;
    var t, turn := ANSWER_TURN, a.turn + 1;
    FinishTurnJudged(a, t, maxTurns);
    NoOtherCalls(t);
    var parsed := AfterParse(a.work, t, turn);
    var policy := PolicyOf(parsed.progress, turn);
    var judged := AfterAssess(AfterTools(a.work, t, turn).recovery, policy);
    SameExhausted(parsed.recovery, judged);
    SameExhausted(a.work.recovery, parsed.recovery.(streak := a.work.recovery.streak));
    ReadingsAgree(parsed.recovery, judged, policy);
    AssessmentMatchesGate(parsed.recovery, policy);
    AcceptsExactly(judged, CallsIn(t), 0, turn, maxTurns, policy);
    ParseKeepsIssue(a.work, t, turn);
  }

  // ----- A mutation after the validation, in the same turn -----

  const CHECK_THEN_WRITE := Turn([Invocation(VALIDATE, true, PASSED), Invocation(WRITE, true, PASSED)], 0, false)

  lemma TwoCalls(w: Working, first: Invocation, second: Invocation, turn: nat)
    ensures InvokeAll(w, [first, second], turn) == Invoke(Invoke(w, first, turn), second, turn)
  {
    hide Invoke;
    assert [first, second][..1] == [first] && [first][..0] == [];
    assert InvokeAll(w, [], turn) == w;
    assert InvokeAll(w, [first], turn) == Invoke(w, first, turn);
  }

  lemma OneCall(w: Working, first: Invocation, turn: nat)
    ensures InvokeAll(w, [first], turn) == Invoke(w, first, turn)
  {
    hide Invoke;
    assert [first][..0] == [];
    assert InvokeAll(w, [], turn) == w;
  }

  /** A successful validation clears everything that was open. */
  lemma ValidationPasses(w: Working, turn: nat)
    ensures var next := Invoke(w, Invocation(VALIDATE, true, PASSED), turn);
      && next.recovery.pending.None? && next.recovery.active.None? && next.recovery.failure.None?
      && next.recovery.lastSuccess == Some(turn) && next.recovery.lastMutation == w.recovery.lastMutation
      && next.recovery.required == w.recovery.required && next.recovery.streak == w.recovery.streak
      && next.events == w.events + [ToolEvent(turn, VALIDATE, PASSED)]
      && next.progress.recent.None? && Meaningful(next.progress)
  {
  }

  lemma WriteSucceeds(w: Working, turn: nat)
    requires w.recovery.pending.None? && w.recovery.active.None? && w.recovery.failure.None?
    requires w.progress.recent.None?
    ensures var next := Invoke(w, Invocation(WRITE, true, PASSED), turn);
      && next.recovery.pending.None? && next.recovery.active.None? && next.recovery.failure.None?
      && next.recovery.lastSuccess == w.recovery.lastSuccess && next.recovery.lastMutation == Some(turn)
      && next.recovery.required == w.recovery.required
      && next.events == w.events + [ToolEvent(turn, WRITE, PASSED)]
      && next.progress.recent.None? && Meaningful(next.progress)
  {
  }

  /** Evidence is fresh by turn, not by call: a file written after the last validation, but in the same turn,
      does not make it stale, and the run completes. */
  lemma SameTurnMutationCompletes()
    ensures var end := RunAgent(Start(true, DEFAULT_BUDGETS), [CHECK_THEN_WRITE, ANSWER_TURN], 9);
      && end.status == Completed
      && end.work.events == [ToolEvent(1, VALIDATE, PASSED), ToolEvent(1, WRITE, PASSED)]
  {
    hide Invoke, TakeTurn, RunAgent, InvokeAll, Meaningful;
    var start := Start(true, DEFAULT_BUDGETS);
    var parsed := AfterParse(start.work, CHECK_THEN_WRITE, 1);
    ParsesQuietly(start.work, CHECK_THEN_WRITE, 1);
    var validated := Invoke(parsed, Invocation(VALIDATE, true, PASSED), 1);
    TwoCalls(parsed, Invocation(VALIDATE, true, PASSED), Invocation(WRITE, true, PASSED), 1);
    ValidationPasses(parsed, 1);
    WriteSucceeds(validated, 1);
    NothingActive(AfterTools(start.work, CHECK_THEN_WRITE, 1).recovery);
    ToolTurnContinues(start, CHECK_THEN_WRITE, 9);
    var middle := TakeTurn(start, CHECK_THEN_WRITE, 9);
    NothingActive(middle.work.recovery);
    AnswerCompletes(middle, 9);
    NoTurns(start, 9);
    Taken(start, [], CHECK_THEN_WRITE, [CHECK_THEN_WRITE], 9);
    Taken(start, [CHECK_THEN_WRITE], ANSWER_TURN, [CHECK_THEN_WRITE, ANSWER_TURN], 9);
  }

  lemma NothingActive(r: Recovery)
    requires r.active.None?
    ensures Exhausted(r).None?
  {
  }

  lemma ParsesQuietly(w: Working, t: Turn, turn: nat)
    requires t.errors == 0 && !t.protocol && w.recovery.pending != Some(ParseErrorPending)
    ensures var parsed := AfterParse(w, t, turn);
      && parsed.progress == w.progress && parsed.events == w.events
      && parsed.recovery == RefreshPhase(w.recovery).(streak := 0)
  {
  }

  // ----- A validation failure overtaken by a tool failure -----

  const CHECK_PASSES := Turn([Invocation(VALIDATE, true, PASSED)], 0, false)
  const CHECK_FAILS := Turn([Invocation(VALIDATE, true, FAILED_CHECK)], 0, false)
  const READ_THEN_LIST := Turn([Invocation(READ, true, NOT_FOUND), Invocation(LIST, true, PASSED)], 0, false)

  lemma MoreNames(names: set<string>, name: string)
    ensures |names + {name}| >= |names|
  {
    assert names + {name} == names + ({name} - names);
  }

  lemma ValidationFails(w: Working, turn: nat)
    requires w.recovery.active.None? && Meaningful(w.progress)
    ensures var next := Invoke(w, Invocation(VALIDATE, true, FAILED_CHECK), turn);
      && next.recovery.pending == Some(ValidationFailurePending)
      && next.recovery.active == Some(ValidationIssue(NonzeroExit, turn, turn, 1, 0, 0))
      && next.recovery.lastSuccess == w.recovery.lastSuccess && next.recovery.lastMutation == w.recovery.lastMutation
      && next.recovery.required == w.recovery.required && next.recovery.budgets == w.recovery.budgets
      && next.recovery.streak == w.recovery.streak
      && next.events == w.events + [ToolEvent(turn, VALIDATE, FAILED_CHECK)]
      && Meaningful(next.progress)
  {
    MoreNames(w.progress.names, VALIDATE.name);
  }

  lemma ReadFails(w: Working, turn: nat)
    requires Meaningful(w.progress)
    ensures var next := Invoke(w, Invocation(READ, true, NOT_FOUND), turn);
      && next.recovery.pending == Some(ToolFailurePending)
      && next.recovery.active == w.recovery.active
      && next.recovery.lastSuccess == w.recovery.lastSuccess && next.recovery.lastMutation == w.recovery.lastMutation
      && next.recovery.required == w.recovery.required && next.recovery.budgets == w.recovery.budgets
      && next.events == w.events + [ToolEvent(turn, READ, NOT_FOUND)]
      && Meaningful(next.progress)
  {
    MoreNames(w.progress.names, READ.name);
  }

  lemma ListSucceeds(w: Working, turn: nat)
    requires w.recovery.pending == Some(ToolFailurePending) && Meaningful(w.progress)
    ensures var next := Invoke(w, Invocation(LIST, true, PASSED), turn);
      && next.recovery.pending.None? && next.recovery.failure.None?
      && next.recovery.active == w.recovery.active
      && next.recovery.lastSuccess == w.recovery.lastSuccess && next.recovery.lastMutation == w.recovery.lastMutation
      && next.recovery.required == w.recovery.required && next.recovery.budgets == w.recovery.budgets
      && next.events == w.events + [ToolEvent(turn, LIST, PASSED)]
      && next.progress.recent.None? && Meaningful(next.progress)
  {
    MoreNames(w.progress.names, LIST.name);
  }

  /** The state after the failing validation: one attempt is on the books. */
  lemma FailingTurn(a: Agent)
    requires a.turn == 1 && a.work.recovery.active.None? && a.work.recovery.pending.None?
    requires Meaningful(a.work.progress) && a.work.recovery.budgets == DEFAULT_BUDGETS
    ensures var next := TakeTurn(a, CHECK_FAILS, 9);
      && next.status == Running && next.turn == 2
      && next.work.recovery.pending == Some(ValidationFailurePending)
      && next.work.recovery.active == Some(ValidationIssue(NonzeroExit, 2, 2, 1, 0, 0))
      && next.work.recovery.lastSuccess == a.work.recovery.lastSuccess
      && next.work.recovery.lastMutation == a.work.recovery.lastMutation
      && next.work.recovery.required == a.work.recovery.required && next.work.recovery.budgets == DEFAULT_BUDGETS
      && next.work.recovery.streak == 0
      && next.work.events == a.work.events + [ToolEvent(2, VALIDATE, FAILED_CHECK)]
      && Meaningful(next.work.progress)
  {
    hide Invoke, TakeTurn, InvokeAll, Meaningful, AfterParse;
    var parsed := AfterParse(a.work, CHECK_FAILS, 2);
    ParsesQuietly(a.work, CHECK_FAILS, 2);
    OneCall(parsed, Invocation(VALIDATE, true, FAILED_CHECK), 2);
    ValidationFails(parsed, 2);
    ToolTurnContinues(a, CHECK_FAILS, 9);
  }

  /** A failed read replaces the pending validation failure, and any success then clears it. */
  lemma OvertakingTurn(a: Agent)
    requires a.turn == 2 && a.work.recovery.pending == Some(ValidationFailurePending)
    requires a.work.recovery.active == Some(ValidationIssue(NonzeroExit, 2, 2, 1, 0, 0))
    requires Meaningful(a.work.progress) && a.work.recovery.budgets == DEFAULT_BUDGETS
    ensures var next := TakeTurn(a, READ_THEN_LIST, 9);
      && next.status == Running && next.turn == 3
      && next.work.recovery.pending.None? && next.work.recovery.failure.None?
      && next.work.recovery.active == a.work.recovery.active
      && next.work.recovery.lastSuccess == a.work.recovery.lastSuccess
      && next.work.recovery.lastMutation == a.work.recovery.lastMutation
      && next.work.recovery.required == a.work.recovery.required && next.work.recovery.budgets == DEFAULT_BUDGETS
      && next.work.events == a.work.events + [ToolEvent(3, READ, NOT_FOUND)] + [ToolEvent(3, LIST, PASSED)]
      && next.work.progress.recent.None? && Meaningful(next.work.progress)
  {
    hide Invoke, TakeTurn, InvokeAll, Meaningful, AfterParse;
    var parsed := AfterParse(a.work, READ_THEN_LIST, 3);
    ParsesQuietly(a.work, READ_THEN_LIST, 3);
    TwoCalls(parsed, Invocation(READ, true, NOT_FOUND), Invocation(LIST, true, PASSED), 3);
    ReadFails(parsed, 3);
    ListSucceeds(Invoke(parsed, Invocation(READ, true, NOT_FOUND), 3), 3);
    ToolTurnContinues(a, READ_THEN_LIST, 9);
  }

  lemma PassingTurn()
    ensures var next := TakeTurn(Start(true, DEFAULT_BUDGETS), CHECK_PASSES, 9);
      && next.status == Running && next.turn == 1
      && next.work.recovery.pending.None? && next.work.recovery.active.None?
      && next.work.recovery.failure.None? && next.work.recovery.streak == 0
      && next.work.recovery.lastSuccess == Some(1) && next.work.recovery.lastMutation.None?
      && next.work.recovery.required && next.work.recovery.budgets == DEFAULT_BUDGETS
      && next.work.events == [ToolEvent(1, VALIDATE, PASSED)] && Meaningful(next.work.progress)
  {
    hide Invoke, TakeTurn, InvokeAll, Meaningful, AfterParse;
    var start := Start(true, DEFAULT_BUDGETS);
    var parsed := AfterParse(start.work, CHECK_PASSES, 1);
    ParsesQuietly(start.work, CHECK_PASSES, 1);
    OneCall(parsed, Invocation(VALIDATE, true, PASSED), 1);
    ValidationPasses(parsed, 1);
    NothingActive(AfterTools(start.work, CHECK_PASSES, 1).recovery);
    ToolTurnContinues(start, CHECK_PASSES, 9);
    BudgetsKept(true, DEFAULT_BUDGETS, [CHECK_PASSES], 9);
    RunTurns(start, [], CHECK_PASSES, 9);
    assert [] + [CHECK_PASSES] == [CHECK_PASSES];
  }

  /** Completion does not promise that the most recent validation passed: here it failed, a later tool failure
      took its place and was cleared by an unrelated success, and the run completes with its validation
      issue still open. */
  lemma OvertakenValidationFailureCompletes()
    ensures var turns := [CHECK_PASSES, CHECK_FAILS, READ_THEN_LIST, ANSWER_TURN];
      var end := RunAgent(Start(true, DEFAULT_BUDGETS), turns, 9);
      && end.status == Completed
      && end.work.events == [ToolEvent(1, VALIDATE, PASSED), ToolEvent(2, VALIDATE, FAILED_CHECK),
                             ToolEvent(3, READ, NOT_FOUND), ToolEvent(3, LIST, PASSED)]
  {
    hide TakeTurn, RunAgent, Meaningful, Exhausted, EvidenceOf;
    var start := Start(true, DEFAULT_BUDGETS);
    PassingTurn();
    var first := TakeTurn(start, CHECK_PASSES, 9);
    FailingTurn(first);
    var second := TakeTurn(first, CHECK_FAILS, 9);
    OvertakingTurn(second);
    var third := TakeTurn(second, READ_THEN_LIST, 9);
    OneAttempt(third.work.recovery);
    EarlierEvidence(third.work.recovery);
    AnswerCompletes(third, 9);
    NoTurns(start, 9);
    Taken(start, [], CHECK_PASSES, [CHECK_PASSES], 9);
    Taken(start, [CHECK_PASSES], CHECK_FAILS, [CHECK_PASSES, CHECK_FAILS], 9);
    var three := [CHECK_PASSES, CHECK_FAILS, READ_THEN_LIST];
    Taken(start, [CHECK_PASSES, CHECK_FAILS], READ_THEN_LIST, three, 9);
    Taken(start, three, ANSWER_TURN, three + [ANSWER_TURN], 9);
    assert three + [ANSWER_TURN] == [CHECK_PASSES, CHECK_FAILS, READ_THEN_LIST, ANSWER_TURN];
  }

  lemma NoTurns(a: Agent, maxTurns: nat)
    ensures RunAgent(a, [], maxTurns) == a
  {
  }

  /** One more turn of a run that goes on. */
  lemma Taken(a: Agent, turns: seq<Turn>, t: Turn, all: seq<Turn>, maxTurns: nat)
    requires all == turns + [t]
    requires RunAgent(a, turns, maxTurns).status == Running && RunAgent(a, turns, maxTurns).turn < maxTurns
    ensures RunAgent(a, all, maxTurns) == TakeTurn(RunAgent(a, turns, maxTurns), t, maxTurns)
  {
    RunTurns(a, turns, t, maxTurns);
  }

  /** Required evidence that was validated in turn 1, with no mutation since, is validated. */
  lemma EarlierEvidence(r: Recovery)
    requires r.required && r.lastSuccess == Some(1) && r.lastMutation.None?
    ensures EvidenceOf(r) == Validated
  {
  }

  lemma OneAttempt(r: Recovery)
    requires r.active == Some(ValidationIssue(NonzeroExit, 2, 2, 1, 0, 0)) && r.budgets == DEFAULT_BUDGETS
    ensures Exhausted(r).None?
  {
  }

  // ----- A validation failure overtaken by a parse error, or never tracked -----

  const PARSE_ERROR_TURN := Turn([], 1, true)
  const LIST_FILES := Turn([Invocation(LIST, true, PASSED)], 0, false)
  const REFUSED := ToolResult(false, true, "command_policy", "", true)
  const REFUSED_THEN_LIST := Turn([Invocation(VALIDATE, true, REFUSED), Invocation(LIST, true, PASSED)], 0, false)

  /** A first parse error goes on, with the facts as parsing left them. */
  lemma ParseErrorContinues(a: Agent, maxTurns: nat)
    requires a.turn + 1 < maxTurns && a.work.recovery.streak == 0 && Exhausted(a.work.recovery).None?
    ensures var next, parsed := TakeTurn(a, PARSE_ERROR_TURN, maxTurns),
                                AfterParse(a.work, PARSE_ERROR_TURN, a.turn + 1);
      && next.status == Running && next.turn == a.turn + 1
      && SameFacts(parsed.recovery, next.work.recovery)
      && next.work.progress == parsed.progress && next.work.events == a.work.events
  {
    hide AfterAssess, Exhausted, Judge, AfterParse, InvokeAll;
    var t, turn := PARSE_ERROR_TURN, a.turn + 1;
    var parsed := AfterParse(a.work, t, turn);
    FinishTurnJudged(a, t, maxTurns);
    ParseKeepsIssue(a.work, t, turn);
    ParsesBadly(a.work, turn);
    var policy := PolicyOf(parsed.progress, turn);
    var judged := AfterAssess(AfterTools(a.work, t, turn).recovery, policy);
    SameExhausted(parsed.recovery, judged);
    JudgeOfParseError(judged, CallsIn(t), turn, maxTurns, policy);
    FactsChain(parsed.recovery, judged, Judge(judged, CallsIn(t), 1, turn, maxTurns, policy).state);
  }

  lemma JudgeOfParseError(r: Recovery, calls: seq<Call>, turn: nat, maxTurns: nat, policy: Policy)
    requires Exhausted(r).None? && calls == [] && turn < maxTurns && r.streak < MAX_PARSE_ERROR_TURNS
    ensures var verdict := Judge(r, calls, 1, turn, maxTurns, policy);
      !verdict.decision.stop && SameFacts(r, verdict.state)
  {
    hide Exhausted, Reported, Completion;
    var facts := Refreshed(r);
    StepKeepsFacts(r);
    SameExhausted(r, facts);
    ReportKeepsFacts(facts, false, None, RecoverableParse, None, None);
    FactsChain(r, facts, Reported(facts, false, None, RecoverableParse, None, None).state);
  }

  lemma ParsesBadly(w: Working, turn: nat)
    ensures var parsed := AfterParse(w, PARSE_ERROR_TURN, turn);
      && parsed.recovery.pending == Some(ParseErrorPending) && parsed.recovery.failure == Some(ParseFailure)
      && !parsed.recovery.corrective
      && parsed.recovery.streak == w.recovery.streak + 1 && parsed.recovery.failureTurn == Some(turn)
      && parsed.progress == NoteProtocol(w.progress, ProtocolFailure, turn) && parsed.events == w.events
  {
  }

  /** After a parse error the next clean response clears the pending issue, and a success is corrective. */
  lemma ListAfterParseError(w: Working, turn: nat)
    requires w.recovery.pending == Some(ParseErrorPending) && w.recovery.failure == Some(ParseFailure)
    requires w.recovery.failureTurn.Some? && w.recovery.failureTurn.value <= turn && Meaningful(w.progress)
    ensures var next := AfterTools(w, LIST_FILES, turn);
      && next.recovery.pending.None? && next.recovery.corrective
      && next.recovery.active == w.recovery.active && next.recovery.budgets == w.recovery.budgets
      && next.recovery.lastSuccess == w.recovery.lastSuccess && next.recovery.lastMutation == w.recovery.lastMutation
      && next.recovery.required == w.recovery.required
      && next.events == w.events + [ToolEvent(turn, LIST, PASSED)]
      && next.progress.recent.None? && Meaningful(next.progress)
  {
    hide InvokeAll, PhaseOf, EvidenceOf;
    MoreNames(w.progress.names, LIST.name);
    OneCall(AfterParse(w, LIST_FILES, turn), Invocation(LIST, true, PASSED), turn);
  }

  /** The state after a parse error: the failure it notes has replaced any other. */
  lemma ParseErrorTurn(a: Agent)
    requires a.turn + 1 < 9 && a.work.recovery.streak == 0 && Exhausted(a.work.recovery).None?
    ensures var next, r := TakeTurn(a, PARSE_ERROR_TURN, 9), a.work.recovery;
      && next.status == Running && next.turn == a.turn + 1
      && next.work.recovery.pending == Some(ParseErrorPending) && next.work.recovery.failure == Some(ParseFailure)
      && next.work.recovery.failureTurn == Some(a.turn + 1) && !next.work.recovery.corrective
      && next.work.recovery.active == r.active && SameEvidence(r, next.work.recovery)
      && next.work.progress == NoteProtocol(a.work.progress, ProtocolFailure, a.turn + 1)
      && next.work.events == a.work.events
  {
    hide TakeTurn, AfterParse, Exhausted;
    ParseErrorContinues(a, 9);
    ParsesBadly(a.work, a.turn + 1);
    ParseKeepsIssue(a.work, PARSE_ERROR_TURN, a.turn + 1);
    ParseKeepsEvidence(a.work, PARSE_ERROR_TURN, a.turn + 1);
  }

  /** The next clean turn clears the parse error, and its success counts as corrective. */
  lemma ListingTurn(a: Agent)
    requires a.turn == 3 && a.work.recovery.pending == Some(ParseErrorPending)
    requires a.work.recovery.failure == Some(ParseFailure) && a.work.recovery.failureTurn == Some(3)
    requires a.work.recovery.active == Some(ValidationIssue(NonzeroExit, 2, 2, 1, 0, 0))
    requires Meaningful(a.work.progress) && a.work.recovery.budgets == DEFAULT_BUDGETS
    ensures var next := TakeTurn(a, LIST_FILES, 9);
      && next.status == Running && next.turn == 4
      && next.work.recovery.pending.None? && next.work.recovery.corrective
      && next.work.recovery.active == a.work.recovery.active && SameEvidence(a.work.recovery, next.work.recovery)
      && next.work.events == a.work.events + [ToolEvent(4, LIST, PASSED)]
      && next.work.progress.recent.None? && Meaningful(next.work.progress)
  {
    hide TakeTurn, AfterTools, Exhausted, Meaningful;
    ListAfterParseError(a.work, 4);
    OneAttempt(AfterTools(a.work, LIST_FILES, 4).recovery);
    ToolTurnContinues(a, LIST_FILES, 9);
  }

  /** A parse error overtakes a failed validation in the same way: the failure is forgotten and the run
      completes with its validation issue open. */
  lemma ParseErrorOvertakesValidation()
    ensures var turns := [CHECK_PASSES, CHECK_FAILS, PARSE_ERROR_TURN, LIST_FILES, ANSWER_TURN];
      var end := RunAgent(Start(true, DEFAULT_BUDGETS), turns, 9);
      && end.status == Completed
      && end.work.events == [ToolEvent(1, VALIDATE, PASSED), ToolEvent(2, VALIDATE, FAILED_CHECK),
                             ToolEvent(4, LIST, PASSED)]
  {
    hide TakeTurn, RunAgent, Meaningful, Exhausted, EvidenceOf;
    var start := Start(true, DEFAULT_BUDGETS);
    PassingTurn();
    var first := TakeTurn(start, CHECK_PASSES, 9);
    FailingTurn(first);
    var second := TakeTurn(first, CHECK_FAILS, 9);
    OneAttempt(second.work.recovery);
    ParseErrorTurn(second);
    var third := TakeTurn(second, PARSE_ERROR_TURN, 9);
    StillMeaningful(second.work.progress, 3);
    ListingTurn(third);
    var fourth := TakeTurn(third, LIST_FILES, 9);
    OneAttempt(fourth.work.recovery);
    EarlierEvidence(fourth.work.recovery);
    AnswerCompletes(fourth, 9);
    NoTurns(start, 9);
    Taken(start, [], CHECK_PASSES, [CHECK_PASSES], 9);
    Taken(start, [CHECK_PASSES], CHECK_FAILS, [CHECK_PASSES, CHECK_FAILS], 9);
    var three := [CHECK_PASSES, CHECK_FAILS, PARSE_ERROR_TURN];
    Taken(start, [CHECK_PASSES, CHECK_FAILS], PARSE_ERROR_TURN, three, 9);
    Taken(start, three, LIST_FILES, three + [LIST_FILES], 9);
    Taken(start, three + [LIST_FILES], ANSWER_TURN, three + [LIST_FILES, ANSWER_TURN], 9);
    assert three + [LIST_FILES, ANSWER_TURN]
        == [CHECK_PASSES, CHECK_FAILS, PARSE_ERROR_TURN, LIST_FILES, ANSWER_TURN];
  }

  lemma StillMeaningful(p: Progress, turn: nat)
    requires Meaningful(p)
    ensures Meaningful(NoteProtocol(p, ProtocolFailure, turn))
  {
  }

  /** A refused validation is recorded nowhere but in the log. */
  lemma RefusalUntracked(w: Working, turn: nat)
    requires Meaningful(w.progress)
    ensures var next := Invoke(w, Invocation(VALIDATE, true, REFUSED), turn);
      && next.recovery == w.recovery && Meaningful(next.progress)
      && next.events == w.events + [ToolEvent(turn, VALIDATE, REFUSED)]
  {
    hide RecordTool;
    UnrecoverableValidationLeavesNoTrace(w.recovery, VALIDATE, REFUSED, turn);
    MoreNames(w.progress.names, VALIDATE.name);
  }

  lemma ListWithNothingPending(w: Working, turn: nat)
    requires w.recovery.pending.None? && w.recovery.failure.None? && Meaningful(w.progress)
    ensures var next := Invoke(w, Invocation(LIST, true, PASSED), turn);
      && next.recovery.pending.None? && next.recovery.failure.None? && next.recovery.active == w.recovery.active
      && next.recovery.lastSuccess == w.recovery.lastSuccess && next.recovery.lastMutation == w.recovery.lastMutation
      && next.recovery.required == w.recovery.required
      && next.events == w.events + [ToolEvent(turn, LIST, PASSED)]
      && next.progress.recent.None? && Meaningful(next.progress)
  {
    MoreNames(w.progress.names, LIST.name);
  }

  /** The last validation of a run may have been refused, and the run completes. */
  lemma RefusedValidationCompletes()
    ensures var end := RunAgent(Start(true, DEFAULT_BUDGETS), [CHECK_PASSES, REFUSED_THEN_LIST, ANSWER_TURN], 9);
      && end.status == Completed
      && end.work.events == [ToolEvent(1, VALIDATE, PASSED), ToolEvent(2, VALIDATE, REFUSED), ToolEvent(2, LIST, PASSED)]
  {
    hide TakeTurn, RunAgent, Meaningful, AfterParse, Exhausted, Invoke, InvokeAll;
    var start := Start(true, DEFAULT_BUDGETS);
    PassingTurn();
    var first := TakeTurn(start, CHECK_PASSES, 9);
    var parsed := AfterParse(first.work, REFUSED_THEN_LIST, 2);
    ParsesQuietly(first.work, REFUSED_THEN_LIST, 2);
    TwoCalls(parsed, Invocation(VALIDATE, true, REFUSED), Invocation(LIST, true, PASSED), 2);
    RefusalUntracked(parsed, 2);
    ListWithNothingPending(Invoke(parsed, Invocation(VALIDATE, true, REFUSED), 2), 2);
    NothingActive(AfterTools(first.work, REFUSED_THEN_LIST, 2).recovery);
    ToolTurnContinues(first, REFUSED_THEN_LIST, 9);
    var second := TakeTurn(first, REFUSED_THEN_LIST, 9);
    NothingActive(second.work.recovery);
    AnswerCompletes(second, 9);
    NoTurns(start, 9);
    Taken(start, [], CHECK_PASSES, [CHECK_PASSES], 9);
    Taken(start, [CHECK_PASSES], REFUSED_THEN_LIST, [CHECK_PASSES, REFUSED_THEN_LIST], 9);
    Taken(start, [CHECK_PASSES, REFUSED_THEN_LIST], ANSWER_TURN, [CHECK_PASSES, REFUSED_THEN_LIST, ANSWER_TURN], 9);
  }

  lemma ParseErrorAfterCheck()
    ensures var second := RunAgent(Start(true, DEFAULT_BUDGETS), [CHECK_PASSES, PARSE_ERROR_TURN], 9);
      && second.status == Running && second.turn == 2
      && second.work.recovery.active.None? && EvidenceOf(second.work.recovery) == Validated
      && second.work.recovery.failure.Some? && !second.work.recovery.corrective
  {
    hide TakeTurn, RunAgent, Meaningful, Exhausted, EvidenceOf;
    var start := Start(true, DEFAULT_BUDGETS);
    PassingTurn();
    var first := TakeTurn(start, CHECK_PASSES, 9);
    NothingActive(first.work.recovery);
    ParseErrorTurn(first);
    EarlierEvidence(TakeTurn(first, PARSE_ERROR_TURN, 9).work.recovery);
    NoTurns(start, 9);
    Taken(start, [], CHECK_PASSES, [CHECK_PASSES], 9);
    Taken(start, [CHECK_PASSES], PARSE_ERROR_TURN, [CHECK_PASSES, PARSE_ERROR_TURN], 9);
  }

  /** After an uncorrected parse error no budget stops an agent that only finishes or answers: whatever the
      number of attempts, it runs until the turn limit. */
  lemma UncorrectedParseErrorRunsOn(more: seq<Turn>)
    requires (forall i :: 0 <= i < |more| ==> FinishOnly(more[i])) && |more| < 7
    ensures RunAgent(Start(true, DEFAULT_BUDGETS), [CHECK_PASSES, PARSE_ERROR_TURN] + more, 9).status == Running
  {
    hide TakeTurn, FinishOnly, EvidenceOf;
    var start, first := Start(true, DEFAULT_BUDGETS), [CHECK_PASSES, PARSE_ERROR_TURN];
    var second := RunAgent(start, first, 9);
    ParseErrorAfterCheck();
    if more == [] {
      assert first + more == first;
    } else {
      FinishOnlyEndsExactly(true, DEFAULT_BUDGETS, first, more, 9);
      assert HeldBack(second.work.recovery, second.work.progress, second.turn + |more|);
    }
  }
}
