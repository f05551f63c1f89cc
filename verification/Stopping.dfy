/** The stop policy evaluated at the end of every turn, and the gates that must agree with it. */
module Stopping {
  import opened Prelude
  import opened Recovery

  datatype StopReason = FinishStop | NoToolCallsStop | MaxTurnsStop | ParseErrorStop | BudgetStop(budget: Budget)

  datatype Code =
    | Finished
    | Answered
    | MaxTurnsReached
    | ParseErrors
    | BudgetExhausted(budget: Budget)
    | ContinueWithTools
    | RecoverableParse
    | DeferredPendingIssue(finishing: bool)
    | DeferredMissingEvidence(finishing: bool)

  datatype Decision = Decision(
    stop: bool, reason: Option<StopReason>, code: Code, block: Option<BlockReason>, next: Step, gate: Gate)

  datatype Verdict = Verdict(state: Recovery, decision: Decision)

  predicate CallsFinish(calls: seq<Call>) { exists i :: 0 <= i < |calls| && IsFinish(calls[i]) }

  predicate CallsOther(calls: seq<Call>) { exists i :: 0 <= i < |calls| && !IsFinish(calls[i]) }

  /** Assembling a decision reads the step and the gate, which refreshes the cached evidence and phase. */
  function Reported(r: Recovery, stop: bool, reason: Option<StopReason>, code: Code, block: Option<BlockReason>,
                    next: Option<Step>): Verdict
  {
    var stepped := if next.Some? then r else AfterStep(r);
    Verdict(RefreshEvidence(AfterGate(stepped)),
            Decision(stop, reason, code, block, if next.Some? then next.value else StepOf(r), GateOf(stepped)))
  }

  function Halted(r: Recovery, reason: StopReason, code: Code): Verdict {
    Reported(r, true, Some(reason), code, None, None)
  }

  function DeferralCode(reason: Option<BlockReason>, finishing: bool): Code {
    if reason == Some(RecentRecoverableFailure) || reason == Some(UnresolvedValidationFailure)
       || reason == Some(NoCorrectiveProgress) || reason == Some(NoMeaningfulProgress)
    then DeferredPendingIssue(finishing) else DeferredMissingEvidence(finishing)
  }

  /** A blocked attempt to complete: it counts against the budget of an issue, opened if need be. */
  function Deferred(r: Recovery, assessment: Assessment, turn: nat, finishing: bool): Verdict {
    var counted := NoteDeferral(EnsureIssue(r, turn), turn);
    if Exhausted(counted).Some? then
      Halted(counted, BudgetStop(Exhausted(counted).value), BudgetExhausted(Exhausted(counted).value))
    else
      Reported(counted, false, None, DeferralCode(assessment.reason, finishing), assessment.reason, assessment.next)
  }

  function Completion(r: Recovery, turn: nat, finishing: bool, policy: Policy): Verdict {
    var assessment, assessed := Assess(r, policy), AfterAssess(r, policy);
    if assessment.blocked then Deferred(assessed, assessment, turn, finishing)
    else if finishing then Halted(assessed, FinishStop, Finished)
    else Halted(assessed, NoToolCallsStop, Answered)
  }

  function Refreshed(r: Recovery): Recovery { RefreshPhase(RefreshEvidence(r)) }

  function Judge(r: Recovery, calls: seq<Call>, errors: nat, turn: nat, maxTurns: nat, policy: Policy): Verdict {
    var facts := Refreshed(r);
    if Exhausted(facts).Some? then
      Halted(facts, BudgetStop(Exhausted(facts).value), BudgetExhausted(Exhausted(facts).value))
    else if turn >= maxTurns then Halted(facts, MaxTurnsStop, MaxTurnsReached)
    else if errors > 0 && calls == [] then
      if facts.streak < MAX_PARSE_ERROR_TURNS then Reported(facts, false, None, RecoverableParse, None, None)
      else Halted(facts, ParseErrorStop, ParseErrors)
    else if CallsOther(calls) then Reported(facts, false, None, ContinueWithTools, None, None)
    else Completion(facts, turn, CallsFinish(calls), policy)
  }

  method ReportDecision(state: RuntimeRecoveryState, stop: bool, reason: Option<StopReason>, code: Code,
                        block: Option<BlockReason>, next: Option<Step>) returns (decision: Decision)
    modifies state
    ensures state.Contents() == Reported(old(state.Contents()), stop, reason, code, block, next).state
    ensures decision == Reported(old(state.Contents()), stop, reason, code, block, next).decision
  {
    hide AfterStep, StepOf, AfterGate, GateOf;
    var step;
    if next.Some? {
      step := next.value;
    } else {
      step := state.ExpectedNextStep();
    }
    var gate := state.CompletionGateStatus();
    var evidence := state.RefreshCompletionEvidence();
    decision := Decision(stop, reason, code, block, step, gate);
  }

  method DeferCompletion(state: RuntimeRecoveryState, assessment: Assessment, turn: nat, finishing: bool)
    returns (decision: Decision)
    modifies state
    ensures state.Contents() == Deferred(old(state.Contents()), assessment, turn, finishing).state
    ensures decision == Deferred(old(state.Contents()), assessment, turn, finishing).decision
  {
    hide Reported, EnsureIssue, NoteDeferral, Exhausted, DeferralCode;
    state.EnsureValidationIssue(turn);
    state.NoteFinishDeferral(turn);
    var budget := Exhausted(state.Contents());
    if budget.Some? {
      decision := ReportDecision(state, true, Some(BudgetStop(budget.value)), BudgetExhausted(budget.value), None, None);
      return;
    }
    decision := ReportDecision(state, false, None, DeferralCode(assessment.reason, finishing), assessment.reason,
      assessment.next);
  }

  method ShouldStop(state: RuntimeRecoveryState, calls: seq<Call>, errors: nat, turn: nat, maxTurns: nat,
                    policy: Policy) returns (decision: Decision)
    modifies state
    ensures state.Contents() == Judge(old(state.Contents()), calls, errors, turn, maxTurns, policy).state
    ensures decision == Judge(old(state.Contents()), calls, errors, turn, maxTurns, policy).decision
  {
    hide Reported, Deferred, RefreshEvidence, RefreshPhase, Exhausted, Assess, AfterAssess;
    var finishing := CallsFinish(calls);
    var evidence := state.RefreshCompletionEvidence();
    var phase := state.RefreshValidationPhase();
    var budget := Exhausted(state.Contents());
    if budget.Some? {
      decision := ReportDecision(state, true, Some(BudgetStop(budget.value)), BudgetExhausted(budget.value), None, None);
      return;
    }
    if turn >= maxTurns {
      decision := ReportDecision(state, true, Some(MaxTurnsStop), MaxTurnsReached, None, None);
      return;
    }
    if errors > 0 && calls == [] {
      if state.streak < MAX_PARSE_ERROR_TURNS {
        decision := ReportDecision(state, false, None, RecoverableParse, None, None);
        return;
      }
      decision := ReportDecision(state, true, Some(ParseErrorStop), ParseErrors, None, None);
      return;
    }
    if CallsOther(calls) {
      decision := ReportDecision(state, false, None, ContinueWithTools, None, None);
      return;
    }
    var assessment := state.AssessCompletionBlock(policy);
    if assessment.blocked {
      decision := DeferCompletion(state, assessment, turn, finishing);
      return;
    }
    if finishing {
      decision := ReportDecision(state, true, Some(FinishStop), Finished, None, None);
      return;
    }
    decision := ReportDecision(state, true, Some(NoToolCallsStop), Answered, None, None);
  }

  /** The runner's own check before it runs the finish handler. */
  method FinishIsBlocked(state: RuntimeRecoveryState, policy: Policy) returns (blocked: bool)
    modifies state
    ensures blocked == Assess(old(state.Contents()), policy).blocked
    ensures state.Contents() == AfterBlockCheck(old(state.Contents()), policy)
  {
    hide Assess, AfterAssess, AfterStep, AfterGate;
    var assessment := state.AssessCompletionBlock(policy);
    blocked := assessment.blocked;
    if blocked {
      if assessment.reason != Some(NoMeaningfulProgress) {
        var step := state.ExpectedNextStep();
      }
      var gate := state.CompletionGateStatus();
    }
  }

  function AfterBlockCheck(r: Recovery, policy: Policy): Recovery {
    var assessment, assessed := Assess(r, policy), AfterAssess(r, policy);
    if !assessment.blocked then assessed
    else AfterGate(if assessment.reason == Some(NoMeaningfulProgress) then assessed else AfterStep(assessed))
  }
}
