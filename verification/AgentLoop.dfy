/** The runner's loop over turns: parse, execute tools, judge, stop or continue. */
module AgentLoop {
  import opened Prelude
  import opened Recovery
  import opened Stopping

  const COMPLETION_BLOCKED := "completion_blocked"

  /** What the session remembers of tool use; it feeds the progress gate. */
  datatype Progress = Progress(
    calls: nat, names: set<string>, successes: nat, mutated: bool, validated: bool,
    recent: Option<Failure>, recentTurn: Option<nat>)

  const NO_PROGRESS := Progress(0, {}, 0, false, false, None, None)

  function NoteTool(p: Progress, call: Call, result: ToolResult, turn: nat): Progress {
    if IsFinish(call) then p else
    var counted := p.(calls := p.calls + 1, names := p.names + {call.name});
    if Succeeded(result) then
      counted.(successes := p.successes + 1, mutated := p.mutated || IsMutation(call),
               validated := p.validated || IsValidation(call), recent := None,
               recentTurn := if p.recent.Some? then None else p.recentTurn)
    else if result.errorType == COMPLETION_BLOCKED then counted
    else counted.(recent := Some(if IsValidation(call) then ValidationFailed else ToolFailed), recentTurn := Some(turn))
  }

  function NoteProtocol(p: Progress, kind: Failure, turn: nat): Progress {
    p.(recent := Some(kind), recentTurn := Some(turn))
  }

  predicate Meaningful(p: Progress) { p.calls > 0 && (p.mutated || p.validated || |p.names| > 1) }

  /** A failure stays recent for two turns. */
  function PolicyOf(p: Progress, turn: nat): Policy {
    Policy(Meaningful(p), p.successes > 1 && !Meaningful(p),
           if p.recent.Some? && p.recentTurn.Some? && turn - p.recentTurn.value <= 2 then p.recent else None)
  }

  /** One tool call of a turn: whether its arguments map to the tool, and what the tool, or the failed
      inspection, yields. */
  datatype Invocation = Invocation(call: Call, mapped: bool, outcome: ToolResult)

  /** The interpreted response of one turn. The parser yields calls or errors, never both. */
  datatype Turn = Turn(invocations: seq<Invocation>, errors: nat, protocol: bool)

  function CallsIn(t: Turn): (calls: seq<Call>)
    ensures |calls| == |t.invocations|
    ensures forall i :: 0 <= i < |calls| ==> calls[i] == t.invocations[i].call
  {
    seq(|t.invocations|, i requires 0 <= i < |t.invocations| => t.invocations[i].call)
  }

  /** A non-finish tool call as it happened. */
  datatype ToolEvent = ToolEvent(turn: nat, call: Call, result: ToolResult)

  datatype Working = Working(recovery: Recovery, progress: Progress, events: seq<ToolEvent>)

  /** The finish handler is run only if the assessment made just before does not block. */
  predicate HandlerRuns(w: Working, inv: Invocation, turn: nat) {
    var policy := PolicyOf(w.progress, turn);
    inv.mapped && (IsFinish(inv.call) ==> !Assess(AfterAssess(w.recovery, policy), policy).blocked)
  }

  function AfterCheck(r: Recovery, policy: Policy): Recovery { AfterBlockCheck(AfterAssess(r, policy), policy) }

  function Invoke(w: Working, inv: Invocation, turn: nat): Working {
    if IsFinish(inv.call) then
      if inv.mapped then w.(recovery := AfterCheck(w.recovery, PolicyOf(w.progress, turn))) else w
    else
      var recorded := RecordTool(w.recovery, inv.call, inv.outcome, turn);
      Working(if Succeeded(inv.outcome) then NoteCorrective(recorded, turn) else recorded,
              NoteTool(w.progress, inv.call, inv.outcome, turn),
              w.events + [ToolEvent(turn, inv.call, inv.outcome)])
  }

  function InvokeAll(w: Working, invocations: seq<Invocation>, turn: nat): Working {
    if invocations == [] then w else
    Invoke(InvokeAll(w, invocations[..|invocations| - 1], turn), invocations[|invocations| - 1], turn)
  }

  /** The state once the response has been parsed, before any tool runs. */
  function AfterParse(w: Working, t: Turn, turn: nat): Working {
    Working(RecordParse(RefreshPhase(w.recovery), t.errors, t.invocations != [], turn),
            if t.protocol then NoteProtocol(w.progress, ProtocolFailure, turn)
            else if t.errors > 0 && t.invocations == [] then NoteProtocol(w.progress, ParseFailure, turn)
            else w.progress,
            w.events)
  }

  function AfterTools(w: Working, t: Turn, turn: nat): Working { InvokeAll(AfterParse(w, t, turn), t.invocations, turn) }

  function JudgeTurn(w: Working, t: Turn, turn: nat, maxTurns: nat): Verdict {
    var worked := AfterTools(w, t, turn);
    var policy := PolicyOf(worked.progress, turn);
    Judge(AfterAssess(worked.recovery, policy), CallsIn(t), t.errors, turn, maxTurns, policy)
  }

  datatype Status = Running | Completed | Failed | Errored

  function StatusAfter(decision: Decision): Status {
    if !decision.stop then Running
    else
      match decision.reason
      case None | Some(FinishStop) | Some(NoToolCallsStop) => Completed
      case Some(ParseErrorStop) => Errored
      case Some(MaxTurnsStop) | Some(BudgetStop(_)) => Failed
  }

  datatype Agent = Agent(work: Working, turn: nat, status: Status, decision: Option<Decision>)

  function Start(required: bool, budgets: Budgets): Agent {
    Agent(Working(Refreshed(Initial(required, budgets)), NO_PROGRESS, []), 0, Running, None)
  }

  function TakeTurn(a: Agent, t: Turn, maxTurns: nat): Agent {
    var turn := a.turn + 1;
    var verdict := JudgeTurn(a.work, t, turn, maxTurns);
    Agent(AfterTools(a.work, t, turn).(recovery := verdict.state), turn, StatusAfter(verdict.decision),
          Some(verdict.decision))
  }

  /** The loop: turns are taken while the agent runs and turns remain. */
  function RunAgent(a: Agent, turns: seq<Turn>, maxTurns: nat): Agent {
    if turns == [] then a else
    var before := RunAgent(a, turns[..|turns| - 1], maxTurns);
    if before.status.Running? && before.turn < maxTurns then TakeTurn(before, turns[|turns| - 1], maxTurns) else before
  }

  /** A loop that runs out of turns without a decision, which only happens when there are none, has failed. */
  function FinalStatus(a: Agent, maxTurns: nat): Status {
    if a.status.Running? && a.turn >= maxTurns then Failed else a.status
  }

  class RuntimeSessionState {
    var calls: nat
    var names: set<string>
    var successes: nat
    var mutated: bool
    var validated: bool
    var recent: Option<Failure>
    var recentTurn: Option<nat>

    function Contents(): Progress
      reads this
    {
      Progress(calls, names, successes, mutated, validated, recent, recentTurn)
    }

    constructor ()
      ensures Contents() == NO_PROGRESS
    {
      calls, names, successes, mutated, validated, recent, recentTurn := 0, {}, 0, false, false, None, None;
    }

    method NoteProtocolOrParseFailure(kind: Failure, turn: nat)
      modifies this
      ensures Contents() == NoteProtocol(old(Contents()), kind, turn)
    {
      recent, recentTurn := Some(kind), Some(turn);
    }

    method NoteToolExecution(call: Call, result: ToolResult, turn: nat)
      modifies this
      ensures Contents() == NoteTool(old(Contents()), call, result, turn)
    {
      if IsFinish(call) {
        return;
      }
      calls := calls + 1;
      if call.name !in names {
        names := names + {call.name};
      }
      assert names == old(names) + {call.name};
      if Succeeded(result) {
        successes := successes + 1;
        if IsMutation(call) {
          mutated := true;
        }
        if IsValidation(call) {
          validated := true;
        }
        if recent.Some? {
          recent, recentTurn := None, None;
        }
        return;
      }
      if result.errorType == COMPLETION_BLOCKED {
        return;
      }
      recent, recentTurn := Some(if IsValidation(call) then ValidationFailed else ToolFailed), Some(turn);
    }
  }

  /** Runs one tool call and records what came of it. */
  method ExecuteCall(recovery: RuntimeRecoveryState, session: RuntimeSessionState, inv: Invocation, turn: nat,
                     ghost events: seq<ToolEvent>) returns (handled: bool, ghost after: seq<ToolEvent>)
    modifies recovery, session
    ensures handled == HandlerRuns(Working(old(recovery.Contents()), old(session.Contents()), events), inv, turn)
    ensures Working(recovery.Contents(), session.Contents(), after)
         == Invoke(Working(old(recovery.Contents()), old(session.Contents()), events), inv, turn)
  {
    hide Assess, AfterAssess, AfterBlockCheck, RecordTool, NoteTool, NoteCorrective;
    after := events;
    handled := inv.mapped;
    if IsFinish(inv.call) {
      if inv.mapped {
        var policy := PolicyOf(session.Contents(), turn);
        var assessment := recovery.AssessCompletionBlock(policy);
        var blocked := FinishIsBlocked(recovery, policy);
        handled := !blocked;
      }
      return;
    }
    var recoverable := recovery.RecordToolResult(inv.call, inv.outcome, turn);
    session.NoteToolExecution(inv.call, inv.outcome, turn);
    if Succeeded(inv.outcome) {
      recovery.NoteCorrectiveProgress(turn);
    }
    after := events + [ToolEvent(turn, inv.call, inv.outcome)];
  }

  method ExecuteTurn(recovery: RuntimeRecoveryState, session: RuntimeSessionState, t: Turn, turn: nat, maxTurns: nat,
                     ghost events: seq<ToolEvent>) returns (decision: Decision, ghost after: seq<ToolEvent>)
    modifies recovery, session
    ensures var before := Working(old(recovery.Contents()), old(session.Contents()), events);
      && Working(recovery.Contents(), session.Contents(), after)
           == AfterTools(before, t, turn).(recovery := JudgeTurn(before, t, turn, maxTurns).state)
      && decision == JudgeTurn(before, t, turn, maxTurns).decision
  {
    hide Assess, AfterAssess, Judge, RecordParse, NoteProtocol, Invoke;
    ghost var before := Working(recovery.Contents(), session.Contents(), events);
    var phase := recovery.RefreshValidationPhase();
    if t.protocol {
      session.NoteProtocolOrParseFailure(ProtocolFailure, turn);
    } else if t.errors > 0 && t.invocations == [] {
      session.NoteProtocolOrParseFailure(ParseFailure, turn);
    }
    var recoverable := recovery.RecordParseResult(t.errors, t.invocations != [], turn);
    after := events;
    for i := 0 to |t.invocations|
      invariant Working(recovery.Contents(), session.Contents(), after)
             == InvokeAll(AfterParse(before, t, turn), t.invocations[..i], turn)
    {
      assert t.invocations[..i + 1][..i] == t.invocations[..i];
      var handled;
      handled, after := ExecuteCall(recovery, session, t.invocations[i], turn, after);
    }
    assert t.invocations[..|t.invocations|] == t.invocations;
    var policy := PolicyOf(session.Contents(), turn);
    var assessment := recovery.AssessCompletionBlock(policy);
    decision := ShouldStop(recovery, CallsIn(t), t.errors, turn, maxTurns, policy);
  }

  /** What one request to the model yields: an interpreted response, or an exception of the client. */
  datatype Response = Answer(turn: Turn) | ClientError

  /** The responses before the first client error. */
  function Answers(responses: seq<Response>): (turns: seq<Turn>)
    ensures |turns| <= |responses|
  {
    if responses == [] || responses[0].ClientError? then [] else [responses[0].turn] + Answers(responses[1..])
  }

  lemma {:induction false} AnswerAt(responses: seq<Response>, n: nat)
    requires n <= |Answers(responses)|
    ensures n < |Answers(responses)| <==> n < |responses| && responses[n].Answer?
    ensures n < |Answers(responses)| ==> Answers(responses)[n] == responses[n].turn
  {
    if n > 0 {
      AnswerAt(responses[1..], n - 1);
    }
  }

  /** The run is asking for a response it will not get. */
  predicate CutShort(end: Agent, responses: seq<Response>, maxTurns: nat) {
    end.status.Running? && end.turn < maxTurns && |Answers(responses)| < |responses|
  }

  /** The whole loop, reading one response per turn until it stops, a client error ends it, or the responses
      run out. */
  method RunAgentTask(required: bool, budgets: Budgets, maxTurns: nat, responses: seq<Response>)
    returns (status: Status, taken: nat, decision: Option<Decision>, ghost events: seq<ToolEvent>)
    ensures var end := RunAgent(Start(required, budgets), Answers(responses), maxTurns);
      && status == (if CutShort(end, responses, maxTurns) then Errored else FinalStatus(end, maxTurns))
      && taken == (if CutShort(end, responses, maxTurns) then end.turn + 1 else end.turn)
      && decision == end.decision && events == end.work.events
  {
    hide JudgeTurn, AfterTools, StatusAfter, Initial;
    ghost var turns := Answers(responses);
    var recovery := new RuntimeRecoveryState(required, budgets);
    var session := new RuntimeSessionState();
    var evidence := recovery.RefreshCompletionEvidence();
    var phase := recovery.RefreshValidationPhase();
    status, taken, decision, events := Running, 0, None, [];
    var next := 0;
    while next < |responses| && status.Running? && taken < maxTurns
      invariant 0 <= next <= |turns| <= |responses|
      invariant fresh(recovery) && fresh(session)
      invariant Agent(Working(recovery.Contents(), session.Contents(), events), taken, status, decision)
             == RunAgent(Start(required, budgets), turns[..next], maxTurns)
    {
      AnswerAt(responses, next);
      taken := taken + 1;
      if responses[next].ClientError? {
        assert turns[..next] == turns;
        status := Errored;
        return;
      }
      assert turns[..next + 1][..next] == turns[..next];
      var verdict;
      verdict, events := ExecuteTurn(recovery, session, responses[next].turn, taken, maxTurns, events);
      status, decision := StatusAfter(verdict), Some(verdict);
      next := next + 1;
    }
    StoppedRun(Start(required, budgets), turns, next, maxTurns);
    if status.Running? && taken >= maxTurns {
      status := Failed;
    }
  }

  /** Once the loop has stopped, further responses change nothing. */
  lemma {:induction false} StoppedRun(a: Agent, turns: seq<Turn>, n: nat, maxTurns: nat)
    requires n <= |turns|
    requires var end := RunAgent(a, turns[..n], maxTurns);
      n == |turns| || !end.status.Running? || end.turn >= maxTurns
    ensures RunAgent(a, turns, maxTurns) == RunAgent(a, turns[..n], maxTurns)
  {
    hide TakeTurn;
    if n < |turns| {
      assert turns[..|turns| - 1][..n] == turns[..n];
      StoppedRun(a, turns[..|turns| - 1], n, maxTurns);
    } else {
      assert turns[..n] == turns;
    }
  }
}
