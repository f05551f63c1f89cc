/** What a completed run tells of its last validation: exactly when no mutation call followed it, and exactly
    when it passed. */
module LastValidation {
  import opened Prelude
  import opened Recovery
  import opened Stopping
  import opened Gates
  import opened AgentLoop
  import opened AgentRuns

  // ----- The log of tool results, read off the turns taken -----

  /** The tool results that turn `turn` logs. */
  function EventsOf(invocations: seq<Invocation>, turn: nat): seq<ToolEvent> {
    if invocations == [] then [] else
    var inv := invocations[|invocations| - 1];
    EventsOf(invocations[..|invocations| - 1], turn)
      + (if IsFinish(inv.call) then [] else [ToolEvent(turn, inv.call, inv.outcome)])
  }

  /** The tool results of the turns `turns`, numbered from 1. */
  function AllEvents(turns: seq<Turn>): seq<ToolEvent> {
    if turns == [] then [] else
    AllEvents(turns[..|turns| - 1]) + EventsOf(turns[|turns| - 1].invocations, |turns|)
  }

  lemma {:induction false} InvokeAllLogs(w: Working, invocations: seq<Invocation>, turn: nat)
    ensures InvokeAll(w, invocations, turn).events == w.events + EventsOf(invocations, turn)
  {
    hide AfterCheck, RecordTool, NoteTool, NoteCorrective;
    if invocations != [] {
      InvokeAllLogs(w, invocations[..|invocations| - 1], turn);
    }
  }

  lemma TurnLogs(a: Agent, t: Turn, maxTurns: nat)
    ensures TakeTurn(a, t, maxTurns).work.events == a.work.events + EventsOf(t.invocations, a.turn + 1)
    ensures TakeTurn(a, t, maxTurns).turn == a.turn + 1
  {
    hide RecordParse, InvokeAll, EventsOf, JudgeTurn;
    InvokeAllLogs(AfterParse(a.work, t, a.turn + 1), t.invocations, a.turn + 1);
  }

  /** The log of a run is that of the turns it took, one after the other. */
  lemma {:induction false} RunLogs(required: bool, budgets: Budgets, turns: seq<Turn>, maxTurns: nat)
    ensures var end := RunAgent(Start(required, budgets), turns, maxTurns);
      && end.turn <= |turns| && (end.status == Running && end.turn < maxTurns ==> end.turn == |turns|)
      && end.work.events == AllEvents(turns[..end.turn])
  {
    hide TakeTurn, EventsOf;
    if turns != [] {
      var init, t := turns[..|turns| - 1], turns[|turns| - 1];
      RunLogs(required, budgets, init, maxTurns);
      var before := RunAgent(Start(required, budgets), init, maxTurns);
      assert init[..before.turn] == turns[..before.turn];
      TurnLogs(before, t, maxTurns);
      if before.status == Running && before.turn < maxTurns {
        assert turns[..|turns|] == turns && init[..|init|] == init;
      }
    }
  }

  // ----- Mutation calls after the last successful validation -----

  predicate Passed(e: ToolEvent) { IsValidation(e.call) && Succeeded(e.result) }

  /** Some mutation call is followed by no successful validation. */
  ghost predicate MutatedSince(events: seq<ToolEvent>) {
    exists j :: 0 <= j < |events| && LeavesMutated(events, j)
  }

  ghost predicate LeavesMutated(events: seq<ToolEvent>, j: nat)
    requires j < |events|
  {
    IsMutation(events[j].call) && forall i :: j < i < |events| ==> !Passed(events[i])
  }

  /** What comes before a successful validation and what holds neither kind of call do not matter. */
  lemma MutatedInside(before: seq<ToolEvent>, inside: seq<ToolEvent>, after: seq<ToolEvent>, p: nat)
    requires p < |inside| && Passed(inside[p])
    requires forall i :: 0 <= i < |after| ==> !Passed(after[i]) && !IsMutation(after[i].call)
    ensures MutatedSince(before + inside + after) <==> MutatedSince(inside)
  {
    var all, n := before + inside + after, |before|;
    assert all[n + p] == inside[p];
    forall i | n + |inside| <= i < |all| ensures !Passed(all[i]) && !IsMutation(all[i].call) {
      assert all[i] == after[i - n - |inside|];
    }
    if MutatedSince(inside) {
      var j :| 0 <= j < |inside| && LeavesMutated(inside, j);
      forall i | n + j < i < n + |inside| ensures !Passed(all[i]) {
        assert all[i] == inside[i - n];
      }
      assert all[n + j] == inside[j] && LeavesMutated(all, n + j);
    }
    if MutatedSince(all) {
      var j :| 0 <= j < |all| && LeavesMutated(all, j);
      assert j >= n + p;
      forall i | j - n < i < |inside| ensures !Passed(inside[i]) {
        assert all[n + i] == inside[i];
      }
      assert LeavesMutated(inside, j - n);
    }
  }

  /** The recorded turn of the last success is the latest turn with one, and is backed by the log. */
  ghost predicate SuccessIsLast(r: Recovery, events: seq<ToolEvent>, turn: nat) {
    && (forall i :: 0 <= i < |events| ==> 1 <= events[i].turn <= turn)
    && (forall i :: 0 <= i < |events| && Passed(events[i]) ==>
          r.lastSuccess.Some? && events[i].turn <= r.lastSuccess.value)
  }

  lemma InvokeSuccess(w: Working, inv: Invocation, turn: nat)
    requires SuccessIsLast(w.recovery, w.events, turn) && turn >= 1
    requires w.recovery.lastSuccess.Some? ==> w.recovery.lastSuccess.value <= turn
    ensures var next := Invoke(w, inv, turn);
      && SuccessIsLast(next.recovery, next.events, turn)
      && (next.recovery.lastSuccess.Some? ==> next.recovery.lastSuccess.value <= turn)
  {
    hide RecordTool, AfterBlockCheck, AfterAssess;
    if IsFinish(inv.call) {
      CheckKeepsFacts(w.recovery, PolicyOf(w.progress, turn));
    } else {
      ToolFacts(w.recovery, inv.call, inv.outcome, turn);
    }
  }

  lemma {:induction false} InvokeAllSuccess(w: Working, invocations: seq<Invocation>, turn: nat)
    requires SuccessIsLast(w.recovery, w.events, turn) && turn >= 1
    requires w.recovery.lastSuccess.Some? ==> w.recovery.lastSuccess.value <= turn
    ensures var next := InvokeAll(w, invocations, turn);
      && SuccessIsLast(next.recovery, next.events, turn)
      && (next.recovery.lastSuccess.Some? ==> next.recovery.lastSuccess.value <= turn)
  {
    hide Invoke, SuccessIsLast;
    if invocations != [] {
      InvokeAllSuccess(w, invocations[..|invocations| - 1], turn);
      InvokeSuccess(InvokeAll(w, invocations[..|invocations| - 1], turn), invocations[|invocations| - 1], turn);
    }
  }

  ghost predicate AgentSuccess(a: Agent) {
    && SuccessIsLast(a.work.recovery, a.work.events, a.turn)
    && (a.work.recovery.lastSuccess.Some? ==> a.work.recovery.lastSuccess.value <= a.turn)
  }

  lemma SuccessKept(r: Recovery, events: seq<ToolEvent>, turn: nat, next: Recovery, later: nat)
    requires SuccessIsLast(r, events, turn) && next.lastSuccess == r.lastSuccess && turn <= later
    ensures SuccessIsLast(next, events, later)
  {
  }

  lemma TurnSuccess(a: Agent, t: Turn, maxTurns: nat)
    requires AgentSuccess(a)
    ensures AgentSuccess(TakeTurn(a, t, maxTurns))
  {
    hide AfterParse, InvokeAll, Judge, AfterAssess, SuccessIsLast;
    var turn := a.turn + 1;
    var parsed := AfterParse(a.work, t, turn);
    ParseKeepsEvidence(a.work, t, turn);
    SuccessKept(a.work.recovery, a.work.events, a.turn, parsed.recovery, turn);
    InvokeAllSuccess(parsed, t.invocations, turn);
    var worked := AfterTools(a.work, t, turn);
    var policy := PolicyOf(worked.progress, turn);
    ReadingKeepsFacts(worked.recovery, policy);
    JudgeKeepsEvidence(AfterAssess(worked.recovery, policy), CallsIn(t), t.errors, turn, maxTurns, policy);
    SuccessKept(worked.recovery, worked.events, turn, TakeTurn(a, t, maxTurns).work.recovery, turn);
  }

  lemma {:induction false} RunSuccess(required: bool, budgets: Budgets, turns: seq<Turn>, maxTurns: nat)
    ensures AgentSuccess(RunAgent(Start(required, budgets), turns, maxTurns))
  {
    hide TakeTurn, AgentSuccess;
    if turns == [] {
      StartSuccess(required, budgets);
    } else {
      RunSuccess(required, budgets, turns[..|turns| - 1], maxTurns);
      TurnSuccess(RunAgent(Start(required, budgets), turns[..|turns| - 1], maxTurns), turns[|turns| - 1], maxTurns);
    }
  }

  lemma StartSuccess(required: bool, budgets: Budgets)
    ensures AgentSuccess(Start(required, budgets))
  {
  }

  lemma {:induction false} EventTurns(invocations: seq<Invocation>, turn: nat)
    ensures forall i :: 0 <= i < |EventsOf(invocations, turn)| ==> EventsOf(invocations, turn)[i].turn == turn
  {
    if invocations != [] {
      EventTurns(invocations[..|invocations| - 1], turn);
    }
  }

  ghost predicate AllEarlier(events: seq<ToolEvent>, s: nat) { forall i :: 0 <= i < |events| ==> events[i].turn < s }

  ghost predicate AllLater(events: seq<ToolEvent>, s: nat) { forall i :: 0 <= i < |events| ==> events[i].turn > s }

  /** The log splits at turn `s` into earlier turns, that turn, and later turns. */
  lemma {:induction false} SplitAtTurn(turns: seq<Turn>, s: nat) returns (after: seq<ToolEvent>)
    requires 1 <= s <= |turns|
    ensures AllEvents(turns) == AllEvents(turns[..s - 1]) + EventsOf(turns[s - 1].invocations, s) + after
    ensures AllLater(after, s) && AllEarlier(AllEvents(turns[..s - 1]), s)
  {
    hide EventsOf;
    var n := |turns| - 1;
    if s == |turns| {
      after := [];
      EarlierTurns(turns[..n]);
    } else {
      var rest := SplitAtTurn(turns[..n], s);
      assert turns[..n][..s - 1] == turns[..s - 1];
      EventTurns(turns[n].invocations, n + 1);
      after := rest + EventsOf(turns[n].invocations, n + 1);
    }
  }

  lemma {:induction false} EarlierTurns(turns: seq<Turn>)
    ensures AllEarlier(AllEvents(turns), |turns| + 1)
  {
    hide EventsOf;
    if turns != [] {
      EarlierTurns(turns[..|turns| - 1]);
      EventTurns(turns[|turns| - 1].invocations, |turns|);
    }
  }

  /** Evidence is fresh by turn, not by call. In every completed run that must show evidence, some mutation
      call follows the last successful validation if and only if one follows it among the calls of the very
      turn of that validation. */
  lemma MutationAfterValidationExactly(budgets: Budgets, turns: seq<Turn>, maxTurns: nat) returns (s: nat)
    requires RunAgent(Start(true, budgets), turns, maxTurns).status == Completed
    ensures var end := RunAgent(Start(true, budgets), turns, maxTurns);
      && end.work.recovery.lastSuccess == Some(s) && 1 <= s <= end.turn <= |turns|
      && ValidatedIn(end.work.events, s)
      && (MutatedSince(end.work.events) <==> MutatedSince(EventsOf(turns[s - 1].invocations, s)))
  {
    hide RunAgent, MutatedSince, AllEvents, EventsOf;
    var end := RunAgent(Start(true, budgets), turns, maxTurns);
    CompletionIsSafe(budgets, turns, maxTurns);
    RunSuccess(true, budgets, turns, maxTurns);
    RunLogs(true, budgets, turns, maxTurns);
    CompletedRunIsOpen(true, budgets, turns, maxTurns);
    s := end.work.recovery.lastSuccess.value;
    var p :| 0 <= p < |end.work.events| && end.work.events[p].turn == s && Passed(end.work.events[p]);
    var taken := turns[..end.turn];
    var after := SplitAtTurn(taken, s);
    var before, inside := AllEvents(taken[..s - 1]), EventsOf(taken[s - 1].invocations, s);
    LaterAreQuiet(end.work.recovery, end.work.events, before + inside, after, s);
    Located(before, inside, after, s, p);
    assert inside[p - |before|] == end.work.events[p];
    MutatedInside(before, inside, after, p - |before|);
  }

  lemma Located(before: seq<ToolEvent>, inside: seq<ToolEvent>, after: seq<ToolEvent>, s: nat, p: nat)
    requires forall i :: 0 <= i < |before| ==> before[i].turn < s
    requires forall i :: 0 <= i < |after| ==> after[i].turn > s
    requires p < |before + inside + after| && (before + inside + after)[p].turn == s
    ensures |before| <= p < |before + inside|
  {
    var all, n := before + inside + after, |before + inside|;
    forall i | 0 <= i < |before| ensures all[i].turn < s {
      assert all[i] == before[i];
    }
    forall i | n <= i < |all| ensures all[i].turn > s {
      assert all[i] == after[i - n];
    }
  }

  lemma LaterAreQuiet(r: Recovery, events: seq<ToolEvent>, early: seq<ToolEvent>, late: seq<ToolEvent>, s: nat)
    requires events == early + late && Backed(r, events) && EvidenceOf(r) == Validated && r.lastSuccess == Some(s)
    requires forall i :: 0 <= i < |events| && Passed(events[i]) ==> events[i].turn <= s
    requires forall i :: 0 <= i < |late| ==> late[i].turn > s
    ensures forall i :: 0 <= i < |late| ==> !Passed(late[i]) && !IsMutation(late[i].call)
  {
    forall i | 0 <= i < |late| ensures !Passed(late[i]) && !IsMutation(late[i].call) {
      assert events[|early| + i] == late[i];
    }
  }

  /** A completed run ends with its gate open. */
  lemma {:induction false} CompletedRunIsOpen(required: bool, budgets: Budgets, turns: seq<Turn>, maxTurns: nat)
    ensures var end := RunAgent(Start(required, budgets), turns, maxTurns);
      end.status == Completed ==> GateOf(end.work.recovery) == Open
  {
    hide TakeTurn, GateOf;
    if turns != [] {
      var init := turns[..|turns| - 1];
      CompletedRunIsOpen(required, budgets, init, maxTurns);
      var before := RunAgent(Start(required, budgets), init, maxTurns);
      if TakeTurn(before, turns[|init|], maxTurns).status == Completed {
        CompletedTurnIsOpen(before, turns[|init|], maxTurns);
      }
    }
  }

  // ----- Whether the most recent validation passed -----

  /** A validation that leaves a trace: it succeeded, or it failed recoverably. */
  predicate Tracked(e: ToolEvent) {
    IsValidation(e.call) && (Succeeded(e.result) || IsRecoverable(e.call, e.result))
  }

  function LastTracked(events: seq<ToolEvent>): Option<ToolEvent> {
    if events == [] then None
    else if Tracked(events[|events| - 1]) then Some(events[|events| - 1])
    else LastTracked(events[..|events| - 1])
  }

  function LastOf(events: seq<ToolEvent>): Option<ToolEvent> {
    if events == [] then None
    else if IsValidation(events[|events| - 1].call) then Some(events[|events| - 1])
    else LastOf(events[..|events| - 1])
  }

  /** The last tracked validation failed. */
  predicate FailedLast(events: seq<ToolEvent>) {
    LastTracked(events).Some? && !Succeeded(LastTracked(events).value.result)
  }

  /** Mutation turns are not ahead of the clock. */
  ghost predicate OnTime(r: Recovery, turn: nat) { r.lastMutation.Some? ==> r.lastMutation.value <= turn }

  /** An active issue records a tracked failure that no success has followed, or evidence that is not in
      order; and every such failure has an active issue. */
  ghost predicate IssueMirrors(r: Recovery, events: seq<ToolEvent>) {
    && r.required
    && (FailedLast(events) ==> r.active.Some?)
    && (r.active.Some? && !FailedLast(events) ==> EvidenceOf(r) == Missing || EvidenceOf(r) == Stale)
  }

  lemma TrackedSnoc(events: seq<ToolEvent>, e: ToolEvent)
    ensures LastTracked(events + [e]) == if Tracked(e) then Some(e) else LastTracked(events)
    ensures LastOf(events + [e]) == if IsValidation(e.call) then Some(e) else LastOf(events)
  {
    assert (events + [e])[..|events|] == events;
  }

  /** What one tool result does to the active issue. */
  lemma ToolIssue(r: Recovery, call: Call, result: ToolResult, turn: nat)
    ensures var next := RecordTool(r, call, result, turn);
      next.active.Some? <==>
        if IsValidation(call) && Succeeded(result) then false
        else if IsValidation(call) && IsRecoverable(call, result) then true
        else r.active.Some?
  {
    hide IsRecoverable, EvidenceOf, PhaseOf, IssueKindOf;
    var seen := if IsMutation(call) then RecordMutation(r, turn) else r;
    MutationIssue(r, turn);
    SuccessIssue(seen, call, turn);
    FailureIssue(seen, call, result, turn);
    if Succeeded(result) {
      SuccessIsNotRecoverable(call, result);
    }
  }

  lemma MutationIssue(r: Recovery, turn: nat)
    ensures RecordMutation(r, turn).active.Some? <==> r.active.Some?
  {
  }

  lemma SuccessIssue(r: Recovery, call: Call, turn: nat)
    ensures RecordSuccess(r, call, turn).active.Some? <==> !IsValidation(call) && r.active.Some?
  {
    hide EvidenceOf, PhaseOf;
  }

  lemma FailureIssue(r: Recovery, call: Call, result: ToolResult, turn: nat)
    ensures RecordFailure(r, call, result, turn).active.Some? <==> IsValidation(call) || r.active.Some?
  {
    hide EvidenceOf, PhaseOf, IssueKindOf;
  }

  /** Evidence that is not in order stays so until a validation succeeds. */
  lemma EvidenceStays(r: Recovery, next: Recovery, turn: nat)
    requires OnTime(r, turn) && next.required == r.required && next.lastSuccess == r.lastSuccess
    requires next.lastMutation == r.lastMutation || next.lastMutation == Some(turn)
    ensures OnTime(next, turn)
    ensures EvidenceOf(r) == Missing ==> EvidenceOf(next) == Missing
    ensures EvidenceOf(r) == Stale ==> EvidenceOf(next) == Stale
  {
  }

  lemma MirrorsTool(r: Recovery, events: seq<ToolEvent>, call: Call, result: ToolResult, turn: nat)
    requires IssueMirrors(r, events) && OnTime(r, turn) && !IsFinish(call)
    ensures var next := RecordTool(r, call, result, turn);
      IssueMirrors(next, events + [ToolEvent(turn, call, result)]) && OnTime(next, turn)
  {
    hide RecordTool, IsRecoverable, EvidenceOf;
    var e, next := ToolEvent(turn, call, result), RecordTool(r, call, result, turn);
    TrackedSnoc(events, e);
    ToolIssue(r, call, result, turn);
    ToolFacts(r, call, result, turn);
    if Succeeded(result) {
      SuccessIsNotRecoverable(call, result);
    }
    if !(IsValidation(call) && Succeeded(result)) {
      EvidenceStays(r, next, turn);
    }
  }

  lemma MirrorsFacts(a: Recovery, b: Recovery, events: seq<ToolEvent>, turn: nat)
    requires IssueMirrors(a, events) && OnTime(a, turn)
    requires a.active == b.active && SameEvidence(a, b)
    ensures IssueMirrors(b, events) && OnTime(b, turn)
  {
  }

  lemma {:induction false} InvokeAllMirrors(w: Working, invocations: seq<Invocation>, turn: nat)
    requires IssueMirrors(w.recovery, w.events) && OnTime(w.recovery, turn)
    ensures var next := InvokeAll(w, invocations, turn);
      IssueMirrors(next.recovery, next.events) && OnTime(next.recovery, turn)
  {
    hide RecordTool, AfterCheck, IssueMirrors, OnTime;
    if invocations != [] {
      var init, inv := invocations[..|invocations| - 1], invocations[|invocations| - 1];
      InvokeAllMirrors(w, init, turn);
      var before := InvokeAll(w, init, turn);
      var policy := PolicyOf(before.progress, turn);
      if IsFinish(inv.call) {
        CheckKeepsFacts(before.recovery, policy);
        MirrorsFacts(before.recovery, AfterCheck(before.recovery, policy), before.events, turn);
      } else {
        MirrorsTool(before.recovery, before.events, inv.call, inv.outcome, turn);
        var recorded := RecordTool(before.recovery, inv.call, inv.outcome, turn);
        MirrorsFacts(recorded, NoteCorrective(recorded, turn), before.events + [ToolEvent(turn, inv.call, inv.outcome)],
                     turn);
      }
    }
  }

  /** Charging a blocked attempt opens an issue only when the evidence is not in order. */
  lemma EnsureMirrors(r: Recovery, events: seq<ToolEvent>, turn: nat)
    requires IssueMirrors(r, events) && OnTime(r, turn)
    ensures var counted := NoteDeferral(EnsureIssue(r, turn), turn);
      IssueMirrors(counted, events) && OnTime(counted, turn)
  {
  }

  lemma MirrorsReading(a: Recovery, b: Recovery, events: seq<ToolEvent>, turn: nat)
    requires IssueMirrors(a, events) && OnTime(a, turn) && SameFacts(a, b)
    ensures IssueMirrors(b, events) && OnTime(b, turn)
  {
    MirrorsFacts(a, b, events, turn);
  }

  lemma DeferMirrors(r: Recovery, events: seq<ToolEvent>, assessment: Assessment, turn: nat, finishing: bool)
    requires IssueMirrors(r, events) && OnTime(r, turn)
    ensures var next := Deferred(r, assessment, turn, finishing).state;
      IssueMirrors(next, events) && OnTime(next, turn)
  {
    hide Reported, Exhausted, IssueMirrors, OnTime, EnsureIssue, NoteDeferral;
    var counted := NoteDeferral(EnsureIssue(r, turn), turn);
    EnsureMirrors(r, events, turn);
    if Exhausted(counted).Some? {
      var b := Exhausted(counted).value;
      ReportKeepsFacts(counted, true, Some(BudgetStop(b)), BudgetExhausted(b), None, None);
    } else {
      ReportKeepsFacts(counted, false, None, DeferralCode(assessment.reason, finishing), assessment.reason,
                       assessment.next);
    }
    MirrorsReading(counted, Deferred(r, assessment, turn, finishing).state, events, turn);
  }

  lemma JudgeMirrors(r: Recovery, events: seq<ToolEvent>, calls: seq<Call>, errors: nat, turn: nat, maxTurns: nat,
                     policy: Policy)
    requires IssueMirrors(r, events) && OnTime(r, turn)
    ensures var next := Judge(r, calls, errors, turn, maxTurns, policy).state;
      IssueMirrors(next, events) && OnTime(next, turn)
  {
    hide Reported, Deferred, Exhausted, AfterAssess, Assess, IssueMirrors, OnTime, Refreshed;
    var facts := Refreshed(r);
    ReadingKeepsFacts(r, policy);
    MirrorsReading(r, facts, events, turn);
    ReadingKeepsFacts(facts, policy);
    var assessed := AfterAssess(facts, policy);
    MirrorsReading(facts, assessed, events, turn);
    DeferMirrors(assessed, events, Assess(facts, policy), turn, CallsFinish(calls));
    ReportsMirror(facts, events, turn);
    ReportsMirror(assessed, events, turn);
  }

  lemma ReportsMirror(r: Recovery, events: seq<ToolEvent>, turn: nat)
    requires IssueMirrors(r, events) && OnTime(r, turn)
    ensures forall stop, reason, code {:trigger Reported(r, stop, reason, code, None, None)} ::
      var next := Reported(r, stop, reason, code, None, None).state;
      IssueMirrors(next, events) && OnTime(next, turn)
  {
    hide Reported, IssueMirrors, OnTime;
    forall stop, reason, code
      ensures var next := Reported(r, stop, reason, code, None, None).state;
        IssueMirrors(next, events) && OnTime(next, turn)
    {
      ReportKeepsFacts(r, stop, reason, code, None, None);
      MirrorsReading(r, Reported(r, stop, reason, code, None, None).state, events, turn);
    }
  }

  ghost predicate AgentMirrors(a: Agent) {
    IssueMirrors(a.work.recovery, a.work.events) && OnTime(a.work.recovery, a.turn)
  }

  lemma LaterOnTime(r: Recovery, turn: nat)
    requires OnTime(r, turn)
    ensures OnTime(r, turn + 1)
  {
  }

  lemma TurnMirrors(a: Agent, t: Turn, maxTurns: nat)
    requires AgentMirrors(a)
    ensures AgentMirrors(TakeTurn(a, t, maxTurns))
  {
    hide AfterParse, InvokeAll, Judge, AfterAssess, IssueMirrors, OnTime;
    var turn := a.turn + 1;
    var parsed := AfterParse(a.work, t, turn);
    LaterOnTime(a.work.recovery, a.turn);
    ParseKeepsEvidence(a.work, t, turn);
    ParseKeepsActive(a.work, t, turn);
    MirrorsFacts(a.work.recovery, parsed.recovery, a.work.events, turn);
    InvokeAllMirrors(parsed, t.invocations, turn);
    var worked := AfterTools(a.work, t, turn);
    var policy := PolicyOf(worked.progress, turn);
    ReadingKeepsFacts(worked.recovery, policy);
    MirrorsReading(worked.recovery, AfterAssess(worked.recovery, policy), worked.events, turn);
    JudgeMirrors(AfterAssess(worked.recovery, policy), worked.events, CallsIn(t), t.errors, turn, maxTurns, policy);
  }

  lemma ParseKeepsActive(w: Working, t: Turn, turn: nat)
    ensures AfterParse(w, t, turn).recovery.active == w.recovery.active
  {
    hide PhaseOf;
  }

  lemma {:induction false} RunMirrors(budgets: Budgets, turns: seq<Turn>, maxTurns: nat)
    ensures AgentMirrors(RunAgent(Start(true, budgets), turns, maxTurns))
  {
    hide TakeTurn, AgentMirrors;
    if turns == [] {
      StartMirrors(budgets);
    } else {
      RunMirrors(budgets, turns[..|turns| - 1], maxTurns);
      TurnMirrors(RunAgent(Start(true, budgets), turns[..|turns| - 1], maxTurns), turns[|turns| - 1], maxTurns);
    }
  }

  lemma StartMirrors(budgets: Budgets)
    ensures AgentMirrors(Start(true, budgets))
  {
  }

  lemma {:induction false} SomeTracked(events: seq<ToolEvent>, p: nat)
    requires p < |events| && Passed(events[p])
    ensures LastTracked(events).Some? && LastOf(events).Some?
  {
    if p < |events| - 1 {
      SomeTracked(events[..|events| - 1], p);
    }
  }

  /** The last validation of all is the last tracked one, or it failed without leaving a trace. */
  lemma {:induction false} LastOfTracked(events: seq<ToolEvent>)
    ensures LastOf(events).Some? ==>
      IsValidation(LastOf(events).value.call) && (Tracked(LastOf(events).value) ==> LastOf(events) == LastTracked(events))
    ensures LastTracked(events).Some? ==> Tracked(LastTracked(events).value)
  {
    if events != [] {
      LastOfTracked(events[..|events| - 1]);
    }
  }

  /** In every completed run that must show evidence there was a validation, and the most recent one that
      left a trace passed if and only if no validation issue is open at the end. The most recent one of all
      passed if and only if, besides, it is not an unrecoverable failure, which leaves no trace. */
  lemma LastValidationPassedExactly(budgets: Budgets, turns: seq<Turn>, maxTurns: nat)
    requires RunAgent(Start(true, budgets), turns, maxTurns).status == Completed
    ensures var end := RunAgent(Start(true, budgets), turns, maxTurns);
      var tracked, last := LastTracked(end.work.events), LastOf(end.work.events);
      && tracked.Some? && last.Some?
      && (Succeeded(tracked.value.result) <==> end.work.recovery.active.None?)
      && (Succeeded(last.value.result) <==> end.work.recovery.active.None? && Tracked(last.value))
  {
    hide RunAgent, LastTracked, LastOf, IsRecoverable;
    var end := RunAgent(Start(true, budgets), turns, maxTurns);
    CompletionIsSafe(budgets, turns, maxTurns);
    CompletedRunIsOpen(true, budgets, turns, maxTurns);
    RunMirrors(budgets, turns, maxTurns);
    var s := end.work.recovery.lastSuccess.value;
    var p :| 0 <= p < |end.work.events| && end.work.events[p].turn == s && Passed(end.work.events[p]);
    SomeTracked(end.work.events, p);
    LastOfTracked(end.work.events);
  }

  /** A validation that fails unrecoverably changes nothing in the recovery state. */
  lemma UnrecoverableValidationLeavesNoTrace(r: Recovery, call: Call, result: ToolResult, turn: nat)
    requires IsValidation(call) && !Succeeded(result) && !IsRecoverable(call, result)
    ensures RecordTool(r, call, result, turn) == r
  {
  }
}
