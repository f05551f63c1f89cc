/** The counters and dates of the recovery state, read off the log of tool calls. */
module LogCounts {
  import opened Prelude
  import opened Recovery
  import opened Stopping
  import opened Gates
  import opened AgentLoop
  import opened AgentRuns
  import opened AgentBudgets
  import opened FinishTurns
  import opened LastValidation

  /** The turn of the last event of a kind. */
  function LastTurn(events: seq<ToolEvent>, which: ToolEvent -> bool): Option<nat> {
    if events == [] then None
    else if which(events[|events| - 1]) then Some(events[|events| - 1].turn)
    else LastTurn(events[..|events| - 1], which)
  }

  function Count(events: seq<ToolEvent>, which: ToolEvent -> bool): nat {
    if events == [] then 0 else
    Count(events[..|events| - 1], which) + (if which(events[|events| - 1]) then 1 else 0)
  }

  /** A validation that failed and left a trace. */
  predicate Failing(e: ToolEvent) { IsValidation(e.call) && IsRecoverable(e.call, e.result) }

  predicate Mutating(e: ToolEvent) { IsMutation(e.call) }

  /** The failing validations of one kind that end the log, no other traced validation among them. */
  function FailuresInARow(events: seq<ToolEvent>, kind: IssueKind): nat {
    if events == [] then 0 else
    var init, last := events[..|events| - 1], events[|events| - 1];
    if !Tracked(last) then FailuresInARow(init, kind)
    else if Failing(last) && IssueKindOf(last.result) == kind then FailuresInARow(init, kind) + 1
    else 0
  }

  /** The turn in which the row of failures that ends the log began. */
  function RowStart(events: seq<ToolEvent>, kind: IssueKind): nat {
    if events == [] then 0 else
    var init, last := events[..|events| - 1], events[|events| - 1];
    if Tracked(last) && FailuresInARow(init, kind) == 0 then last.turn else RowStart(init, kind)
  }

  /** An issue that was opened for missing or stale evidence, not by a failing validation. */
  predicate ForEvidence(issue: ValidationIssue) {
    (issue.kind == StaleEvidence || issue.kind == FinishWithoutValidation) && issue.validations == 0
  }

  /** The dates and counters of the state are those of the log; and the active issue counts, if the last
      traced validation failed, the failures of its kind in a row. */
  ghost predicate ReadsLog(r: Recovery, events: seq<ToolEvent>) {
    && r.lastSuccess == LastTurn(events, Passed) && r.lastAttempt == LastTurn(events, Tracked)
    && r.lastFailure == LastTurn(events, Failing) && r.lastMutation == LastTurn(events, Mutating)
    && r.failures == Count(events, Failing)
    && IssueCounts(r.active, events)
  }

  ghost predicate IssueCounts(active: Option<ValidationIssue>, events: seq<ToolEvent>) {
    if FailedLast(events) then
      active.Some? && active.value.kind == IssueKindOf(LastTracked(events).value.result)
      && active.value.validations == FailuresInARow(events, active.value.kind)
      && active.value.openedAt == RowStart(events, active.value.kind)
    else active.Some? ==> ForEvidence(active.value)
  }

  lemma LogSnoc(events: seq<ToolEvent>, e: ToolEvent, which: ToolEvent -> bool)
    ensures LastTurn(events + [e], which) == if which(e) then Some(e.turn) else LastTurn(events, which)
    ensures Count(events + [e], which) == Count(events, which) + (if which(e) then 1 else 0)
  {
    assert (events + [e])[..|events|] == events;
  }

  lemma RowSnoc(events: seq<ToolEvent>, e: ToolEvent, kind: IssueKind)
    ensures FailuresInARow(events + [e], kind)
         == if !Tracked(e) then FailuresInARow(events, kind)
            else if Failing(e) && IssueKindOf(e.result) == kind then FailuresInARow(events, kind) + 1
            else 0
    ensures RowStart(events + [e], kind)
         == if Tracked(e) && FailuresInARow(events, kind) == 0 then e.turn else RowStart(events, kind)
  {
    assert (events + [e])[..|events|] == events;
  }

  /** A row of failures has the kind of the last traced validation. */
  lemma {:induction false} RowHasKind(events: seq<ToolEvent>, kind: IssueKind)
    ensures FailuresInARow(events, kind) > 0 <==>
      FailedLast(events) && IssueKindOf(LastTracked(events).value.result) == kind
  {
    hide IsRecoverable, IssueKindOf;
    if events != [] {
      var last := events[|events| - 1];
      RowHasKind(events[..|events| - 1], kind);
      if Succeeded(last.result) {
        SuccessIsNotRecoverable(last.call, last.result);
      }
    }
  }

  // ----- One tool result -----

  lemma MutationCounts(r: Recovery, turn: nat)
    ensures var seen := RecordMutation(r, turn);
      && seen.lastAttempt == r.lastAttempt && seen.lastFailure == r.lastFailure && seen.failures == r.failures
      && seen.lastMutation == Some(turn) && seen.lastSuccess == r.lastSuccess
      && SameIssueCount(r.active, seen.active)
  {
  }

  /** The same issue up to revisions, deferrals and the turn it was last observed. */
  predicate SameIssueCount(a: Option<ValidationIssue>, b: Option<ValidationIssue>) {
    && (a.Some? <==> b.Some?)
    && (a.Some? ==> a.value.kind == b.value.kind && a.value.validations == b.value.validations
                    && a.value.openedAt == b.value.openedAt)
  }

  lemma SuccessCounts(r: Recovery, call: Call, turn: nat)
    ensures var next := RecordSuccess(r, call, turn);
      && next.lastAttempt == (if IsValidation(call) then Some(turn) else r.lastAttempt)
      && next.lastFailure == r.lastFailure && next.failures == r.failures
      && next.active == (if IsValidation(call) then None else r.active)
  {
    hide EvidenceOf, PhaseOf;
  }

  lemma FailureCounts(r: Recovery, call: Call, result: ToolResult, turn: nat)
    ensures var next := RecordFailure(r, call, result, turn);
      && (if IsValidation(call)
          then && next.lastAttempt == Some(turn) && next.lastFailure == Some(turn) && next.failures == r.failures + 1
               && next.active.Some? && next.active.value.kind == IssueKindOf(result)
               && next.active.value.validations
                  == 1 + (if r.active.Some? && r.active.value.kind == IssueKindOf(result)
                          then r.active.value.validations else 0)
               && next.active.value.openedAt
                  == (if r.active.Some? && r.active.value.kind == IssueKindOf(result)
                      then r.active.value.openedAt else turn)
          else && next.lastAttempt == r.lastAttempt && next.lastFailure == r.lastFailure
               && next.failures == r.failures && next.active == r.active)
  {
    hide EvidenceOf, PhaseOf, IssueKindOf;
  }

  lemma ToolCounts(r: Recovery, call: Call, result: ToolResult, turn: nat)
    requires !IsFinish(call)
    ensures var e, next := ToolEvent(turn, call, result), RecordTool(r, call, result, turn);
      && next.lastAttempt == (if Tracked(e) then Some(turn) else r.lastAttempt)
      && next.lastFailure == (if Failing(e) then Some(turn) else r.lastFailure)
      && next.failures == r.failures + (if Failing(e) then 1 else 0)
      && (if Passed(e) then next.active.None?
          else if Failing(e)
          then && next.active.Some? && next.active.value.kind == IssueKindOf(result)
               && next.active.value.validations
                  == 1 + (if r.active.Some? && r.active.value.kind == IssueKindOf(result)
                          then r.active.value.validations else 0)
               && next.active.value.openedAt
                  == (if r.active.Some? && r.active.value.kind == IssueKindOf(result)
                      then r.active.value.openedAt else turn)
          else SameIssueCount(r.active, next.active))
  {
    hide RecordMutation, RecordSuccess, RecordFailure, IsRecoverable, IssueKindOf;
    var seen := if IsMutation(call) then RecordMutation(r, turn) else r;
    MutationCounts(r, turn);
    SuccessCounts(seen, call, turn);
    FailureCounts(seen, call, result, turn);
    if Succeeded(result) {
      SuccessIsNotRecoverable(call, result);
    }
  }

  /** A passing validation moves the active issue, the attempt counted, to the last resolved one; nothing else
      does. */
  lemma ResolvedExactly(r: Recovery, call: Call, result: ToolResult, turn: nat)
    requires !IsFinish(call)
    ensures var next := RecordTool(r, call, result, turn);
      next.resolved
        == (if Passed(ToolEvent(turn, call, result)) && r.active.Some?
            then Some(r.active.value.(validations := r.active.value.validations + 1, lastObserved := turn))
            else r.resolved)
  {
    hide IsRecoverable, RecordMutation, RecordSuccess, RecordFailure;
    ResolvedOtherwise(r, call, result, turn);
    ResolvedBySuccess(r, call, turn);
    ResolvedBySuccess(RecordMutation(r, turn), call, turn);
    ResolvedOtherwise(RecordMutation(r, turn), call, result, turn);
    assert IsValidation(call) ==> !IsMutation(call);
  }

  lemma ResolvedBySuccess(r: Recovery, call: Call, turn: nat)
    ensures RecordSuccess(r, call, turn).resolved
         == (if IsValidation(call) && r.active.Some?
             then Some(r.active.value.(validations := r.active.value.validations + 1, lastObserved := turn))
             else r.resolved)
  {
    hide EvidenceOf, PhaseOf;
  }

  lemma ResolvedOtherwise(r: Recovery, call: Call, result: ToolResult, turn: nat)
    ensures RecordMutation(r, turn).resolved == r.resolved == RecordFailure(r, call, result, turn).resolved
  {
    hide EvidenceOf, PhaseOf, IssueKindOf;
  }

  /** What one tool result settles. A passing validation clears everything; any other success clears a pending
      parse error or tool failure, and otherwise counts as corrective if a failure is open. A failure that
      can be recovered from becomes the pending one; any other leaves all as it was, except that calling a
      mutation tool is corrective whatever comes of it. */
  lemma ToolSettles(r: Recovery, call: Call, result: ToolResult, turn: nat)
    requires !IsFinish(call) && NotAfter(r.failureTurn, turn)
    ensures var e, noted := ToolEvent(turn, call, result), RecordTool(r, call, result, turn);
      var next := if Succeeded(result) then NoteCorrective(noted, turn) else noted;
      if Passed(e) then next.pending.None? && next.failure.None? && !next.corrective
      else if Succeeded(result) && RetryPending(r) then next.pending.None? && next.failure.None? && !next.corrective
      else if Succeeded(result) then
        && next.pending == r.pending && next.failure == r.failure && next.failureTurn == r.failureTurn
        && next.corrective == (r.corrective || r.failure.Some?)
      else if IsRecoverable(call, result) then
        && next.pending == Some(if IsValidation(call) then ValidationFailurePending else ToolFailurePending)
        && next.failure == Some(if IsValidation(call) then ValidationFailed else ToolFailed)
        && next.failureTurn == Some(turn) && !next.corrective
      else
        && next.pending == r.pending && next.failure == r.failure && next.failureTurn == r.failureTurn
        && next.corrective == (r.corrective || (IsMutation(call) && r.failure.Some?))
  {
    hide EvidenceOf, PhaseOf, IsRecoverable, IssueKindOf, RecordMutation, RecordSuccess, RecordFailure;
    var seen := if IsMutation(call) then RecordMutation(r, turn) else r;
    MutationSettles(r, turn);
    SuccessSettles(seen, call, turn);
    FailureSettles(seen, call, result, turn);
    if Succeeded(result) {
      SuccessIsNotRecoverable(call, result);
    }
  }

  lemma MutationSettles(r: Recovery, turn: nat)
    requires NotAfter(r.failureTurn, turn)
    ensures var seen := RecordMutation(r, turn);
      && seen.pending == r.pending && seen.failure == r.failure && seen.failureTurn == r.failureTurn
      && seen.corrective == (r.corrective || r.failure.Some?)
  {
  }

  lemma SuccessSettles(r: Recovery, call: Call, turn: nat)
    requires NotAfter(r.failureTurn, turn)
    ensures var next := RecordSuccess(r, call, turn);
      if IsValidation(call) || RetryPending(r) then next.pending.None? && next.failure.None? && !next.corrective
      else && next.pending == r.pending && next.failure == r.failure && next.failureTurn == r.failureTurn
           && next.corrective == (r.corrective || r.failure.Some?)
  {
    hide EvidenceOf, PhaseOf;
  }

  lemma FailureSettles(r: Recovery, call: Call, result: ToolResult, turn: nat)
    ensures var next := RecordFailure(r, call, result, turn);
      && next.pending == Some(if IsValidation(call) then ValidationFailurePending else ToolFailurePending)
      && next.failure == Some(if IsValidation(call) then ValidationFailed else ToolFailed)
      && next.failureTurn == Some(turn) && !next.corrective
  {
    hide EvidenceOf, PhaseOf, IssueKindOf;
  }

  /** Revisions and deferrals are counted at most once a turn, each on its own; and progress made before the turn
      of a failure does not correct it. */
  lemma OncePerTurn(r: Recovery, turn: nat, later: nat)
    requires turn < later
    ensures NoteRevision(NoteRevision(r, turn), turn) == NoteRevision(r, turn)
    ensures NoteDeferral(NoteDeferral(r, turn), turn) == NoteDeferral(r, turn)
    ensures r.active.Some? ==>
      && NoteRevision(NoteRevision(r, turn), later).active.value.revisions
         == NoteRevision(r, turn).active.value.revisions + 1
      && NoteDeferral(NoteDeferral(r, turn), later).active.value.deferrals
         == NoteDeferral(r, turn).active.value.deferrals + 1
    ensures forall kind :: !NoteCorrective(NoteFailure(r, kind, later), turn).corrective
    ensures forall kind :: NoteCorrective(NoteFailure(r, kind, turn), later).corrective
  {
  }

  /** What a response settles before its tools run: parse errors without calls become the pending failure, and a
      response without any error clears a pending parse error, its failure staying open. */
  lemma ResponseSettles(w: Working, t: Turn, turn: nat)
    ensures var r, next := w.recovery, AfterParse(w, t, turn).recovery;
      if ParseErrorTurn(t) then
        && next.pending == Some(ParseErrorPending) && next.failure == Some(ParseFailure)
        && next.failureTurn == Some(turn) && !next.corrective
      else
        && next.pending == (if t.errors == 0 && r.pending == Some(ParseErrorPending) then None else r.pending)
        && next.failure == r.failure && next.failureTurn == r.failureTurn && next.corrective == r.corrective
  {
    hide PhaseOf;
  }

  lemma IssueAfterTool(r: Recovery, events: seq<ToolEvent>, call: Call, result: ToolResult, turn: nat)
    requires IssueCounts(r.active, events) && !IsFinish(call)
    ensures IssueCounts(RecordTool(r, call, result, turn).active, events + [ToolEvent(turn, call, result)])
  {
    hide RecordTool, IsRecoverable, IssueKindOf;
    var e := ToolEvent(turn, call, result);
    TrackedSnoc(events, e);
    ToolCounts(r, call, result, turn);
    if Succeeded(result) {
      SuccessIsNotRecoverable(call, result);
    }
    if Failing(e) {
      RowSnoc(events, e, IssueKindOf(result));
      RowHasKind(events, IssueKindOf(result));
      EvidenceKinds(result);
    } else if r.active.Some? {
      RowSnoc(events, e, r.active.value.kind);
    }
  }

  lemma EvidenceKinds(result: ToolResult)
    ensures IssueKindOf(result) != StaleEvidence && IssueKindOf(result) != FinishWithoutValidation
  {
  }

  lemma ToolReadsLog(r: Recovery, events: seq<ToolEvent>, call: Call, result: ToolResult, turn: nat)
    requires ReadsLog(r, events) && !IsFinish(call)
    ensures ReadsLog(RecordTool(r, call, result, turn), events + [ToolEvent(turn, call, result)])
  {
    hide RecordTool, IsRecoverable, IssueKindOf, IssueCounts;
    var e := ToolEvent(turn, call, result);
    ToolCounts(r, call, result, turn);
    ToolFacts(r, call, result, turn);
    IssueAfterTool(r, events, call, result, turn);
    LogSnoc(events, e, Passed);
    LogSnoc(events, e, Tracked);
    LogSnoc(events, e, Failing);
    LogSnoc(events, e, Mutating);
  }

  // ----- Judging -----

  /** `b` is `a` up to what reading the gates refreshes and what charging a blocked attempt changes. */
  predicate SameButCharged(a: Recovery, b: Recovery) {
    && SameFacts(a.(active := b.active, lastDeferral := b.lastDeferral), b)
    && (if a.active.Some? then SameIssueCount(a.active, b.active) && b.active.value.revisions == a.active.value.revisions
        else b.active.Some? ==> ForEvidence(b.active.value) && b.active.value.revisions == 0
                                && (b.active.value.kind == StaleEvidence <==> EvidenceOf(a) == Stale))
  }

  lemma ChargeKeeps(r: Recovery, turn: nat)
    ensures SameButCharged(r, NoteDeferral(EnsureIssue(r, turn), turn))
  {
  }

  lemma ChargedFacts(a: Recovery, b: Recovery, c: Recovery, d: Recovery)
    requires SameFacts(a, b) && SameButCharged(b, c) && SameFacts(c, d)
    ensures SameButCharged(a, d)
  {
  }

  lemma FactsCharged(a: Recovery, b: Recovery)
    requires SameFacts(a, b)
    ensures SameButCharged(a, b)
  {
  }

  lemma DeferCharges(r: Recovery, assessment: Assessment, turn: nat, finishing: bool)
    ensures SameButCharged(r, Deferred(r, assessment, turn, finishing).state)
  {
    hide Reported, Exhausted, SameButCharged, EnsureIssue, NoteDeferral;
    var counted := NoteDeferral(EnsureIssue(r, turn), turn);
    ChargeKeeps(r, turn);
    if Exhausted(counted).Some? {
      var b := Exhausted(counted).value;
      ReportKeepsFacts(counted, true, Some(BudgetStop(b)), BudgetExhausted(b), None, None);
    } else {
      ReportKeepsFacts(counted, false, None, DeferralCode(assessment.reason, finishing), assessment.reason,
                       assessment.next);
    }
    ChargedFacts(r, r, counted, Deferred(r, assessment, turn, finishing).state);
  }

  /** Judging a turn changes nothing but caches and the deferrals of an issue, opened if need be. */
  lemma JudgeCharges(r: Recovery, calls: seq<Call>, errors: nat, turn: nat, maxTurns: nat, policy: Policy)
    ensures SameButCharged(r, Judge(r, calls, errors, turn, maxTurns, policy).state)
  {
    hide Reported, Deferred, Exhausted, AfterAssess, Assess, SameButCharged, Refreshed;
    var facts := Refreshed(r);
    ReadingKeepsFacts(r, policy);
    ReadingKeepsFacts(facts, policy);
    var assessed := AfterAssess(facts, policy);
    DeferCharges(assessed, Assess(facts, policy), turn, CallsFinish(calls));
    var deferred := Deferred(assessed, Assess(facts, policy), turn, CallsFinish(calls)).state;
    SameFactsChain(r, facts, assessed);
    ChargedFacts(r, assessed, deferred, deferred);
    ReportsCharge(r, facts);
    ReportsCharge(r, assessed);
  }

  lemma SameFactsChain(a: Recovery, b: Recovery, c: Recovery)
    requires SameFacts(a, b) && SameFacts(b, c)
    ensures SameFacts(a, c)
  {
  }

  lemma ReportsCharge(a: Recovery, r: Recovery)
    requires SameFacts(a, r)
    ensures forall stop, reason, code {:trigger Reported(r, stop, reason, code, None, None)} ::
      SameButCharged(a, Reported(r, stop, reason, code, None, None).state)
  {
    hide Reported, SameButCharged;
    forall stop, reason, code ensures SameButCharged(a, Reported(r, stop, reason, code, None, None).state) {
      ReportKeepsFacts(r, stop, reason, code, None, None);
      var next := Reported(r, stop, reason, code, None, None).state;
      SameFactsChain(a, r, next);
      FactsCharged(a, next);
    }
  }

  lemma ChargedReadsLog(a: Recovery, b: Recovery, events: seq<ToolEvent>)
    requires SameButCharged(a, b) && ReadsLog(a, events)
    ensures ReadsLog(b, events)
  {
    hide LastTurn, Count, FailuresInARow, LastTracked;
  }

  // ----- Runs -----

  lemma {:induction false} InvokeAllReadsLog(w: Working, invocations: seq<Invocation>, turn: nat)
    requires ReadsLog(w.recovery, w.events)
    ensures var next := InvokeAll(w, invocations, turn); ReadsLog(next.recovery, next.events)
  {
    hide RecordTool, AfterCheck, ReadsLog, SameButCharged;
    if invocations != [] {
      var init, inv := invocations[..|invocations| - 1], invocations[|invocations| - 1];
      InvokeAllReadsLog(w, init, turn);
      var before := InvokeAll(w, init, turn);
      var policy := PolicyOf(before.progress, turn);
      if IsFinish(inv.call) {
        CheckKeepsFacts(before.recovery, policy);
        FactsCharged(before.recovery, AfterCheck(before.recovery, policy));
        ChargedReadsLog(before.recovery, AfterCheck(before.recovery, policy), before.events);
      } else {
        ToolReadsLog(before.recovery, before.events, inv.call, inv.outcome, turn);
        CorrectiveReadsLog(RecordTool(before.recovery, inv.call, inv.outcome, turn),
                           before.events + [ToolEvent(turn, inv.call, inv.outcome)], turn);
      }
    }
  }

  lemma CorrectiveReadsLog(r: Recovery, events: seq<ToolEvent>, turn: nat)
    requires ReadsLog(r, events)
    ensures ReadsLog(NoteCorrective(r, turn), events)
  {
  }

  lemma ParseReadsLog(w: Working, t: Turn, turn: nat)
    requires ReadsLog(w.recovery, w.events)
    ensures ReadsLog(AfterParse(w, t, turn).recovery, w.events) && AfterParse(w, t, turn).events == w.events
  {
    hide LastTurn, Count, IssueCounts, AfterParse;
    ParseKeepsIssue(w, t, turn);
    ParseKeepsEvidence(w, t, turn);
    ParseKeepsDates(w, t, turn);
  }

  lemma ParseKeepsDates(w: Working, t: Turn, turn: nat)
    ensures var r := AfterParse(w, t, turn).recovery;
      && r.lastAttempt == w.recovery.lastAttempt && r.lastFailure == w.recovery.lastFailure
      && r.failures == w.recovery.failures
  {
    hide PhaseOf;
  }

  ghost predicate AgentReadsLog(a: Agent) { ReadsLog(a.work.recovery, a.work.events) }

  lemma TurnReadsLog(a: Agent, t: Turn, maxTurns: nat)
    requires AgentReadsLog(a)
    ensures AgentReadsLog(TakeTurn(a, t, maxTurns))
    ensures ReadsLog(AfterTools(a.work, t, a.turn + 1).recovery, TakeTurn(a, t, maxTurns).work.events)
  {
    hide AfterParse, InvokeAll, Judge, AfterAssess, ReadsLog, SameButCharged;
    var turn := a.turn + 1;
    ParseReadsLog(a.work, t, turn);
    InvokeAllReadsLog(AfterParse(a.work, t, turn), t.invocations, turn);
    var worked := AfterTools(a.work, t, turn);
    var policy := PolicyOf(worked.progress, turn);
    ReadingKeepsFacts(worked.recovery, policy);
    var assessed := AfterAssess(worked.recovery, policy);
    JudgeCharges(assessed, CallsIn(t), t.errors, turn, maxTurns, policy);
    FactsCharged(worked.recovery, assessed);
    ChargedReadsLog(worked.recovery, assessed, worked.events);
    ChargedReadsLog(assessed, Judge(assessed, CallsIn(t), t.errors, turn, maxTurns, policy).state, worked.events);
  }

  /** Over every run: the dates of the last validation, failure, success and mutation, and the number of
      failures, are those of the log; and the validation counter of the active issue is the number of failing
      validations of its kind in a row, or 0 if the issue was opened for the evidence. */
  lemma {:induction false} RunReadsLog(required: bool, budgets: Budgets, turns: seq<Turn>, maxTurns: nat)
    ensures AgentReadsLog(RunAgent(Start(required, budgets), turns, maxTurns))
  {
    hide TakeTurn, AgentReadsLog;
    if turns == [] {
      StartReadsLog(required, budgets);
    } else {
      RunReadsLog(required, budgets, turns[..|turns| - 1], maxTurns);
      TurnReadsLog(RunAgent(Start(required, budgets), turns[..|turns| - 1], maxTurns), turns[|turns| - 1], maxTurns);
    }
  }

  lemma StartReadsLog(required: bool, budgets: Budgets)
    ensures AgentReadsLog(Start(required, budgets))
  {
  }

  /** Evidence, read off the log: it is missing if no validation passed, and stale if a mutation was called in
      a turn after the last that did. */
  lemma EvidenceReadsLog(required: bool, budgets: Budgets, turns: seq<Turn>, maxTurns: nat)
    ensures var end := RunAgent(Start(required, budgets), turns, maxTurns);
      var passed, mutated := LastTurn(end.work.events, Passed), LastTurn(end.work.events, Mutating);
      EvidenceOf(end.work.recovery) == (if !required then NotRequired
                                        else if passed.None? then Missing
                                        else if mutated.Some? && mutated.value > passed.value then Stale
                                        else Validated)
  {
    hide RunAgent, LastTurn, Count, IssueCounts;
    RunReadsLog(required, budgets, turns, maxTurns);
    BudgetsKept(required, budgets, turns, maxTurns);
  }
}
