/** Agents that only finish or answer: for how long, and how their runs end. */
module AttemptRuns {
  import opened Prelude
  import opened Recovery
  import opened Stopping
  import opened Gates
  import opened AgentLoop
  import opened AgentRuns
  import opened AgentBudgets
  import opened FinishTurns
  import opened LogCounts
  import opened StopReasons

  /** What blocks a finish-only turn: a pending issue other than a parse error, which the clean response
      clears; evidence that is missing or stale; a failure, still open or recent, that was not corrected
      although the evidence is validated; or calls without meaningful progress. */
  predicate HeldBack(r: Recovery, p: Progress, turn: nat) {
    || r.pending == Some(ToolFailurePending) || r.pending == Some(ValidationFailurePending)
    || EvidenceOf(r) == Missing || EvidenceOf(r) == Stale
    || ((r.failure.Some? || PolicyOf(p, turn).recent.Some?) && !r.corrective && EvidenceOf(r) == Validated)
    || (p.successes > 1 && !Meaningful(p))
  }

  lemma ParsedHeldBack(w: Working, t: Turn, turn: nat)
    requires FinishOnly(t)
    ensures var parsed := AfterParse(w, t, turn);
      && parsed.progress == w.progress
      && (Assess(parsed.recovery, PolicyOf(w.progress, turn)).blocked <==> HeldBack(w.recovery, w.progress, turn))
  {
    hide Assess, Meaningful, PhaseOf, EvidenceOf;
    var parsed := AfterParse(w, t, turn);
    ParseKeepsIssue(w, t, turn);
    AssessmentMatchesGate(parsed.recovery, PolicyOf(w.progress, turn));
    assert w.recovery.pending.Some? ==> RetryPending(w.recovery) || w.recovery.pending.value.ValidationFailurePending?;
  }

  /** Charging an attempt exceeds the deferral limit exactly if the attempt is counted and the limit reached. */
  lemma ChargeExceeds(r: Recovery, turn: nat)
    requires Exhausted(r).None? && r.lastDeferral != Some(turn)
    ensures Exhausted(NoteDeferral(EnsureIssue(r, turn), turn)) == Some(DeferralBudget)
       <==> Counted(r) && Deferrals(r) >= r.budgets.deferrals
  {
    hide EvidenceOf, EnsureIssue;
    EnsuredIssue(r, turn);
  }

  /** What a held-back attempt leaves alone; a pending parse error is gone. */
  predicate SameButAttempted(a: Recovery, b: Recovery) {
    && SameEvidence(a, b) && a.failure == b.failure && a.corrective == b.corrective
    && b.pending == (if a.pending == Some(ParseErrorPending) then None else a.pending)
    && (Counted(a) ==> b.active.Some? && Deferrals(b) == Deferrals(a) + 1)
    && (!Counted(a) ==> b.active.None?)
  }

  /** One finish-only turn short of the turn limit completes if nothing holds it back, fails if it is counted
      against a deferral limit already reached, and goes on otherwise. */
  lemma AttemptTurn(a: Agent, t: Turn, maxTurns: nat)
    requires FinishOnly(t) && AtRest(a.work.recovery, a.turn) && a.turn + 1 < maxTurns
    ensures var r, next := a.work.recovery, TakeTurn(a, t, maxTurns);
      var held := HeldBack(r, a.work.progress, a.turn + 1);
      && next.turn == a.turn + 1 && next.work.progress == a.work.progress && next.work.events == a.work.events
      && next.status == (if !held then Completed
                         else if Counted(r) && Deferrals(r) >= r.budgets.deferrals then Failed else Running)
      && (next.status == Failed ==> LastReason(next) == Some(BudgetStop(DeferralBudget)))
      && (next.status == Running ==> AtRest(next.work.recovery, next.turn) && SameButAttempted(r, next.work.recovery))
  {
    hide Judge, AfterAssess, AfterParse, InvokeAll, Exhausted, EvidenceOf, Assess, HeldBack, AtRest, SameButCharged,
         EnsureIssue, NoteDeferral;
    var turn, r := a.turn + 1, a.work.recovery;
    var next := TakeTurn(a, t, maxTurns);
    FinishTurnJudged(a, t, maxTurns);
    var parsed := AfterParse(a.work, t, turn);
    var policy := PolicyOf(parsed.progress, turn);
    var judged := AfterAssess(AfterTools(a.work, t, turn).recovery, policy);
    NoOtherCalls(t);
    ParsedHeldBack(a.work, t, turn);
    ParseKeepsIssue(a.work, t, turn);
    ReadingsAgree(parsed.recovery, judged, policy);
    RestHasRoom(r, a.turn);
    RestDates(r, a.turn);
    ReasonsExactly(judged, CallsIn(t), 0, turn, maxTurns, policy);
    StopsWithReason(judged, CallsIn(t), 0, turn, maxTurns, policy);
    ChargeExceeds(judged, turn);
    FinishOnlyTurn(a, t, maxTurns);
    TurnBounds(a, t, maxTurns);
    JudgeCharges(judged, CallsIn(t), 0, turn, maxTurns, policy);
    ChargedFailure(judged, next.work.recovery);
    CleanParse(a.work, t, turn);
    AllReasons(LastReason(next));
  }

  lemma AllReasons(reason: Option<StopReason>)
    ensures reason.None? || reason == Some(FinishStop) || reason == Some(NoToolCallsStop)
            || reason == Some(MaxTurnsStop) || reason == Some(ParseErrorStop)
            || reason == Some(BudgetStop(ValidationBudget)) || reason == Some(BudgetStop(RevisionBudget))
            || reason == Some(BudgetStop(DeferralBudget))
  {
    match reason
    case None =>
    case Some(FinishStop) =>
    case Some(NoToolCallsStop) =>
    case Some(MaxTurnsStop) =>
    case Some(ParseErrorStop) =>
    case Some(BudgetStop(ValidationBudget)) =>
    case Some(BudgetStop(RevisionBudget)) =>
    case Some(BudgetStop(DeferralBudget)) =>
  }

  lemma RestDates(r: Recovery, turn: nat)
    requires AtRest(r, turn)
    ensures r.lastDeferral != Some(turn + 1) && Deferrals(r) <= r.budgets.deferrals
  {
  }

  lemma ChargedFailure(a: Recovery, b: Recovery)
    requires SameButCharged(a, b)
    ensures b.failure == a.failure && b.corrective == a.corrective && b.pending == a.pending
  {
  }

  lemma CleanParse(w: Working, t: Turn, turn: nat)
    requires t.errors == 0
    ensures var r, parsed := w.recovery, AfterParse(w, t, turn).recovery;
      && parsed.failure == r.failure && parsed.corrective == r.corrective
      && parsed.pending == (if r.pending == Some(ParseErrorPending) then None else r.pending)
  {
  }

  /** Holding back can only cease, as the recent failure expires. */
  lemma HeldBackExpires(r: Recovery, p: Progress, turn: nat, later: nat)
    requires turn <= later
    ensures HeldBack(r, p, later) ==> HeldBack(r, p, turn)
  {
  }

  lemma AttemptedTwice(a: Recovery, b: Recovery, c: Recovery, n: nat)
    requires AttemptedSince(a, b, n) && SameButAttempted(b, c)
    ensures AttemptedSince(a, c, n + 1)
  {
    hide EvidenceOf;
    if n > 0 {
      SameCounting(a, b);
    }
  }

  /** `b` is what `n` held-back attempts make of `a`. */
  predicate AttemptedSince(a: Recovery, b: Recovery, n: nat) {
    if n == 0 then a == b else
    && SameEvidence(a, b) && a.failure == b.failure && a.corrective == b.corrective
    && b.pending == (if a.pending == Some(ParseErrorPending) then None else a.pending)
    && (Counted(a) ==> b.active.Some? && Deferrals(b) == Deferrals(a) + n)
    && (!Counted(a) ==> b.active.None?)
  }

  lemma HeldBackSince(a: Recovery, b: Recovery, p: Progress, turn: nat, n: nat)
    requires AttemptedSince(a, b, n)
    ensures Counted(a) <==> Counted(b)
    ensures HeldBack(b, p, turn) <==> HeldBack(a, p, turn)
    ensures b.budgets == a.budgets && (Counted(a) ==> Deferrals(b) == Deferrals(a) + n)
  {
    if n > 0 {
      SameCounting(a, b);
    }
  }

  /** Any number of finish-only turns short of the turn limit: the run goes on exactly if the last was still
      held back and, should attempts be counted, no more were made than the deferral limit allows. If it does
      not, it failed for that limit at the first attempt beyond it, unless it completed before. */
  lemma {:induction false} AttemptsExactly(a: Agent, turns: seq<Turn>, maxTurns: nat)
    requires a.status == Running && AtRest(a.work.recovery, a.turn) && a.turn + |turns| < maxTurns
    requires forall i :: 0 <= i < |turns| ==> FinishOnly(turns[i])
    ensures var r, p, end, n := a.work.recovery, a.work.progress, RunAgent(a, turns, maxTurns), |turns|;
      var excess := r.budgets.deferrals + 1 - Deferrals(r);
      && excess >= 1
      && (end.status == Running <==>
            n == 0 || (HeldBack(r, p, a.turn + n) && (Counted(r) ==> n < excess)))
      && (end.status == Failed <==> Counted(r) && n >= excess && HeldBack(r, p, a.turn + excess))
      && (end.status == Running || end.status == Failed || end.status == Completed)
      && (end.status == Failed ==> n > 0 && LastReason(end) == Some(BudgetStop(DeferralBudget)))
      && (end.status == Running ==>
            && AtRest(end.work.recovery, end.turn) && end.turn == a.turn + n && end.work.progress == p
            && AttemptedSince(r, end.work.recovery, n))
  {
    hide TakeTurn, FinishOnly, HeldBack, Counted, AtRest, AttemptedSince, SameButAttempted, Deferrals;
    var r, p, n := a.work.recovery, a.work.progress, |turns|;
    RestDates(r, a.turn);
    if n == 0 {
      SinceNothing(r);
    } else {
      var before := RunAgent(a, turns[..n - 1], maxTurns);
      AttemptsExactly(a, turns[..n - 1], maxTurns);
      if n > 1 {
        HeldBackExpires(r, p, a.turn + n - 1, a.turn + n);
      }
      if before.status == Running {
        HeldBackSince(r, before.work.recovery, p, a.turn + n, n - 1);
        AttemptTurn(before, turns[n - 1], maxTurns);
        var end := TakeTurn(before, turns[n - 1], maxTurns);
        if end.status == Running {
          AttemptedTwice(r, before.work.recovery, end.work.recovery, n - 1);
        }
      }
    }
  }

  lemma SinceNothing(r: Recovery)
    ensures AttemptedSince(r, r, 0)
  {
  }

  /** From any point of any run at which it goes on: after any number of finish-only turns it still does exactly
      if the turn limit is not reached, something holds it back, and, should attempts be counted, they have
      not been more than the deferral limit allows. */
  lemma FinishOnlyEndsExactly(required: bool, budgets: Budgets, turns: seq<Turn>, more: seq<Turn>, maxTurns: nat)
    requires maxTurns >= 1 && RunAgent(Start(required, budgets), turns, maxTurns).status == Running
    requires (forall i :: 0 <= i < |more| ==> FinishOnly(more[i])) && more != []
    ensures var a := RunAgent(Start(required, budgets), turns, maxTurns);
      RunAgent(Start(required, budgets), turns + more, maxTurns).status == Running
      <==> && a.turn + |more| < maxTurns && HeldBack(a.work.recovery, a.work.progress, a.turn + |more|)
           && (Counted(a.work.recovery) ==> Deferrals(a.work.recovery) + |more| <= budgets.deferrals)
  {
    hide RunAgent, FinishOnly, HeldBack, Counted, AtRest, Bounded, Deferrals, AttemptedSince, LastReason;
    var start := Start(required, budgets);
    var a := RunAgent(start, turns, maxTurns);
    RunOfConcat(start, turns, more, maxTurns);
    CountersStayBounded(required, budgets, turns, maxTurns);
    CountersStayBounded(required, budgets, turns + more, maxTurns);
    BudgetsKept(required, budgets, turns, maxTurns);
    if a.turn + |more| < maxTurns {
      AttemptsExactly(a, more, maxTurns);
    }
  }
}
