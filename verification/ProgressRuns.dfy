/** What the session's progress says of the log of tool calls, and how long a failure stays recent. */
module ProgressRuns {
  import opened Prelude
  import opened Recovery
  import opened AgentLoop
  import opened LastValidation
  import opened LogCounts

  predicate Worked(e: ToolEvent) { Succeeded(e.result) }

  predicate Changed(e: ToolEvent) { IsMutation(e.call) && Succeeded(e.result) }

  function NamesIn(events: seq<ToolEvent>): set<string> {
    if events == [] then {} else NamesIn(events[..|events| - 1]) + {events[|events| - 1].call.name}
  }

  /** The counters and flags of the session are those of the log. */
  ghost predicate ProgressReadsLog(p: Progress, events: seq<ToolEvent>) {
    && p.calls == |events| && p.names == NamesIn(events) && p.successes == Count(events, Worked)
    && (p.mutated <==> Count(events, Changed) > 0) && (p.validated <==> Count(events, Passed) > 0)
  }

  lemma ToolProgress(p: Progress, events: seq<ToolEvent>, call: Call, result: ToolResult, turn: nat)
    requires ProgressReadsLog(p, events) && !IsFinish(call)
    ensures ProgressReadsLog(NoteTool(p, call, result, turn), events + [ToolEvent(turn, call, result)])
  {
    var e := ToolEvent(turn, call, result);
    LogSnoc(events, e, Worked);
    LogSnoc(events, e, Changed);
    LogSnoc(events, e, Passed);
    assert (events + [e])[..|events|] == events;
  }

  lemma {:induction false} InvokeAllProgress(w: Working, invocations: seq<Invocation>, turn: nat)
    requires ProgressReadsLog(w.progress, w.events)
    ensures var next := InvokeAll(w, invocations, turn); ProgressReadsLog(next.progress, next.events)
  {
    hide RecordTool, AfterCheck, ProgressReadsLog, NoteTool;
    if invocations != [] {
      var init, inv := invocations[..|invocations| - 1], invocations[|invocations| - 1];
      InvokeAllProgress(w, init, turn);
      if !IsFinish(inv.call) {
        var before := InvokeAll(w, init, turn);
        ToolProgress(before.progress, before.events, inv.call, inv.outcome, turn);
      }
    }
  }

  lemma ParseProgress(w: Working, t: Turn, turn: nat)
    requires ProgressReadsLog(w.progress, w.events)
    ensures ProgressReadsLog(AfterParse(w, t, turn).progress, w.events) && AfterParse(w, t, turn).events == w.events
  {
    hide Count, NamesIn, RecordParse, PhaseOf;
  }

  /** Over every run. */
  lemma {:induction false} RunProgress(required: bool, budgets: Budgets, turns: seq<Turn>, maxTurns: nat)
    ensures var work := RunAgent(Start(required, budgets), turns, maxTurns).work;
      ProgressReadsLog(work.progress, work.events)
  {
    hide AfterParse, InvokeAll, JudgeTurn, ProgressReadsLog;
    if turns == [] {
      NoProgressYet();
    } else {
      var init, t := turns[..|turns| - 1], turns[|turns| - 1];
      var before := RunAgent(Start(required, budgets), init, maxTurns);
      RunProgress(required, budgets, init, maxTurns);
      ParseProgress(before.work, t, before.turn + 1);
      InvokeAllProgress(AfterParse(before.work, t, before.turn + 1), t.invocations, before.turn + 1);
    }
  }

  lemma NoProgressYet()
    ensures ProgressReadsLog(NO_PROGRESS, [])
  {
  }

  lemma {:induction false} CountsSome(events: seq<ToolEvent>, which: ToolEvent -> bool)
    ensures Count(events, which) > 0 <==> exists i :: 0 <= i < |events| && which(events[i])
  {
    if events != [] {
      var init := events[..|events| - 1];
      CountsSome(init, which);
      if exists i :: 0 <= i < |init| && which(init[i]) {
        var i :| 0 <= i < |init| && which(init[i]);
        assert which(events[i]);
      }
    }
  }

  lemma {:induction false} NamesAre(events: seq<ToolEvent>)
    ensures forall name :: name in NamesIn(events) <==> exists i :: 0 <= i < |events| && events[i].call.name == name
  {
    if events != [] {
      var init := events[..|events| - 1];
      NamesAre(init);
      forall name ensures name in NamesIn(events) <==> exists i :: 0 <= i < |events| && events[i].call.name == name {
        if name in NamesIn(init) {
          var i :| 0 <= i < |init| && init[i].call.name == name;
          assert events[i].call.name == name;
        }
      }
    }
  }

  /** Two calls went to different tools. */
  ghost predicate TwoTools(events: seq<ToolEvent>) {
    exists i, j :: 0 <= i < |events| && 0 <= j < |events| && events[i].call.name != events[j].call.name
  }

  lemma ManyNames(names: set<string>)
    ensures |names| > 1 <==> exists a, b :: a in names && b in names && a != b
  {
    if a, b :| a in names && b in names && a != b {
      assert {a, b} <= names;
      assert names == {a, b} + (names - {a, b});
    }
    if |names| > 1 {
      var a :| a in names;
      assert names == {a} + (names - {a});
      var b :| b in names - {a};
    }
  }

  /** Progress is meaningful exactly if some mutation or some validation succeeded, or two different tools were
      called, whatever came of it. */
  lemma MeaningfulExactly(required: bool, budgets: Budgets, turns: seq<Turn>, maxTurns: nat)
    ensures var work := RunAgent(Start(required, budgets), turns, maxTurns).work;
      Meaningful(work.progress) <==>
        || (exists i :: 0 <= i < |work.events| && (Changed(work.events[i]) || Passed(work.events[i])))
        || TwoTools(work.events)
    ensures var work := RunAgent(Start(required, budgets), turns, maxTurns).work;
      forall turn :: PolicyOf(work.progress, turn).gateApplies
                <==> Count(work.events, Worked) > 1 && !Meaningful(work.progress)
  {
    hide RunAgent, Count, NamesIn;
    var work := RunAgent(Start(required, budgets), turns, maxTurns).work;
    RunProgress(required, budgets, turns, maxTurns);
    CountsSome(work.events, Changed);
    CountsSome(work.events, Passed);
    NamesAre(work.events);
    ManyNames(work.progress.names);
    if TwoTools(work.events) {
      var i, j :| 0 <= i < |work.events| && 0 <= j < |work.events|
                  && work.events[i].call.name != work.events[j].call.name;
      assert work.events[i].call.name in work.progress.names && work.events[j].call.name in work.progress.names;
    }
  }

  /** A failure is recent in its own turn and the next two, unless a tool succeeds; a blocked completion is no
      failure, and a call of finish is no call. */
  lemma RecentExactly(p: Progress, call: Call, result: ToolResult, kind: Failure, turn: nat, later: nat)
    requires turn <= later
    ensures PolicyOf(NoteProtocol(p, kind, turn), later).recent == (if later <= turn + 2 then Some(kind) else None)
    ensures PolicyOf(NoteTool(p, call, result, turn), later).recent
         == (if IsFinish(call) || (!Succeeded(result) && result.errorType == COMPLETION_BLOCKED)
             then PolicyOf(p, later).recent
             else if Succeeded(result) || later > turn + 2 then None
             else Some(if IsValidation(call) then ValidationFailed else ToolFailed))
  {
  }

  /** A response with protocol errors, or with parse errors and no calls, is a recent failure of that kind. */
  lemma ResponseFailures(w: Working, t: Turn, turn: nat)
    ensures PolicyOf(AfterParse(w, t, turn).progress, turn).recent
         == (if t.protocol then Some(ProtocolFailure)
             else if t.errors > 0 && t.invocations == [] then Some(ParseFailure)
             else PolicyOf(w.progress, turn).recent)
  {
  }
}
