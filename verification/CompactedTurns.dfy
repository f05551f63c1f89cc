/** Which run turns a run compacts, and how far the planner's turn numbers can be trusted. */
module CompactedTurns {
  import opened Prelude
  import opened Messages
  import opened TurnRanges
  import opened Planning
  import opened Compaction
  import opened ContextPlans
  import opened History
  import opened RequestContext
  import opened HistoryView
  import opened HistoryInvariant
  import opened HistoryRun
  import opened Conservation
  import opened RequestContents

  lemma {:induction false} RelativeInView(source: seq<Item>, cuts: seq<nat>, summaries: seq<Item>, p: nat)
    requires |cuts| == |summaries| && SourceOrder(source) && AllSystem(summaries)
    requires forall i: nat :: i < |source| && source[i].message.role.Tool? ==> TurnAt(MessagesOf(source), i) >= 1
    requires p < |View(source, cuts, summaries)| && !Pinned(View(source, cuts, summaries)[p].message)
    ensures var view := View(source, cuts, summaries);
      && view[p].SourceItem? && view[p].index < |source|
      && TurnAt(MessagesOf(source), view[p].index) == LastCut(cuts) + TurnAt(MessagesOf(view), p)
  {
    var n := |source| - 1;
    var ms, view, rest := MessagesOf(source), View(source, cuts, summaries), View(source[..n], cuts, summaries);
    MessagesInit(source);
    TurnAtItem(source, n);
    assert source[..n + 1] == source;
    OpenedByInRange(cuts, Assistants(ms));
    forall i: nat | i < n ensures TurnAt(ms[..n], i) == TurnAt(ms, i) {
      TurnAtPrefix(ms, n, i);
    }
    if p < |rest| {
      assert view[p] == rest[p];
      RelativeInView(source[..n], cuts, summaries, p);
      assert MessagesOf(view)[..|rest|] == MessagesOf(rest);
      TurnAtPrefix(MessagesOf(view), |rest|, p);
    } else {
      assert view == rest + [source[n]];
      AssistantsOfView(source, cuts, summaries);
      assert MessagesOf(view)[..p + 1] == MessagesOf(view);
    }
  }

  /** Numbering restarts after each compaction: relative turn j of the request is run turn m + j, where
      1 to m are the turns compacted so far. */
  lemma RelativeTurns(s: State, trajectory: seq<Message>, cuts: seq<nat>, p: nat)
    requires Invariant(s, trajectory, cuts) && OpensWithTurn(trajectory)
    requires p < |s.request| && !Pinned(s.request[p].message)
    ensures s.request[p].SourceItem? && s.request[p].index < |trajectory|
    ensures TurnAt(trajectory, s.request[p].index) == LastCut(cuts) + TurnAt(MessagesOf(s.request), p)
  {
    hide View, RecordsBacked;
    SourceMessages(s, trajectory, cuts);
    CutsOf(s, trajectory, cuts);
    forall i: nat | i < |s.source| && s.source[i].message.role.Tool? ensures TurnAt(trajectory, i) >= 1 {
      assert trajectory[i] == s.source[i].message;
      ToolsAreInTurns(trajectory, i);
    }
    RelativeInView(s.source, cuts, SummariesOf(s.records), p);
  }

  /** Run turn `t` has left the request: none of its messages is there. */
  ghost predicate TurnCompacted(run: Run, t: nat) {
    forall i: nat :: i < |run.trajectory| && InTurn(run.trajectory, i, t) ==> i !in IndicesOf(run.state.request)
  }

  lemma {:induction false} TurnHasAssistant(ms: seq<Message>, t: nat) returns (i: nat)
    requires 1 <= t <= Assistants(ms)
    ensures i < |ms| && InTurn(ms, i, t)
  {
    var n := |ms| - 1;
    assert ms[..|ms|] == ms;
    if ms[n].role.Assistant? && t == Assistants(ms) {
      i := n;
    } else {
      i := TurnHasAssistant(ms[..n], t);
      TurnAtPrefix(ms, n, i);
    }
  }

  /** At every reachable state the compacted turns are exactly 1 to m, where m is the last cut, and the
      request has begun the turns after m. */
  lemma CompactedTurnsArePrefix(cfg: Config, system: Message, task: Message, inputs: seq<TurnInput>, t: nat)
    requires Prompts(system, task) && WellFormed(inputs)
    requires 1 <= t <= Assistants(RunOf(cfg, system, task, inputs).trajectory)
    ensures var run := RunOf(cfg, system, task, inputs);
      && (TurnCompacted(run, t) <==> t <= LastCut(run.cuts))
      && Assistants(MessagesOf(run.state.request)) == Assistants(run.trajectory) - LastCut(run.cuts)
  {
    hide RunOf, Invariant;
    var run := RunOf(cfg, system, task, inputs);
    RunKeepsInvariant(cfg, system, task, inputs);
    RequestIndices(run.state, run.trajectory, run.cuts);
    IndicesInMembers(|run.trajectory|, VisibleSet(run.trajectory, LastCut(run.cuts)));
    CompactionTakesNextTurns(run.state, run.trajectory, run.cuts, 1);
    var i := TurnHasAssistant(run.trajectory, t);
    assert i in VisibleSet(run.trajectory, LastCut(run.cuts)) <==> t > LastCut(run.cuts);
  }

  /** The run turns a turn's plan takes out of the request: those after `m`, up to `m + k`. */
  function LastTaken(cfg: Config, run: Run, input: TurnInput): nat {
    LastCut(run.cuts) + |PlanOfTurn(cfg, run, input).metadata.compactedTurns|
  }

  /** The plan takes a run turn that may not go: the opening turn of the active issue, the last validated
      turn, or a later one. */
  predicate TakesProtected(cfg: Config, run: Run, input: TurnInput) {
    Replaces(PlanOfTurn(cfg, run, input)) && !MayGo(input.session, LastTaken(cfg, run, input))
  }

  /** When the planner's relative numbers let it take a protected turn, `m` turns having gone before: it
      compacts something, has a protected turn in reach, and the turns that may go do not free enough room. */
  ghost predicate ProtectionGap(ms: seq<Message>, session: Session, limits: Limits, m: nat) {
    && m >= 1 && !RespectsLimits(ms, limits) && Assistants(ms) > 0 && MayGo(session, 1)
    && !MayGo(session, m + Assistants(ms))
    && forall d :: 1 <= d <= |TurnRangesOf(ms)| && MayGo(session, m + d) ==>
         !RespectsLimits(Compacted(ms, session, TurnRangesOf(ms)[..d]), limits)
  }

  lemma GapExactly(ms: seq<Message>, session: Session, turn: nat, limits: Limits, m: nat)
    ensures var k := CompactedTurnCount(DeterministicResult(ms, Some(session), turn, limits));
      k >= 1 && !MayGo(session, m + k) <==> ProtectionGap(ms, session, limits, m)
  {
    hide DeterministicResult, RespectsLimits, Compacted;
    var k := CompactedTurnCount(DeterministicResult(ms, Some(session), turn, limits));
    CompactsExactly(ms, session, turn, limits);
    if k >= 1 {
      SelectedWhen(ms, session, turn, limits, k);
      if MayGo(session, m + k) {
        assert k < Assistants(ms) && m >= 1 ==> MayGo(session, k + 1);
        assert RespectsLimits(Compacted(ms, session, TurnRangesOf(ms)[..k]), limits)
            || m == 0 || k == Assistants(ms);
      } else {
        assert m + k <= m + Assistants(ms) && m >= 1;
        forall d | 1 <= d <= |TurnRangesOf(ms)| && MayGo(session, m + d)
          ensures !RespectsLimits(Compacted(ms, session, TurnRangesOf(ms)[..d]), limits)
        {
          assert d < k;
        }
      }
    }
  }

  /** The planner compares its restarted turn numbers with run turn numbers. It takes a protected run turn
      exactly when an earlier compaction has happened, and dropping only the turns that may go does not make
      the request respect its limits. */
  lemma ProtectedTurnTakenExactly(cfg: Config, run: Run, input: TurnInput)
    requires cfg.policy == DeterministicCompaction || cfg.policy == ModelBackedCompaction
    ensures TakesProtected(cfg, run, input) <==>
      ProtectionGap(MessagesOf(SyncedForTurn(run, input).request), input.session, cfg.limits, LastCut(run.cuts))
  {
    hide Synced, ProtectionGap, DeterministicResult, Takes, MayGo;
    var s := SyncedForTurn(run, input);
    GapExactly(MessagesOf(s.request), input.session, |run.requests| + 1, cfg.limits, LastCut(run.cuts));
    PlanTakesTurns(s, cfg.policy, cfg.limits, input.session, |run.requests| + 1, input.reply);
  }

  /** Before anything has been compacted, protected turns are safe: a plan that takes turns 1 to k takes them
      from before the opening of the active issue and from before the last successful validation. */
  lemma FirstCompactionPreserves(cfg: Config, run: Run, input: TurnInput)
    requires LastCut(run.cuts) == 0 && Replaces(PlanOfTurn(cfg, run, input))
    ensures var k := |PlanOfTurn(cfg, run, input).metadata.compactedTurns|;
      && 1 <= k == LastTaken(cfg, run, input) && !TakesProtected(cfg, run, input)
      && (input.session.issueOpenedAt.Some? ==> k < input.session.issueOpenedAt.value)
      && (input.session.lastValidation.Some? ==> k < input.session.lastValidation.value)
  {
    hide Synced, DeterministicResult, Takes, ProtectionGap;
    var s := SyncedForTurn(run, input);
    PlanTakesTurns(s, cfg.policy, cfg.limits, input.session, |run.requests| + 1, input.reply);
    NoGapAtFirst(MessagesOf(s.request), input.session, cfg.limits);
    ProtectedTurnTakenExactly(cfg, run, input);
  }

  lemma NoGapAtFirst(ms: seq<Message>, session: Session, limits: Limits)
    ensures !ProtectionGap(ms, session, limits, 0)
  {
  }

  /** A turn with one tool call and its result. */
  function ToolTurn(payload: nat): seq<Message> { [Message(Assistant, 4, payload), Message(Tool, 4, payload)] }

  /** Two messages are allowed, so turns 2 and 3 both compact; at turn 3 the session reports that run
      turn 2, in which a tool was called, is the last validated one. */
  function GapInputs(reply: Reply, render: seq<TurnRange> -> Rendering): seq<TurnInput> {
    var plain := Session(None, None, render);
    [TurnInput([], plain, reply), TurnInput(ToolTurn(1), plain, reply)]
  }

  function GapInput(reply: Reply, render: seq<TurnRange> -> Rendering): TurnInput {
    TurnInput(ToolTurn(2), Session(None, Some(2), render), reply)
  }

  const TWO_MESSAGES := Config(DeterministicCompaction, Limits(Some(2), None, 0, 0))

  lemma ReplacesWhenTooLong(s: State, session: Session, turn: nat, reply: Reply)
    requires |s.request| > 2 && Assistants(MessagesOf(s.request)) == 1
    requires MayGo(session, 1)
    ensures var plan := FinalPlan(MessagesOf(s.request), TWO_MESSAGES.policy, TWO_MESSAGES.limits, session, turn, reply);
      Replaces(plan) && |plan.metadata.compactedTurns| == 1
  {
    var ms := MessagesOf(s.request);
    hide DeterministicResult, Takes, MayGo;
    CompactsExactly(ms, session, turn, TWO_MESSAGES.limits);
    PlanTakesTurns(s, TWO_MESSAGES.policy, TWO_MESSAGES.limits, session, turn, reply);
  }

  lemma AssistantsOfThree(a: Message, b: Message, c: Message)
    requires Prompts(a, b) && c.role.Assistant?
    ensures Assistants([a, b, c]) == 1 && Assistants([a, b]) == 0
  {
    assert [a, b, c][..2] == [a, b] && [a, b][..1] == [a] && [a][..0] == [];
    assert Assistants([a]) == 0;
  }

  lemma AssistantsOfToolTurn(ms: seq<Message>, payload: nat)
    ensures Assistants(ms + ToolTurn(payload)) == Assistants(ms) + 1
  {
    assert ms + ToolTurn(payload) == (ms + [Message(Assistant, 4, payload)]) + [Message(Tool, 4, payload)];
    AssistantsSnoc(ms, Message(Assistant, 4, payload));
    AssistantsSnoc(ms + [Message(Assistant, 4, payload)], Message(Tool, 4, payload));
  }

  /** The first turn of the example compacts nothing: there is no turn to compact yet. */
  lemma GapFirstTurn(system: Message, task: Message, reply: Reply, render: seq<TurnRange> -> Rendering)
    requires Prompts(system, task)
    ensures var run := RunOf(TWO_MESSAGES, system, task, GapInputs(reply, render)[..1]);
      run.cuts == [] && run.trajectory == [system, task] && |run.requests| == 1 && RunInvariant(run)
  {
    hide Synced, FinalPlan, Invariant, SnapshotOf, EntryFor, Materialised, Takes;
    var input, cfg := GapInputs(reply, render)[0], TWO_MESSAGES;
    assert GapInputs(reply, render)[..1] == [] + [input];
    RunOfSnoc(cfg, system, task, [], input);
    var first := RunOf(cfg, system, task, []);
    RunKeepsInvariant(cfg, system, task, []);
    AssistantsOfThree(system, task, Message(Assistant, 4, 1));
    assert [system, task] + input.batch == [system, task];
    StepKeepsInvariant(cfg, first, input);
    var s := SyncedForTurn(first, input);
    PlanTakesTurns(s, cfg.policy, cfg.limits, input.session, 1, reply);
    CompactionTakesNextTurns(s, [system, task], [], 1);
  }

  /** After the first two turns of the example one turn has been compacted. */
  lemma GapRunCuts(system: Message, task: Message, reply: Reply, render: seq<TurnRange> -> Rendering)
    requires Prompts(system, task)
    ensures var run := RunOf(TWO_MESSAGES, system, task, GapInputs(reply, render));
      run.cuts == [1] && run.trajectory == [system, task] + ToolTurn(1)
  {
    hide Synced, FinalPlan, Invariant, SnapshotOf, EntryFor, Materialised, Takes, RunOf;
    var inputs, cfg := GapInputs(reply, render), TWO_MESSAGES;
    GapFirstTurn(system, task, reply, render);
    var run := RunOf(cfg, system, task, inputs[..1]);
    assert inputs == inputs[..1] + [inputs[1]];
    RunOfSnoc(cfg, system, task, inputs[..1], inputs[1]);
    AssistantsOfThree(system, task, Message(Assistant, 4, 1));
    AssistantsOfToolTurn([system, task], 1);
    StepKeepsInvariant(cfg, run, inputs[1]);
    var s := SyncedForTurn(run, inputs[1]);
    RequestWithoutCuts(s, run.trajectory + inputs[1].batch);
    ReplacesWhenTooLong(s, inputs[1].session, 2, reply);
  }

  lemma RequestWithoutCuts(s: State, trajectory: seq<Message>)
    requires Invariant(s, trajectory, [])
    ensures MessagesOf(s.request) == trajectory
  {
    SourceMessages(s, trajectory, []);
    assert SummariesOf(s.records) == [];
    ViewWithoutRecords(s.source);
  }

  /** A run that takes a protected turn: run turn 2, reported as validated, is compacted at turn 3. */
  lemma ProtectedTurnCanBeTaken(system: Message, task: Message, reply: Reply, render: seq<TurnRange> -> Rendering)
    requires Prompts(system, task)
    ensures TakesProtected(TWO_MESSAGES, RunOf(TWO_MESSAGES, system, task, GapInputs(reply, render)),
                           GapInput(reply, render))
  {
    hide Synced, FinalPlan, Invariant, RunOf, Takes;
    var inputs, input := GapInputs(reply, render), GapInput(reply, render);
    var run := RunOf(TWO_MESSAGES, system, task, inputs);
    RunKeepsInvariant(TWO_MESSAGES, system, task, inputs);
    GapRunCuts(system, task, reply, render);
    StepKeepsInvariant(TWO_MESSAGES, run, input);
    var s, trajectory := SyncedForTurn(run, input), run.trajectory + input.batch;
    CompactionTakesNextTurns(s, trajectory, run.cuts, 1);
    AssistantsOfThree(system, task, Message(Assistant, 4, 1));
    AssistantsOfToolTurn([system, task], 1);
    AssistantsOfToolTurn(run.trajectory, 2);
    RequestStartsWithPrompts(s, trajectory, run.cuts);
    LongRequest(s, trajectory, run.cuts);
    ReplacesWhenTooLong(s, input.session, |run.requests| + 1, reply);
  }

  /** Both prompts and the summary of an earlier compaction are in the request. */
  lemma LongRequest(s: State, trajectory: seq<Message>, cuts: seq<nat>)
    requires Invariant(s, trajectory, cuts) && OpensWithTurn(trajectory) && cuts != []
    ensures |s.request| > 2
  {
    hide Invariant, View;
    CutsOf(s, trajectory, cuts);
    SummariesMatchRecords(s, trajectory, cuts);
    RequestStartsWithPrompts(s, trajectory, cuts);
    SourceItemsFirst(s, trajectory, cuts);
    if |s.request| == 2 {
      assert s.request[..2] == s.request;
      NoReplacementsIn(s.request);
    }
  }

  lemma SourceItemsFirst(s: State, trajectory: seq<Message>, cuts: seq<nat>)
    requires Invariant(s, trajectory, cuts) && |trajectory| >= 2
    requires |s.request| >= 2 && s.request[..2] == s.source[..2]
    ensures s.request[0].SourceItem? && s.request[1].SourceItem?
  {
    assert s.request[..2][0] == s.source[..2][0];
    assert s.request[..2][1] == s.source[..2][1];
    assert Logged(s.log, s.source[0]) && Logged(s.log, s.source[1]);
  }
}
