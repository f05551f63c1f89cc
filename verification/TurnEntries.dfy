/** What the request entry of each turn says, and for which turns the compaction can be replayed. */
module TurnEntries {
  import opened Prelude
  import opened Messages
  import opened Planning
  import opened ContextPlans
  import opened RetainedHistory
  import opened History
  import opened RequestContext
  import opened HistoryView
  import opened HistoryInvariant
  import opened HistoryRun
  import opened Conservation
  import opened RequestContents
  import opened CompactedTurns
  import opened Replay
  import opened ReplayRuns
  import opened FirstCompaction

  /** What a request entry says of a compaction made in its own turn, if one was. */
  ghost predicate NamesRecord(e: RequestEntry, before: Run, next: Run) {
    if |next.cuts| == |before.cuts| then
      e.record == None && e.summaryEntry == None && e.carriedEntry == None && next.state.records == before.state.records
    else
      && |next.cuts| == |before.cuts| + 1 == |next.state.records|
      && var r := next.state.records[|before.cuts|];
         && r.turn == e.turn && e.record == Some(r.id)
         && e.summaryEntry == Some(r.summaryEntry) && e.carriedEntry == Some(r.carriedEntry)
  }

  /** Entry `e` describes the turn that takes `before` to `next` and sends `items`. */
  ghost predicate Describes(e: RequestEntry, before: Run, synced: State, next: Run, items: seq<Item>) {
    && e.id == e.turn == |next.requests|
    && e.selectedEntries == EntriesOf(items) && e.sourceIndices == IndicesOf(items)
    && e.omittedEntries == EntriesOf(OmittedItems(next.state.source, IndicesOf(items)))
    && e.messageCount == e.itemsAfter == |items|
    && e.selectionEntry == |next.state.log|
    && e.itemsBefore == |synced.request|
    && e.retainedBefore == |synced.log| && e.retainedAfter == |next.state.log|
    && (e.active <==> next.cuts != [])
    && NamesRecord(e, before, next)
  }

  lemma ReplacementsFound(items: seq<Item>)
    ensures HasReplacement(items) <==> Replacements(items) != []
  {
    ReplacementMembers(items);
    if Replacements(items) != [] {
      assert Replacements(items)[0] in items;
    }
  }

  lemma StepNames(cfg: Config, run: Run, input: TurnInput)
    requires |run.cuts| == |run.state.records|
    ensures var next := Step(cfg, run, input);
      && |next.requests| == |run.requests| + 1
      && var e := next.requests[|run.requests|];
      && NamesRecord(e, run, next)
      && (next.cuts == run.cuts || next.cuts == run.cuts + [LastTaken(cfg, run, input)])
      && next.state.records[..|run.cuts|] == run.state.records && |next.state.records| == |next.cuts|
      && (|next.cuts| > |run.cuts| ==> |next.state.log| == |SyncedForTurn(run, input).log| + 4)
      && (|next.cuts| == |run.cuts| ==> |next.state.log| == |SyncedForTurn(run, input).log| + 1
                                        && next.state.request == SyncedForTurn(run, input).request)
  {
    hide FinalPlan, Synced, SnapshotSelection;
    SyncedRecords(run.state, run.trajectory + input.batch, |run.requests|);
  }

  lemma {:induction false} SyncedRecords(s: State, trajectory: seq<Message>, turn: nat)
    ensures Synced(s, trajectory, turn).records == s.records
    decreases |trajectory| - |s.source|
  {
    if |s.source| < |trajectory| {
      SyncedRecords(AppendSource(s, trajectory[|s.source|], turn), trajectory, turn);
    }
  }

  lemma StepCounts(cfg: Config, run: Run, input: TurnInput)
    ensures var next, items, s := Step(cfg, run, input), SentItems(cfg, run, input), SyncedForTurn(run, input);
      && |next.requests| == |run.requests| + 1
      && var e := next.requests[|run.requests|];
      && e.id == e.turn == |next.requests| && e.selectedEntries == EntriesOf(items)
      && e.sourceIndices == IndicesOf(items) && e.itemsAfter == |items| && e.selectionEntry == |next.state.log|
      && e.omittedEntries == EntriesOf(OmittedItems(next.state.source, IndicesOf(items)))
      && e.messageCount == |items| && e.itemsBefore == |s.request|
      && e.retainedBefore == |s.log| && e.retainedAfter == |next.state.log|
      && (e.active <==> HasReplacement(items))
  {
    hide FinalPlan, Synced, SnapshotSelection, HasReplacement, OmittedItems;
  }

  lemma EntryDescribes(cfg: Config, run: Run, input: TurnInput)
    requires RunInvariant(run) && (input.batch != [] ==> input.batch[0].role.Assistant?)
    requires cfg.policy == TailWindow ==> run.cuts == []
    ensures var next := Step(cfg, run, input);
      && |next.requests| == |run.requests| + 1
      && Describes(next.requests[|run.requests|], run, SyncedForTurn(run, input), next, SentItems(cfg, run, input))
  {
    hide Invariant, SentItems, Step, Synced, NamesRecord, HasReplacement, OmittedItems;
    StepKeepsInvariant(cfg, run, input);
    var next := Step(cfg, run, input);
    CutsOf(run.state, run.trajectory, run.cuts);
    CutsOf(next.state, next.trajectory, next.cuts);
    StepNames(cfg, run, input);
    StepCounts(cfg, run, input);
    SentSummaries(cfg, run, input);
    ReplacementsFound(SentItems(cfg, run, input));
  }

  /** The entry of turn `k + 1` of a finished run describes that turn. */
  lemma EntryOfTurn(cfg: Config, system: Message, task: Message, inputs: seq<TurnInput>, k: nat)
    requires Prompts(system, task) && WellFormed(inputs) && k < |inputs|
    ensures var run, before := RunOf(cfg, system, task, inputs), RunOf(cfg, system, task, inputs[..k]);
      && k < |run.requests| && k < |run.sent|
      && Describes(run.requests[k], before, SyncedForTurn(before, inputs[k]), RunOf(cfg, system, task, inputs[..k + 1]),
                   SentItems(cfg, before, inputs[k]))
      && run.sent[k] == MessagesOf(SentItems(cfg, before, inputs[k]))
      && |before.requests| == k
  {
    hide RunOf, Step, SentItems, RunInvariant, Describes, SnapshotOf, EntryFor;
    TurnOf(cfg, system, task, inputs, k);
    RequestOfTurn(cfg, system, task, inputs, k);
    var before := RunOf(cfg, system, task, inputs[..k]);
    EntryDescribes(cfg, before, inputs[k]);
    assert RunOf(cfg, system, task, inputs[..k + 1]).requests[k] == RunOf(cfg, system, task, inputs).requests[k];
  }

  /** What a request entry takes over from the turn's plan. */
  ghost predicate TellsPlan(e: RequestEntry, plan: Plan, s: State, next: Run, items: seq<Item>) {
    && e.policy == plan.policy && e.modelUsed == plan.modelUsed && e.failure == plan.failure
    && e.selection.included == IndicesOf(items)
    && e.selection.omittedCount == Max(|s.source| - |IndicesOf(items)|, 0)
    && e.selection.applied == plan.selection.applied && e.selection.reason == plan.selection.reason
    && e.selection.compactedCount == plan.selection.compactedCount && e.selection.policy == plan.policy
    && next.state.log != [] && next.state.log[|next.state.log| - 1].meta == ControlMeta(ContextSelectionPlan)
    && (e.record.Some? <==> Replaces(plan))
  }

  /** What the record of a compacting turn takes over from the plan, and the log entries that say so. */
  ghost predicate RecordTellsPlan(e: RequestEntry, plan: Plan, next: Run) {
    Replaces(plan) ==>
      && next.state.records != [] && |next.state.log| >= 4
      && var r, a, n := next.state.records[|next.state.records| - 1], plan.artifact.value, |next.state.log|;
      && r.reason == a.reason && r.carried == a.carried && r.slot == a.turn && r.rendered == plan.summary.value
      && e.summaryEntry == Some(n - 3) && e.carriedEntry == Some(n - 2)
      && next.state.log[n - 4].meta == SummaryMeta(r.id, r.sourceEntries, r.sourceIndices, a.turn, plan.summary.value)
      && next.state.log[n - 3].meta == CarryMeta(r.id, a.carried)
      && next.state.log[n - 2].meta == ControlMeta(CompactionArtifact)
  }

  lemma EntryTellsPlan(cfg: Config, run: Run, input: TurnInput)
    ensures var next, plan := Step(cfg, run, input), PlanOfTurn(cfg, run, input);
      && |next.requests| == |run.requests| + 1
      && TellsPlan(next.requests[|run.requests|], plan, SyncedForTurn(run, input), next, SentItems(cfg, run, input))
      && RecordTellsPlan(next.requests[|run.requests|], plan, next)
  {
    hide PlanOfTurn, SyncedForTurn, OmittedItems, Replaced, HasReplacement, IndicesOf, EntriesOf, Tokens, RecordTellsPlan;
    PolicyOfPlan(cfg, run, input);
    StepTellsRecord(cfg, run, input);
  }

  lemma PolicyOfPlan(cfg: Config, run: Run, input: TurnInput)
    ensures PlanOfTurn(cfg, run, input).selection.policy == PlanOfTurn(cfg, run, input).policy
  {
    hide SyncedForTurn, FinalPlan;
    ModelUsedExactly(MessagesOf(SyncedForTurn(run, input).request), cfg.policy, cfg.limits, input.session,
                     |run.requests| + 1, input.reply);
  }

  lemma StepTellsRecord(cfg: Config, run: Run, input: TurnInput)
    ensures var next, plan := Step(cfg, run, input), PlanOfTurn(cfg, run, input);
      && |next.requests| == |run.requests| + 1
      && RecordTellsPlan(next.requests[|run.requests|], plan, next)
  {
    hide PlanOfTurn, SyncedForTurn, OmittedItems, Replaced, HasReplacement, IndicesOf, EntriesOf, Tokens;
  }

  /** Which of three situations a turn is in: no summary is live, it makes the first compaction of the run,
      or an earlier summary is live. The entry alone tells them apart. */
  ghost predicate Replayable(e: RequestEntry) { !e.active || e.record == Some(1) }

  /** Why the other turns cannot be replayed: one that shows a summary and makes none names no summary to
      undo, and one that makes a later compaction meets the run's first summary among its messages. */
  function ReplayFault(e: RequestEntry, first: Record): ReplayError {
    if e.record.None? then MissingSummaryId else NoTrajectoryIndex(first.summaryEntry)
  }

  /** What replay makes of an entry `e` of the step to `next`. */
  lemma ReplayOfStep(e: RequestEntry, before: Run, synced: State, next: Run, items: seq<Item>, log: seq<Entry>)
    requires RunInvariant(before) && RunInvariant(next) && Describes(e, before, synced, next, items)
    requires next.cuts != [] ==> items == next.state.request
    requires WellNumbered(log) && next.state.log <= log && AllLogged(items, log)
    ensures !e.active ==> PreCompaction(e, BuildIndex(log)) == Done(MessagesOf(items))
    ensures !e.active ==> PostCompaction(e, BuildIndex(log)) == Done(MessagesOf(items))
    ensures e.active && e.record == Some(1) ==> PreCompaction(e, BuildIndex(log)) == Done(next.trajectory)
    ensures e.active && e.record == Some(1) ==> PostCompaction(e, BuildIndex(log)) == Done(MessagesOf(items))
    ensures !Replayable(e) ==>
      next.state.records != [] && var failed := Failed(ReplayFault(e, next.state.records[0]));
      PreCompaction(e, BuildIndex(log)) == failed == PostCompaction(e, BuildIndex(log))
  {
    hide Invariant, BuildIndex, OmittedItems, AllLogged, PreCompaction, PostCompaction, SelectedMessages;
    CutsOf(next.state, next.trajectory, next.cuts);
    if !e.active {
      SelectedReplays(items, log);
      InactiveReplay(e, BuildIndex(log));
    } else if |next.cuts| == |before.cuts| {
      UnnamedSummary(e, BuildIndex(log));
    } else {
      RecordNumber(next.state, next.trajectory, next.cuts, |before.cuts|);
      if before.cuts == [] {
        FirstCompactionInverts(next.state, next.trajectory, next.cuts, e, log);
        FirstCompactionRebuilds(next.state, next.trajectory, next.cuts, e, log);
      } else {
        LaterCompactionFails(next.state, next.trajectory, next.cuts, e, log);
      }
    }
  }

  lemma InactiveReplay(e: RequestEntry, index: seq<Entry>)
    requires !e.active
    ensures PreCompaction(e, index) == SelectedMessages(e.selectedEntries, index) == PostCompaction(e, index)
  {
  }

  lemma RecordNumber(s: State, trajectory: seq<Message>, cuts: seq<nat>, j: nat)
    requires Invariant(s, trajectory, cuts) && j < |cuts|
    ensures |s.records| == |cuts| && s.records[j].id == j + 1
  {
    hide Invariant;
    RecordOfState(s, trajectory, cuts, j);
  }

  lemma SentWhenCut(cfg: Config, run: Run, input: TurnInput)
    requires cfg.policy == TailWindow ==> run.cuts == []
    requires Step(cfg, run, input).cuts != []
    ensures SentItems(cfg, run, input) == Step(cfg, run, input).state.request
  {
    hide Step, SentItems;
    if cfg.policy == TailWindow {
      TailKeepsNoRecords(cfg, run, input);
    } else {
      SentIsRequest(cfg, run, input);
    }
  }

  /** Replay of the compaction of any turn, exactly: it succeeds if and only if no summary is live or the
      turn made the run's first compaction. Then pre-compaction replay gives the request history the turn
      started from, and post-compaction replay the messages it sent. */
  lemma CompactionReplayExactly(cfg: Config, system: Message, task: Message, inputs: seq<TurnInput>, k: nat,
                                log: seq<Entry>)
    requires Prompts(system, task) && WellFormed(inputs) && k < |inputs|
    requires WellNumbered(log) && RunOf(cfg, system, task, inputs).state.log <= log
    ensures var run := RunOf(cfg, system, task, inputs);
      && k < |run.requests| && k < |run.sent|
      && var e, index := run.requests[k], BuildIndex(log);
      && (PreCompaction(e, index).Done? <==> Replayable(e))
      && (PostCompaction(e, index).Done? <==> Replayable(e))
      && (!Replayable(e) ==>
            && run.state.records != []
            && PreCompaction(e, index) == Failed(ReplayFault(e, run.state.records[0])) == PostCompaction(e, index))
      && (Replayable(e) ==> PostCompaction(e, index) == Done(run.sent[k]))
      && (!e.active ==> PreCompaction(e, index) == Done(run.sent[k]))
      && (e.active && Replayable(e) ==>
            PreCompaction(e, index) == Done(RunOf(cfg, system, task, inputs[..k + 1]).trajectory))
  {
    hide RunOf, Step, SentItems, RunInvariant, Describes, BuildIndex, PreCompaction, PostCompaction;
    TurnOf(cfg, system, task, inputs, k);
    EntryOfTurn(cfg, system, task, inputs, k);
    var before, next := RunOf(cfg, system, task, inputs[..k]), RunOf(cfg, system, task, inputs[..k + 1]);
    assert next == Step(cfg, before, inputs[k]);
    StepKeepsInvariant(cfg, before, inputs[k]);
    var items := SentItems(cfg, before, inputs[k]);
    SentLogged(cfg, before, inputs[k]);
    LoggedLater(items, next.state.log, log);
    if next.cuts != [] {
      SentWhenCut(cfg, before, inputs[k]);
    }
    var e := RunOf(cfg, system, task, inputs).requests[k];
    ReplayOfStep(e, before, SyncedForTurn(before, inputs[k]), next, items, log);
  }
}
