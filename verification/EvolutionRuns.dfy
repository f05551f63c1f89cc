/** Which transitions of a run the evolution audit accepts. */
module EvolutionRuns {
  import opened Prelude
  import opened Sorting
  import opened Messages
  import opened TurnRanges
  import opened Planning
  import opened Compaction
  import opened ContextPlans
  import opened RetainedHistory
  import opened History
  import opened RequestContext
  import opened HistoryInvariant
  import opened HistoryRun
  import opened Conservation
  import opened RequestContents
  import opened CompactedTurns
  import opened Replay
  import opened ReplayRuns
  import opened TurnEntries
  import opened Verify
  import opened VerifyRuns
  import opened Lineage
  import opened LineageRuns
  import opened Evolution

  /** `entries` log exactly the messages `ms`. */
  ghost predicate LogsMessages(entries: seq<Entry>, ms: seq<Message>) {
    |entries| == |ms|
    && forall i :: 0 <= i < |ms| ==> entries[i].kind == SourceMessage && MessageOf(entries[i]) == Some(ms[i])
  }

  lemma {:induction false} LoggedPayloads(entries: seq<Entry>, ms: seq<Message>)
    requires LogsMessages(entries, ms)
    ensures SourcesIn(entries) == entries && Payloads(entries) == ms
  {
    if entries != [] {
      var n := |entries| - 1;
      LoggedPayloads(entries[..n], ms[..n]);
      assert entries[..n] + [entries[n]] == entries && ms[..n] + [ms[n]] == ms;
    }
  }

  lemma SyncLogs(s: State, r: State, before: seq<Message>, batch: seq<Message>, turn: nat)
    requires Extends(s, r, before + batch, turn) && |s.source| == |before|
    ensures s.log <= r.log && LogsMessages(r.log[|s.log|..], batch)
  {
    forall i | 0 <= i < |batch|
      ensures r.log[|s.log|..][i].kind == SourceMessage && MessageOf(r.log[|s.log|..][i]) == Some(batch[i])
    {
      assert r.source[|s.source| + i].SourceItem?;
    }
  }

  /** Between two snapshots the log gains exactly the batch of the new turn. */
  lemma AppendedInTurn(cfg: Config, system: Message, task: Message, inputs: seq<TurnInput>, k: nat, log: seq<Entry>)
    requires Prompts(system, task) && WellFormed(inputs) && 1 <= k < |inputs|
    requires WellNumbered(log) && RunOf(cfg, system, task, inputs).state.log <= log
    ensures k < |RunOf(cfg, system, task, inputs).requests|
    ensures var requests := RunOf(cfg, system, task, inputs).requests;
      Payloads(AppendedSources(Some(requests[k - 1]), requests[k], log)) == inputs[k].batch
  {
    hide RunOf, Step, SentItems, Invariant, OmittedItems, Synced, NamesRecord, SourcesIn, Payloads;
    TurnOf(cfg, system, task, inputs, k);
    EntryOfTurn(cfg, system, task, inputs, k);
    EntryOfTurn(cfg, system, task, inputs, k - 1);
    var before := RunOf(cfg, system, task, inputs[..k]);
    var synced := SyncedForTurn(before, inputs[k]);
    SourceSize(before);
    SyncedExtends(before.state, before.trajectory + inputs[k].batch, k);
    SyncLogs(before.state, synced, before.trajectory, inputs[k].batch, k);
    SyncedBeforeStep(cfg, before, inputs[k]);
    assert synced.log <= log;
    assert Slice(log, |before.state.log|, |synced.log|) == synced.log[|before.state.log|..];
    LoggedPayloads(synced.log[|before.state.log|..], inputs[k].batch);
  }

  lemma SyncedBeforeStep(cfg: Config, run: Run, input: TurnInput)
    ensures SyncedForTurn(run, input).log <= Step(cfg, run, input).state.log
  {
    hide FinalPlan, Synced, SnapshotOf, EntryFor, RecordFor;
  }

  /** Before the first turn the log holds exactly the two prompts. */
  lemma InitialSources(cfg: Config, system: Message, task: Message, inputs: seq<TurnInput>, log: seq<Entry>)
    requires Prompts(system, task) && WellFormed(inputs) && inputs != []
    requires WellNumbered(log) && RunOf(cfg, system, task, inputs).state.log <= log
    ensures 0 < |RunOf(cfg, system, task, inputs).requests|
    ensures Payloads(AppendedSources(None, RunOf(cfg, system, task, inputs).requests[0], log)) == [system, task]
  {
    hide Step, SentItems, Invariant, OmittedItems, Synced, NamesRecord, SourcesIn, Payloads;
    TurnOf(cfg, system, task, inputs, 0);
    EntryOfTurn(cfg, system, task, inputs, 0);
    assert inputs[..0] == [];
    var before := RunOf(cfg, system, task, []);
    var synced := SyncedForTurn(before, inputs[0]);
    SyncedExtends(EMPTY, [system, task], 0);
    SyncLogs(EMPTY, before.state, [], [system, task], 0);
    NothingToSync(before, inputs[0]);
    SyncedBeforeStep(cfg, before, inputs[0]);
    assert before.state.log[0..] == before.state.log;
    assert Slice(log, 0, |synced.log|) == synced.log;
    LoggedPayloads(synced.log, [system, task]);
  }

  lemma NothingToSync(run: Run, input: TurnInput)
    requires input.batch == [] && |run.state.source| >= |run.trajectory|
    ensures SyncedForTurn(run, input) == run.state
  {
    assert run.trajectory + input.batch == run.trajectory;
  }

  /** While nothing has been compacted, a turn that does not use the tail window sends the trajectory. */
  lemma PlainTurn(cfg: Config, system: Message, task: Message, inputs: seq<TurnInput>, k: nat)
    requires Prompts(system, task) && WellFormed(inputs) && k < |inputs| && cfg.policy != TailWindow
    requires RunOf(cfg, system, task, inputs[..k + 1]).cuts == []
    ensures k < |RunOf(cfg, system, task, inputs).sent|
    ensures RunOf(cfg, system, task, inputs).sent[k] == RunOf(cfg, system, task, inputs[..k + 1]).trajectory
  {
    hide RunOf, Step, SentItems, Invariant, Describes;
    TurnOf(cfg, system, task, inputs, k);
    EntryOfTurn(cfg, system, task, inputs, k);
    var before, next := RunOf(cfg, system, task, inputs[..k]), RunOf(cfg, system, task, inputs[..k + 1]);
    StepKeepsInvariant(cfg, before, inputs[k]);
    SentIsRequest(cfg, before, inputs[k]);
    RequestWithoutCuts(next.state, next.trajectory);
  }

  /** Replay of an acceptable turn gives the whole trajectory, and nothing was compacted before it. */
  lemma ReplayableTurn(cfg: Config, system: Message, task: Message, inputs: seq<TurnInput>, k: nat, log: seq<Entry>)
    requires Prompts(system, task) && WellFormed(inputs) && k < |inputs| && cfg.policy != TailWindow
    requires WellNumbered(log) && RunOf(cfg, system, task, inputs).state.log <= log
    ensures k < |RunOf(cfg, system, task, inputs).requests|
    ensures var e := RunOf(cfg, system, task, inputs).requests[k];
      && (Replayable(e) <==> RunOf(cfg, system, task, inputs[..k]).cuts == [])
      && (Replayable(e) ==>
            PreCompaction(e, BuildIndex(log)) == Done(RunOf(cfg, system, task, inputs[..k + 1]).trajectory))
      && (!Replayable(e) ==> PreCompaction(e, BuildIndex(log)).Failed?)
  {
    hide RunOf, Step, SentItems, Invariant, OmittedItems, BuildIndex, PreCompaction, PostCompaction;
    TurnOf(cfg, system, task, inputs, k);
    EntryOfTurn(cfg, system, task, inputs, k);
    var before, next := RunOf(cfg, system, task, inputs[..k]), RunOf(cfg, system, task, inputs[..k + 1]);
    StepKeepsInvariant(cfg, before, inputs[k]);
    CutsOf(next.state, next.trajectory, next.cuts);
    CutsOf(before.state, before.trajectory, before.cuts);
    CompactionReplayExactly(cfg, system, task, inputs, k, log);
    if next.cuts == [] {
      PlainTurn(cfg, system, task, inputs, k);
    } else if |next.cuts| > |before.cuts| {
      RecordNumber(next.state, next.trajectory, next.cuts, |before.cuts|);
    }
    StepGrowsCuts(before, next);
  }

  lemma StepGrowsCuts(before: Run, next: Run)
    requires before.cuts <= next.cuts || |before.cuts| <= |next.cuts|
    ensures next.cuts == [] ==> before.cuts == []
  {
  }

  lemma PrefixCarriesOver(previous: seq<Message>, batch: seq<Message>)
    ensures CarryIssues(previous, previous + batch, batch) == []
  {
    assert (previous + batch)[|previous|..] == batch;
  }

  ghost function EntryBefore(run: Run, k: nat): Option<RequestEntry>
    requires k <= |run.requests|
  {
    if k == 0 then None else Some(run.requests[k - 1])
  }

  lemma FirstTransition(cfg: Config, system: Message, task: Message, inputs: seq<TurnInput>, log: seq<Entry>)
    requires Prompts(system, task) && WellFormed(inputs) && inputs != [] && cfg.policy != TailWindow
    requires WellNumbered(log) && RunOf(cfg, system, task, inputs).state.log <= log
    ensures 0 < |RunOf(cfg, system, task, inputs).requests|
    ensures var transition := TransitionOf(None, RunOf(cfg, system, task, inputs).requests[0], BuildIndex(log), log);
      transition.issues == [] && transition.suffixOk
  {
    hide RunOf, BuildIndex, AppendedSources, SelectedMessages, PreCompaction, Payloads, SourceIndicesIn, Slice;
    ReplayRoundTrip(cfg, system, task, inputs, 0, log);
    ReplayableTurn(cfg, system, task, inputs, 0, log);
    InitialSources(cfg, system, task, inputs, log);
    FirstTrajectory(cfg, system, task, inputs);
  }

  lemma FirstTrajectory(cfg: Config, system: Message, task: Message, inputs: seq<TurnInput>)
    requires WellFormed(inputs) && inputs != []
    ensures RunOf(cfg, system, task, inputs[..0]).cuts == []
    ensures RunOf(cfg, system, task, inputs[..1]).trajectory == [system, task]
  {
    hide Synced, FinalPlan, SnapshotOf, Materialised, EntryFor;
    assert inputs[..1] == [inputs[0]] && inputs[..1][..0] == [] && inputs[..0] == [];
    assert RunOf(cfg, system, task, []).trajectory == [system, task];
  }

  lemma TransitionVerdict(previous: RequestEntry, e: RequestEntry, index: seq<Entry>, log: seq<Entry>)
    requires SelectedMessages(e.selectedEntries, index).Done?
    requires SelectedMessages(previous.selectedEntries, index).Done?
    ensures TransitionOf(Some(previous), e, index, log).issues == [] <==>
      && PreCompaction(e, index).Done?
      && CarryIssues(SelectedMessages(previous.selectedEntries, index).value, PreCompaction(e, index).value,
                     Payloads(AppendedSources(Some(previous), e, log))) == []
  {
    hide AppendedSources, SelectedMessages, PreCompaction, Payloads, SourceIndicesIn, Slice, CarryIssues;
  }

  lemma LaterTransition(cfg: Config, system: Message, task: Message, inputs: seq<TurnInput>, k: nat, log: seq<Entry>)
    requires Prompts(system, task) && WellFormed(inputs) && 1 <= k < |inputs| && cfg.policy != TailWindow
    requires WellNumbered(log) && RunOf(cfg, system, task, inputs).state.log <= log
    ensures k < |RunOf(cfg, system, task, inputs).requests|
    ensures var requests := RunOf(cfg, system, task, inputs).requests;
      (TransitionOf(Some(requests[k - 1]), requests[k], BuildIndex(log), log).issues == [] <==>
       RunOf(cfg, system, task, inputs[..k]).cuts == [])
  {
    hide RunOf, BuildIndex, AppendedSources, SelectedMessages, PreCompaction, Payloads, Step, CarryIssues, Invariant,
         TransitionOf, Replayable, WellNumbered, Grows;
    ReplayRoundTrip(cfg, system, task, inputs, k - 1, log);
    ReplayRoundTrip(cfg, system, task, inputs, k, log);
    ReplayableTurn(cfg, system, task, inputs, k, log);
    AppendedInTurn(cfg, system, task, inputs, k, log);
    var requests := RunOf(cfg, system, task, inputs).requests;
    TransitionVerdict(requests[k - 1], requests[k], BuildIndex(log), log);
    TurnOf(cfg, system, task, inputs, k);
    StepKeepsSource(cfg, RunOf(cfg, system, task, inputs[..k]), inputs[k]);
    if RunOf(cfg, system, task, inputs[..k]).cuts == [] {
      PlainTurn(cfg, system, task, inputs, k - 1);
      PrefixCarriesOver(RunOf(cfg, system, task, inputs[..k]).trajectory, inputs[k].batch);
    }
  }

  /** Under every policy but the tail window, the evolution audit accepts the transition into turn `k + 1`
      if and only if nothing was compacted in the turns before it: so every transition up to and including
      the first compacting turn is accepted, and none after it. */
  lemma TransitionOkExactly(cfg: Config, system: Message, task: Message, inputs: seq<TurnInput>, k: nat,
                            log: seq<Entry>)
    requires Prompts(system, task) && WellFormed(inputs) && k < |inputs| && cfg.policy != TailWindow
    requires WellNumbered(log) && RunOf(cfg, system, task, inputs).state.log <= log
    ensures k < |RunOf(cfg, system, task, inputs).requests|
    ensures var run := RunOf(cfg, system, task, inputs);
      (TransitionOf(EntryBefore(run, k), run.requests[k], BuildIndex(log), log).issues == [] <==>
       RunOf(cfg, system, task, inputs[..k]).cuts == [])
  {
    hide RunOf, BuildIndex, TransitionOf;
    if k == 0 {
      FirstTransition(cfg, system, task, inputs, log);
      FirstTrajectory(cfg, system, task, inputs);
    } else {
      LaterTransition(cfg, system, task, inputs, k, log);
    }
  }

  lemma {:induction false} TransitionAt(entries: seq<RequestEntry>, index: seq<Entry>, log: seq<Entry>, j: nat)
    requires j < |entries|
    ensures |TransitionsOf(entries, index, log)| == |entries|
    ensures TransitionsOf(entries, index, log)[j]
         == TransitionOf(if j == 0 then None else Some(entries[j - 1]), entries[j], index, log)
  {
    hide TransitionOf;
    var n := |entries| - 1;
    if j < n {
      TransitionAt(entries[..n], index, log, j);
    } else if n > 0 {
      TransitionAt(entries[..n], index, log, 0);
    }
  }

  /** The audit of a whole run succeeds if and only if no turn before the last compacted anything. */
  lemma EvolutionOkExactly(cfg: Config, system: Message, task: Message, inputs: seq<TurnInput>, log: seq<Entry>)
    requires Prompts(system, task) && WellFormed(inputs) && inputs != [] && cfg.policy != TailWindow
    requires WellNumbered(log) && RunOf(cfg, system, task, inputs).state.log <= log
    ensures EvolutionReportOf(RunOf(cfg, system, task, inputs).requests, log).ok
       <==> RunOf(cfg, system, task, inputs[..|inputs| - 1]).cuts == []
  {
    hide RunOf, BuildIndex, TransitionOf, TransitionsOf, RunInvariant, SortBy, WellNumbered;
    var run, n := RunOf(cfg, system, task, inputs), |inputs| - 1;
    RunKeepsInvariant(cfg, system, task, inputs);
    TurnsInOrder(cfg, system, task, inputs);
    SortBySorted(run.requests, TurnKey);
    TransitionAt(run.requests, BuildIndex(log), log, 0);
    var transitions := TransitionsOf(run.requests, BuildIndex(log), log);
    forall k | 0 <= k < |inputs|
      ensures transitions[k].issues == [] <==> RunOf(cfg, system, task, inputs[..k]).cuts == []
    {
      TransitionOkExactly(cfg, system, task, inputs, k, log);
      TransitionAt(run.requests, BuildIndex(log), log, k);
      assert transitions[k] == TransitionOf(EntryBefore(run, k), run.requests[k], BuildIndex(log), log);
    }
    assert transitions[n].issues == [] <==> RunOf(cfg, system, task, inputs[..n]).cuts == [];
    if RunOf(cfg, system, task, inputs[..n]).cuts == [] {
      forall k | 0 <= k < |inputs| ensures transitions[k].issues == [] {
        CutsGrowOver(cfg, system, task, inputs, k, n);
      }
    }
  }

  lemma CutsGrowOver(cfg: Config, system: Message, task: Message, inputs: seq<TurnInput>, k: nat, n: nat)
    requires Prompts(system, task) && WellFormed(inputs) && k <= n <= |inputs|
    requires RunOf(cfg, system, task, inputs[..n]).cuts == []
    ensures RunOf(cfg, system, task, inputs[..k]).cuts == []
  {
    hide RunOf;
    RunGrows(cfg, system, task, inputs, n);
    RunGrows(cfg, system, task, inputs[..n], k);
    assert inputs[..n][..k] == inputs[..k];
  }

  /** A run the auditors disagree on: its third turn makes a second compaction, so the lineage report is ok,
      while that turn can neither be replayed nor verified and the evolution audit fails. */
  lemma SecondCompactionIsRejected(system: Message, task: Message, reply: Reply, render: seq<TurnRange> -> Rendering)
    requires Prompts(system, task)
    ensures var run := RunOf(TWO_MESSAGES, system, task, GapInputs(reply, render) + [GapInput(reply, render)]);
      var log := run.state.log;
      && |run.requests| == 3
      && LineageReportOf(run.requests, log).ok
      && PreCompaction(run.requests[2], BuildIndex(log)).Failed?
      && !ReportOf(run.requests[2], BuildIndex(log)).ok
      && !EvolutionReportOf(run.requests, log).ok
  {
    hide RunOf, BuildIndex, PreCompaction, ReportOf, EvolutionReportOf, LineageReportOf, Replayable, RunInvariant;
    var first, last := GapInputs(reply, render), GapInput(reply, render);
    var inputs := first + [last];
    assert inputs[..2] == first && WellFormed(inputs);
    var run := RunOf(TWO_MESSAGES, system, task, inputs);
    GapRunCuts(system, task, reply, render);
    RunKeepsInvariant(TWO_MESSAGES, system, task, inputs);
    LogNumbered(run);
    LineageIsClean(TWO_MESSAGES, system, task, inputs, run.state.log);
    ReplayableTurn(TWO_MESSAGES, system, task, inputs, 2, run.state.log);
    VerifyExactly(TWO_MESSAGES, system, task, inputs, 2, run.state.log);
    EvolutionOkExactly(TWO_MESSAGES, system, task, inputs, run.state.log);
  }

  lemma LogNumbered(run: Run)
    requires RunInvariant(run)
    ensures WellNumbered(run.state.log) && ClosedBy(run.state.log, run.state.log)
  {
    SourceSize(run);
  }
}
