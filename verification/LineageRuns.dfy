/** Every replacement record of every run has a clean lineage. */
module LineageRuns {
  import opened Prelude
  import opened Sorting
  import opened Messages
  import opened ContextPlans
  import opened RetainedHistory
  import opened History
  import opened RequestContext
  import opened HistoryView
  import opened HistoryInvariant
  import opened HistoryRun
  import opened Conservation
  import opened RequestContents
  import opened ReplayRuns
  import opened FirstCompaction
  import opened TurnEntries
  import opened VerifyRuns
  import opened Lineage

  /** `log` continues the log of a run by trajectory messages only, as the final synchronisation does. */
  ghost predicate ClosedBy(log: seq<Entry>, closed: seq<Entry>) {
    && WellNumbered(closed) && log <= closed
    && forall i :: |log| <= i < |closed| ==> closed[i].kind == SourceMessage
  }

  /** The runner's final synchronisation, after the loop, closes the log in this sense. */
  lemma FinalSyncCloses(cfg: Config, system: Message, task: Message, inputs: seq<TurnInput>, rest: seq<Message>,
                        turn: nat)
    requires Prompts(system, task) && WellFormed(inputs) && (rest != [] ==> rest[0].role.Assistant?)
    ensures var run := RunOf(cfg, system, task, inputs);
      ClosedBy(run.state.log, Synced(run.state, run.trajectory + rest, turn).log)
  {
    hide RunOf, Synced, Invariant;
    var run := RunOf(cfg, system, task, inputs);
    RunKeepsInvariant(cfg, system, task, inputs);
    SyncKeepsInvariant(run.state, run.trajectory, rest, run.cuts, turn);
    var final := Synced(run.state, run.trajectory + rest, turn);
    NumberingOf(final, run.trajectory + rest, run.cuts);
    SyncAddsSources(run.state, final, run.trajectory + rest, turn);
  }

  lemma {:induction false} ArtifactsConcat(a: seq<Entry>, b: seq<Entry>, turn: nat)
    ensures ArtifactEntries(a + b, turn) == ArtifactEntries(a, turn) + ArtifactEntries(b, turn)
  {
    if b == [] {
      assert a + b == a;
    } else {
      assert (a + b)[..|a + b| - 1] == a + b[..|b| - 1];
      ArtifactsConcat(a, b[..|b| - 1], turn);
    }
  }

  lemma {:induction false} NoArtifactsAmongSources(log: seq<Entry>, turn: nat)
    requires forall i :: 0 <= i < |log| ==> log[i].kind == SourceMessage
    ensures ArtifactEntries(log, turn) == []
  {
    if log != [] {
      NoArtifactsAmongSources(log[..|log| - 1], turn);
    }
  }

  lemma SourcesAddNoArtifacts(log: seq<Entry>, longer: seq<Entry>, turn: nat)
    requires log <= longer && forall i :: |log| <= i < |longer| ==> longer[i].kind == SourceMessage
    ensures ArtifactEntries(longer, turn) == ArtifactEntries(log, turn)
  {
    var added := longer[|log|..];
    assert longer == log + added;
    ArtifactsConcat(log, added, turn);
    NoArtifactsAmongSources(added, turn);
  }

  lemma ArtifactOfReplacement(r: Record, e: Entry, turn: nat)
    requires !IsCompactionArtifact(e)
    ensures ArtifactEntries([SummaryEntryFor(r), CarriedEntryFor(r), ArtifactEntryFor(r), e], turn)
         == if r.turn == turn then [ArtifactEntryFor(r)] else []
    ensures ArtifactEntries([e], turn) == []
  {
    var four := [SummaryEntryFor(r), CarriedEntryFor(r), ArtifactEntryFor(r), e];
    assert four[..3][..2][..1][..0] == [];
    assert ArtifactEntries([], turn) == [];
    assert four[..3][..2][..1] == four[..1] && four[..3][..2] == four[..2];
    assert ArtifactEntries(four[..1], turn) == [];
    assert ArtifactEntries(four[..2], turn) == [];
    assert [e][..0] == [];
  }

  /** The log of a state after materialising a plan, and the artifacts in it. */
  lemma MaterialisedArtifacts(s: State, plan: Plan, turn: nat, t: nat)
    ensures ArtifactEntries(Materialised(s, plan, turn).log, t)
         == ArtifactEntries(s.log, t)
            + (if Replaces(plan) && t == turn
               then [ArtifactEntryFor(RecordFor(s, plan.artifact.value, plan.summary.value, turn))] else [])
  {
    hide RecordFor, ArtifactEntries;
    var after := AfterReplacement(s, plan, turn);
    var e := Entry(|after.log| + 1, turn, HistoryControl, None, ControlMeta(ContextSelectionPlan));
    if Replaces(plan) {
      var r := RecordFor(s, plan.artifact.value, plan.summary.value, turn);
      var added := [SummaryEntryFor(r), CarriedEntryFor(r), ArtifactEntryFor(r), e];
      assert Materialised(s, plan, turn).log == s.log + added;
      ArtifactsConcat(s.log, added, t);
      ArtifactOfReplacement(r, e, t);
      RecordTurn(s, plan, turn);
    } else {
      ArtifactsConcat(s.log, [e], t);
      ArtifactOfControl(e, t);
    }
  }

  lemma RecordTurn(s: State, plan: Plan, turn: nat)
    requires Replaces(plan)
    ensures RecordFor(s, plan.artifact.value, plan.summary.value, turn).turn == turn
  {
  }

  lemma ArtifactOfControl(e: Entry, turn: nat)
    requires !IsCompactionArtifact(e)
    ensures ArtifactEntries([e], turn) == []
  {
    assert [e][..0] == [];
  }

  lemma StepArtifacts(cfg: Config, run: Run, input: TurnInput, t: nat)
    requires |run.state.source| <= |run.trajectory| && |run.cuts| == |run.state.records|
    ensures var next := Step(cfg, run, input);
      && |next.state.records| == |next.cuts|
      && ArtifactEntries(next.state.log, t)
           == ArtifactEntries(run.state.log, t)
              + (if |next.cuts| > |run.cuts| && t == |run.requests| + 1
                 then [ArtifactEntryFor(next.state.records[|run.cuts|])] else [])
  {
    hide FinalPlan, Synced, SnapshotOf, EntryFor, ArtifactEntries, RecordFor;
    var s := SyncedForTurn(run, input);
    SyncedExtends(run.state, run.trajectory + input.batch, |run.requests|);
    SyncedRecords(run.state, run.trajectory + input.batch, |run.requests|);
    SyncAddsSources(run.state, s, run.trajectory + input.batch, |run.requests|);
    SourcesAddNoArtifacts(run.state.log, s.log, t);
    MaterialisedArtifacts(s, PlanOfTurn(cfg, run, input), |run.requests| + 1, t);
  }

  lemma SyncAddsSources(s: State, r: State, trajectory: seq<Message>, turn: nat)
    requires Extends(s, r, trajectory, turn)
    ensures s.log <= r.log && forall i :: |s.log| <= i < |r.log| ==> r.log[i].kind == SourceMessage
  {
    forall i | |s.log| <= i < |r.log| ensures r.log[i].kind == SourceMessage {
      assert r.source[i - |s.log| + |s.source|].SourceItem?;
    }
  }

  /** The artifact entry of the record that turn `t` of the run made, if it made one. */
  ghost function ArtifactsExpected(cfg: Config, system: Message, task: Message, inputs: seq<TurnInput>, t: nat)
    : seq<Entry>
  {
    if !(1 <= t <= |inputs|) then [] else
    var before, next := RunOf(cfg, system, task, inputs[..t - 1]), RunOf(cfg, system, task, inputs[..t]);
    if |before.cuts| < |next.state.records| then [ArtifactEntryFor(next.state.records[|before.cuts|])] else []
  }

  /** The log of a run holds exactly one compaction artifact for each turn that compacted, and none for any
      other turn. */
  lemma {:induction false} ArtifactsOfRun(cfg: Config, system: Message, task: Message, inputs: seq<TurnInput>, t: nat)
    requires Prompts(system, task) && WellFormed(inputs)
    ensures ArtifactEntries(RunOf(cfg, system, task, inputs).state.log, t)
         == ArtifactsExpected(cfg, system, task, inputs, t)
  {
    hide Step, Begin, ArtifactEntries, Invariant, ArtifactEntryFor;
    if inputs == [] {
      BeginArtifacts(system, task, t);
    } else {
      var n := |inputs| - 1;
      var init := inputs[..n];
      ArtifactsOfRun(cfg, system, task, init, t);
      RunKeepsInvariant(cfg, system, task, init);
      var run := RunOf(cfg, system, task, init);
      SourceSize(run);
      CutsOf(run.state, run.trajectory, run.cuts);
      StepArtifacts(cfg, run, inputs[n], t);
      assert inputs[..|inputs|] == inputs;
      if 1 <= t <= n {
        assert init[..t] == inputs[..t] && init[..t - 1] == inputs[..t - 1];
      }
    }
  }

  lemma BeginArtifacts(system: Message, task: Message, t: nat)
    ensures ArtifactEntries(Begin(system, task).state.log, t) == []
  {
    SyncedExtends(EMPTY, [system, task], 0);
    SyncAddsSources(EMPTY, Synced(EMPTY, [system, task], 0), [system, task], 0);
    NoArtifactsAmongSources(Begin(system, task).state.log, t);
  }

  lemma {:induction false} SourcesClean(items: seq<Item>, log: seq<Entry>)
    requires WellNumbered(log) && AllLogged(items, log)
    requires forall p :: 0 <= p < |items| ==> items[p].SourceItem?
    ensures SourceLineage(EntriesOf(items), BuildIndex(log)) == []
  {
    hide Lookup, BuildIndex, WellNumbered;
    if items != [] {
      var n := |items| - 1;
      SourcesClean(items[..n], log);
      FetchFromLog(log, items[n]);
      assert Logged(log, items[n]);
      assert EntriesOf(items)[..n] == EntriesOf(items[..n]);
    }
  }

  lemma SegmentClean(s: State, trajectory: seq<Message>, cuts: seq<nat>, lo: nat, hi: nat, log: seq<Entry>)
    requires Invariant(s, trajectory, cuts) && WellNumbered(log) && s.log <= log
    ensures SourceLineage(EntriesOf(Segment(s.source, lo, hi)), BuildIndex(log)) == []
  {
    hide Invariant, BuildIndex, Logged;
    var segment := Segment(s.source, lo, hi);
    RequestLogged(s, trajectory, cuts);
    LoggedLater(s.source, s.log, log);
    SegmentMembers(s.source, lo, hi);
    SourceOrderOf(s, trajectory, cuts);
    forall p | 0 <= p < |segment| ensures segment[p].SourceItem? && Logged(log, segment[p]) {
      assert segment[p] in s.source;
    }
    SourcesClean(segment, log);
  }

  /** The report on record `r` names its entries and sources and finds nothing wrong. */
  ghost predicate Reports(report: LineageRecord, r: Record) {
    && report.record == r.id && report.turn == r.turn
    && report.summary == Some(r.summaryEntry) && report.carried == Some(r.carriedEntry)
    && report.artifact == Some(r.artifactEntry)
    && report.sources == r.sourceEntries && report.indices == r.sourceIndices
    && report.issues == []
  }

  /** A turn that compacts leaves a record whose lineage is clean. */
  lemma StepLineage(e: RequestEntry, before: Run, synced: State, next: Run, log: seq<Entry>)
    requires RunInvariant(before) && RunInvariant(next) && Describes(e, before, synced, next, next.state.request)
    requires WellNumbered(log) && next.state.log <= log && HasRecord(e)
    requires |before.cuts| < |next.state.records|
    requires ArtifactEntries(log, e.turn) == [ArtifactEntryFor(next.state.records[|before.cuts|])]
    ensures Reports(LineageRecordOf(e, BuildIndex(log), log), next.state.records[|before.cuts|])
  {
    hide Invariant, RecordBacked, Lookup, BuildIndex, OmittedItems, ArtifactEntries, SourceLineage;
    var s, j := next.state, |before.cuts|;
    CutsOf(s, next.trajectory, next.cuts);
    RecordOfState(s, next.trajectory, next.cuts, j);
    SummaryFound(s, log, s.records[j], j + 1, CutBefore(next.cuts, j), next.cuts[j]);
    CarriedStandsApart(s, next.trajectory, next.cuts, j);
    SummarySelected(s, next.trajectory, next.cuts, j);
    SegmentClean(s, next.trajectory, next.cuts, CutBefore(next.cuts, j), next.cuts[j], log);
  }

  /** The lineage of turn `k + 1`, judged against the closed log of the whole run. */
  lemma TurnLineage(cfg: Config, system: Message, task: Message, inputs: seq<TurnInput>, k: nat, log: seq<Entry>)
    requires Prompts(system, task) && WellFormed(inputs) && k < |inputs|
    requires ClosedBy(RunOf(cfg, system, task, inputs).state.log, log)
    ensures k < |RunOf(cfg, system, task, inputs).requests|
    ensures var e := RunOf(cfg, system, task, inputs).requests[k];
      var before, next := RunOf(cfg, system, task, inputs[..k]).state, RunOf(cfg, system, task, inputs[..k + 1]).state;
      && before.records <= next.records && e.turn == k + 1
      && if HasRecord(e) then
           && |next.records| == |before.records| + 1
           && Reports(LineageRecordOf(e, BuildIndex(log), log), next.records[|before.records|])
         else next.records == before.records
  {
    hide RunOf, Step, SentItems, Invariant, OmittedItems, BuildIndex, LineageRecordOf, Synced, ArtifactEntries, Reports;
    TurnOf(cfg, system, task, inputs, k);
    EntryOfTurn(cfg, system, task, inputs, k);
    var run, before := RunOf(cfg, system, task, inputs), RunOf(cfg, system, task, inputs[..k]);
    var next := RunOf(cfg, system, task, inputs[..k + 1]);
    assert next == Step(cfg, before, inputs[k]);
    StepKeepsInvariant(cfg, before, inputs[k]);
    SourceSize(before);
    StepGrows(cfg, before, inputs[k]);
    CutsOf(before.state, before.trajectory, before.cuts);
    if HasRecord(run.requests[k]) {
      SentWhenCut(cfg, before, inputs[k]);
      ArtifactsOfRun(cfg, system, task, inputs, k + 1);
      SourcesAddNoArtifacts(run.state.log, log, k + 1);
      StepLineage(run.requests[k], before, SyncedForTurn(before, inputs[k]), next, log);
    }
  }

  ghost predicate ReportsAll(reports: seq<LineageRecord>, records: seq<Record>) {
    |reports| == |records| && forall j :: 0 <= j < |records| ==> Reports(reports[j], records[j])
  }

  lemma {:induction false} LineageOfPrefix(cfg: Config, system: Message, task: Message, inputs: seq<TurnInput>, k: nat,
                                           log: seq<Entry>)
    requires Prompts(system, task) && WellFormed(inputs) && k <= |inputs|
    requires ClosedBy(RunOf(cfg, system, task, inputs).state.log, log)
    ensures k <= |RunOf(cfg, system, task, inputs).requests|
    ensures ReportsAll(LineageRecords(RunOf(cfg, system, task, inputs).requests[..k], BuildIndex(log), log),
                       RunOf(cfg, system, task, inputs[..k]).state.records)
  {
    hide RunOf, BuildIndex, LineageRecordOf, Reports, HasRecord, ClosedBy, RunInvariant;
    var requests := RunOf(cfg, system, task, inputs).requests;
    RunKeepsInvariant(cfg, system, task, inputs);
    if k == 0 {
      assert inputs[..k] == [];
      StartsWithoutRecords(cfg, system, task);
    } else {
      LineageOfPrefix(cfg, system, task, inputs, k - 1, log);
      TurnLineage(cfg, system, task, inputs, k - 1, log);
      assert requests[..k][..k - 1] == requests[..k - 1];
    }
  }

  lemma StartsWithoutRecords(cfg: Config, system: Message, task: Message)
    ensures RunOf(cfg, system, task, []).state.records == []
  {
    SyncedRecords(EMPTY, [system, task], 0);
  }

  lemma {:induction false} TurnsInOrder(cfg: Config, system: Message, task: Message, inputs: seq<TurnInput>)
    requires Prompts(system, task) && WellFormed(inputs)
    ensures |RunOf(cfg, system, task, inputs).requests| == |inputs|
    ensures forall k :: 0 <= k < |inputs| ==> RunOf(cfg, system, task, inputs).requests[k].turn == k + 1
  {
    hide RunOf, SentItems, Describes, RunInvariant;
    RunKeepsInvariant(cfg, system, task, inputs);
    forall k | 0 <= k < |inputs| ensures RunOf(cfg, system, task, inputs).requests[k].turn == k + 1 {
      RequestOfTurn(cfg, system, task, inputs, k);
    }
  }

  lemma SortedReport(requests: seq<RequestEntry>, log: seq<Entry>, records: seq<Record>)
    requires SortBy(requests, TurnKey) == requests
    requires ReportsAll(LineageRecords(requests, BuildIndex(log), log), records)
    ensures LineageReportOf(requests, log).ok && ReportsAll(LineageReportOf(requests, log).records, records)
  {
    hide LineageRecords, BuildIndex, SortBy;
  }

  lemma AlreadySorted(cfg: Config, system: Message, task: Message, inputs: seq<TurnInput>)
    requires Prompts(system, task) && WellFormed(inputs)
    ensures var requests := RunOf(cfg, system, task, inputs).requests; SortBy(requests, TurnKey) == requests
  {
    hide RunOf, SortBy, WellFormed;
    TurnsInOrder(cfg, system, task, inputs);
    SortBySorted(RunOf(cfg, system, task, inputs).requests, TurnKey);
  }

  /** For every run with any number of turns and compactions the lineage report is ok, and it lists every
      replacement record once, in order, with its summary, carried state, artifact and sources. */
  lemma LineageIsClean(cfg: Config, system: Message, task: Message, inputs: seq<TurnInput>, log: seq<Entry>)
    requires Prompts(system, task) && WellFormed(inputs)
    requires ClosedBy(RunOf(cfg, system, task, inputs).state.log, log)
    ensures var run := RunOf(cfg, system, task, inputs);
      && LineageReportOf(run.requests, log).ok
      && ReportsAll(LineageReportOf(run.requests, log).records, run.state.records)
  {
    hide RunOf, BuildIndex, ClosedBy, LineageRecords, LineageReportOf, SortBy, ReportsAll, WellFormed;
    var run := RunOf(cfg, system, task, inputs);
    AlreadySorted(cfg, system, task, inputs);
    LineageOfPrefix(cfg, system, task, inputs, |inputs|, log);
    assert inputs[..|inputs|] == inputs;
    TurnsInOrder(cfg, system, task, inputs);
    assert run.requests[..|inputs|] == run.requests;
    SortedReport(run.requests, log, run.state.records);
  }
}
