/** What the consistency check says of the runs the manager writes. */
module VerifyRuns {
  import opened Prelude
  import opened Messages
  import opened RetainedHistory
  import opened History
  import opened RequestContext
  import opened HistoryView
  import opened HistoryInvariant
  import opened HistoryRun
  import opened Conservation
  import opened RequestContents
  import opened CompactedTurns
  import opened Replay
  import opened ReplayRuns
  import opened FirstCompaction
  import opened TurnEntries
  import opened Verify

  lemma {:induction false} NothingMissing(items: seq<Item>, log: seq<Entry>, selected: bool)
    requires WellNumbered(log) && AllLogged(items, log)
    ensures MissingIssues(EntriesOf(items), BuildIndex(log), selected) == []
  {
    hide Lookup, BuildIndex, WellNumbered;
    if items != [] {
      var n := |items| - 1;
      NothingMissing(items[..n], log, selected);
      FetchFromLog(log, items[n]);
      assert EntriesOf(items)[..n] == EntriesOf(items[..n]);
    }
  }

  lemma {:induction false} OmittedMembers(source: seq<Item>, selected: seq<nat>)
    ensures forall x :: x in OmittedItems(source, selected) ==> x in source
  {
    if source != [] {
      OmittedMembers(source[..|source| - 1], selected);
    }
  }

  lemma {:induction false} OmittedIsSegment(source: seq<Item>, n: nat, selected: seq<nat>, last: nat)
    requires SourceOrder(source) && n <= |source|
    requires forall i: nat :: i < |source| ==> (i in selected <==> i in VisibleSet(MessagesOf(source), last))
    ensures OmittedItems(source[..n], selected) == Segment(source[..n], 0, last)
  {
    if n > 0 {
      OmittedIsSegment(source, n - 1, selected, last);
      assert source[..n][..n - 1] == source[..n - 1];
      TurnAtItem(source, n - 1);
    }
  }

  /** What a request omits are exactly the turns compacted so far. */
  lemma OmittedAreCompacted(s: State, trajectory: seq<Message>, cuts: seq<nat>)
    requires Invariant(s, trajectory, cuts)
    ensures OmittedItems(s.source, IndicesOf(s.request)) == Segment(s.source, 0, LastCut(cuts))
  {
    hide View, RecordsBacked, VisibleSet;
    SourceMessages(s, trajectory, cuts);
    RequestIndices(s, trajectory, cuts);
    IndicesInMembers(|trajectory|, VisibleSet(trajectory, LastCut(cuts)));
    OmittedIsSegment(s.source, |s.source|, IndicesOf(s.request), LastCut(cuts));
    assert s.source[..|s.source|] == s.source;
  }

  lemma BasicsHold(e: RequestEntry, items: seq<Item>, omitted: seq<Item>, log: seq<Entry>)
    requires WellNumbered(log) && AllLogged(items, log) && AllLogged(omitted, log)
    requires e.selectedEntries == EntriesOf(items) && e.omittedEntries == EntriesOf(omitted)
    requires e.messageCount == |items|
    ensures BasicIssues(e, BuildIndex(log)) == [] && RebuiltCount(e, BuildIndex(log)) == |items|
  {
    hide BuildIndex, AllLogged, SelectedMessages;
    NothingMissing(items, log, true);
    NothingMissing(omitted, log, false);
    SelectedReplays(items, log);
  }

  lemma CarriedStandsApart(s: State, trajectory: seq<Message>, cuts: seq<nat>, j: nat)
    requires Invariant(s, trajectory, cuts) && j < |cuts|
    ensures |s.records| == |cuts| && s.records[j].carriedEntry !in EntriesOf(s.request)
  {
    hide Invariant;
    RecordOfState(s, trajectory, cuts, j);
    RequestLogged(s, trajectory, cuts);
    forall p | 0 <= p < |s.request| ensures s.request[p].entry != s.records[j].carriedEntry {
      assert Logged(s.log, s.request[p]);
    }
  }

  lemma SummarySelected(s: State, trajectory: seq<Message>, cuts: seq<nat>, j: nat)
    requires Invariant(s, trajectory, cuts) && j < |cuts|
    ensures |s.records| == |cuts| && s.records[j].summaryEntry in EntriesOf(s.request)
  {
    var p := SummaryPosition(s, trajectory, cuts, j);
    assert EntriesOf(s.request)[p] == s.records[j].summaryEntry;
  }

  /** The first compaction passes every check on its summary and its carried-forward state. */
  lemma FirstCompactionChecks(s: State, trajectory: seq<Message>, cuts: seq<nat>, e: RequestEntry, log: seq<Entry>)
    requires Invariant(s, trajectory, cuts) && |cuts| == 1 && |s.records| == 1
    requires WellNumbered(log) && s.log <= log
    requires var r := s.records[0];
      e.record == Some(r.id) && e.summaryEntry == Some(r.summaryEntry) && e.carriedEntry == Some(r.carriedEntry)
    requires e.selectedEntries == EntriesOf(s.request)
    requires e.omittedEntries == EntriesOf(OmittedItems(s.source, IndicesOf(s.request)))
    ensures ActiveIssues(e, BuildIndex(log)) == []
  {
    hide Invariant, RecordBacked, Lookup, BuildIndex, OmittedItems;
    RecordOfState(s, trajectory, cuts, 0);
    SummaryFound(s, log, s.records[0], 1, CutBefore(cuts, 0), cuts[0]);
    OmittedAreCompacted(s, trajectory, cuts);
    CarriedStandsApart(s, trajectory, cuts, 0);
    SummarySelected(s, trajectory, cuts, 0);
  }

  lemma FirstCompactionVerifies(e: RequestEntry, before: Run, synced: State, next: Run, log: seq<Entry>)
    requires Invariant(next.state, next.trajectory, next.cuts) && |next.cuts| == 1 && before.cuts == []
    requires Describes(e, before, synced, next, next.state.request)
    requires |synced.request| == |next.trajectory|
    requires WellNumbered(log) && next.state.log <= log && AllLogged(next.state.request, log)
    ensures ActiveIssues(e, BuildIndex(log)) == [] && DeepIssues(e, BuildIndex(log)) == []
  {
    hide Invariant, BuildIndex, AllLogged, PreCompaction, PostCompaction, OmittedItems, ActiveIssues, SelectedMessages;
    var s := next.state;
    CutsOf(s, next.trajectory, next.cuts);
    FirstCompactionChecks(s, next.trajectory, next.cuts, e, log);
    FirstCompactionInverts(s, next.trajectory, next.cuts, e, log);
    FirstCompactionRebuilds(s, next.trajectory, next.cuts, e, log);
    SelectedReplays(s.request, log);
  }

  lemma OmittedLogged(s: State, trajectory: seq<Message>, cuts: seq<nat>, selected: seq<nat>)
    requires Invariant(s, trajectory, cuts)
    ensures AllLogged(OmittedItems(s.source, selected), s.log)
  {
    hide Invariant, Logged;
    RequestLogged(s, trajectory, cuts);
    OmittedMembers(s.source, selected);
    forall p | 0 <= p < |OmittedItems(s.source, selected)|
      ensures Logged(s.log, OmittedItems(s.source, selected)[p])
    {
      assert OmittedItems(s.source, selected)[p] in s.source;
    }
  }

  lemma VerifyStep(e: RequestEntry, before: Run, synced: State, next: Run, items: seq<Item>, log: seq<Entry>)
    requires RunInvariant(before) && RunInvariant(next) && Describes(e, before, synced, next, items)
    requires next.cuts != [] ==> items == next.state.request
    requires before.cuts == [] ==> |synced.request| == |next.trajectory| || next.cuts == []
    requires WellNumbered(log) && next.state.log <= log && AllLogged(items, log)
    ensures ReportOf(e, BuildIndex(log)).ok <==> Replayable(e)
    ensures ReportOf(e, BuildIndex(log)).rebuilt == e.messageCount
    ensures e.active && Replayable(e) ==> ReportOf(e, BuildIndex(log)).rebuiltBefore == e.itemsBefore
  {
    hide Invariant, BuildIndex, AllLogged, PreCompaction, PostCompaction, OmittedItems, ActiveIssues, BasicIssues,
         RebuiltCount;
    var s := next.state;
    ReplayOfStep(e, before, synced, next, items, log);
    OmittedLogged(s, next.trajectory, next.cuts, IndicesOf(items));
    LoggedLater(OmittedItems(s.source, IndicesOf(items)), s.log, log);
    BasicsHold(e, items, OmittedItems(s.source, IndicesOf(items)), log);
    if e.active && Replayable(e) {
      CutsOf(s, next.trajectory, next.cuts);
      RecordNumber(s, next.trajectory, next.cuts, |before.cuts|);
      FirstCompactionVerifies(e, before, synced, next, log);
    }
  }

  /** The consistency check accepts a turn of a run, exactly: its request entry verifies against the final
      log (or any continuation) if and only if no summary is live or the turn made the first compaction. In
      both cases the reported message counts are the recorded ones. */
  lemma VerifyExactly(cfg: Config, system: Message, task: Message, inputs: seq<TurnInput>, k: nat, log: seq<Entry>)
    requires Prompts(system, task) && WellFormed(inputs) && k < |inputs|
    requires WellNumbered(log) && RunOf(cfg, system, task, inputs).state.log <= log
    ensures var run := RunOf(cfg, system, task, inputs);
      && k < |run.requests|
      && var e := run.requests[k];
         var report := ReportOf(e, BuildIndex(log));
      && (report.ok <==> Replayable(e))
      && report.rebuilt == e.messageCount
      && (e.active && Replayable(e) ==> report.rebuiltBefore == e.itemsBefore)
  {
    hide RunOf, Step, SentItems, RunInvariant, Describes, BuildIndex, ReportOf, Synced;
    TurnOf(cfg, system, task, inputs, k);
    EntryOfTurn(cfg, system, task, inputs, k);
    var before, next := RunOf(cfg, system, task, inputs[..k]), RunOf(cfg, system, task, inputs[..k + 1]);
    assert next == Step(cfg, before, inputs[k]);
    StepKeepsInvariant(cfg, before, inputs[k]);
    StepKeepsSource(cfg, before, inputs[k]);
    var items, synced := SentItems(cfg, before, inputs[k]), SyncedForTurn(before, inputs[k]);
    SentLogged(cfg, before, inputs[k]);
    LoggedLater(items, next.state.log, log);
    if next.cuts != [] {
      SentWhenCut(cfg, before, inputs[k]);
    }
    if before.cuts == [] {
      RequestWithoutCuts(synced, next.trajectory);
    }
    VerifyStep(RunOf(cfg, system, task, inputs).requests[k], before, synced, next, items, log);
  }
}
