/** What the audits detect: on any request entries and any log, tampered with or not. */
module AuditExactness {
  import opened Prelude
  import opened Sorting
  import opened Messages
  import opened RetainedHistory
  import opened RequestContext
  import opened Replay
  import opened Verify
  import opened Lineage
  import opened Evolution

  /** The entry an id stands for: the last one of the log that bears it. */
  function Stands(log: seq<Entry>, id: nat): Option<Entry> {
    if log == [] then None
    else if log[|log| - 1].id == id then Some(log[|log| - 1])
    else Stands(log[..|log| - 1], id)
  }

  lemma {:induction false} InsertFound(index: seq<Entry>, e: Entry, id: nat)
    ensures Lookup(Insert(index, e), id) == if e.id == id then Some(e) else Lookup(index, id)
  {
    if index != [] {
      InsertFound(index[1..], e, id);
    }
  }

  /** The replay table resolves every id of every log to the entry it stands for. */
  lemma {:induction false} LookupExactly(log: seq<Entry>, id: nat)
    ensures Lookup(BuildIndex(log), id) == Stands(log, id)
  {
    if log != [] {
      LookupExactly(log[..|log| - 1], id);
      InsertFound(BuildIndex(log[..|log| - 1]), log[|log| - 1], id);
    }
  }

  /** The id stands for an entry that carries a message. */
  predicate Carries(log: seq<Entry>, id: nat) { Stands(log, id).Some? && MessageOf(Stands(log, id).value).Some? }

  // ----- Replay -----

  /** Selected messages can be replayed exactly if every id stands for an entry with a message; they are those
      messages, in order. */
  lemma {:induction false} SelectedExactly(ids: seq<nat>, log: seq<Entry>)
    ensures SelectedMessages(ids, BuildIndex(log)).Done? <==> forall i :: 0 <= i < |ids| ==> Carries(log, ids[i])
    ensures SelectedMessages(ids, BuildIndex(log)).Done? ==>
      var ms := SelectedMessages(ids, BuildIndex(log)).value;
      && |ms| == |ids|
      && forall i :: 0 <= i < |ids| ==>
           Stands(log, ids[i]).Some? && MessageOf(Stands(log, ids[i]).value) == Some(ms[i])
  {
    hide BuildIndex, Lookup, Stands, MessageOf;
    if ids != [] {
      var n := |ids| - 1;
      SelectedExactly(ids[..n], log);
      LookupExactly(log, ids[n]);
      assert forall i :: 0 <= i < n ==> ids[..n][i] == ids[i];
    }
  }

  /** The id stands for an entry with a message and a trajectory index. */
  predicate Indexed(log: seq<Entry>, id: nat) { Carries(log, id) && Stands(log, id).value.sourceIndex.Some? }

  lemma {:induction false} RetainedExactly(ids: seq<nat>, summary: nat, log: seq<Entry>)
    ensures RetainedPairs(ids, summary, BuildIndex(log)).Done? <==>
      forall i :: 0 <= i < |ids| && ids[i] != summary ==> Indexed(log, ids[i])
  {
    hide BuildIndex, Lookup, Stands, MessageOf;
    if ids != [] {
      var n := |ids| - 1;
      RetainedExactly(ids[..n], summary, log);
      LookupExactly(log, ids[n]);
      assert forall i :: 0 <= i < n ==> ids[..n][i] == ids[i];
    }
  }

  lemma {:induction false} SourcesExactly(ids: seq<nat>, indices: seq<nat>, log: seq<Entry>)
    requires |ids| == |indices|
    ensures SourcePairs(ids, indices, BuildIndex(log)).Done? <==> forall i :: 0 <= i < |ids| ==> Carries(log, ids[i])
  {
    hide BuildIndex, Lookup, Stands, MessageOf;
    if ids != [] {
      var n := |ids| - 1;
      SourcesExactly(ids[..n], indices[..n], log);
      LookupExactly(log, ids[n]);
      assert forall i :: 0 <= i < n ==> ids[..n][i] == ids[i];
    }
  }

  /** What undoing the compaction of an entry takes: its summary is there and lists an index for each source, every
      source can be replayed, and every other selected entry also has its trajectory index. */
  ghost predicate Undoable(e: RequestEntry, log: seq<Entry>) {
    && e.summaryEntry.Some? && Stands(log, e.summaryEntry.value).Some?
    && var s := Stands(log, e.summaryEntry.value).value;
    && |SourceEntriesOf(s)| == |SourceIndicesOf(s)|
    && (forall i :: 0 <= i < |SourceEntriesOf(s)| ==> Carries(log, SourceEntriesOf(s)[i]))
    && (forall i :: 0 <= i < |e.selectedEntries| && e.selectedEntries[i] != e.summaryEntry.value ==>
          Indexed(log, e.selectedEntries[i]))
  }

  lemma UndoneExactly(e: RequestEntry, log: seq<Entry>)
    requires e.active
    ensures PreCompaction(e, BuildIndex(log)).Done? <==> Undoable(e, log)
  {
    hide BuildIndex, Lookup, Stands, RetainedPairs, SourcePairs, SortBy, SourceEntriesOf, SourceIndicesOf, Carries,
         Indexed;
    if e.summaryEntry.Some? {
      LookupExactly(log, e.summaryEntry.value);
      RetainedExactly(e.selectedEntries, e.summaryEntry.value, log);
      if Stands(log, e.summaryEntry.value).Some? {
        var s := Stands(log, e.summaryEntry.value).value;
        if |SourceEntriesOf(s)| == |SourceIndicesOf(s)| {
          SourcesExactly(SourceEntriesOf(s), SourceIndicesOf(s), log);
        }
      }
    }
  }

  /** Redoing it takes a summary with a message and sources, and as many indexed entries as messages undone. */
  lemma RedoneExactly(e: RequestEntry, log: seq<Entry>)
    requires e.active
    ensures PostCompaction(e, BuildIndex(log)).Done? <==>
      && Undoable(e, log) && Carries(log, e.summaryEntry.value)
      && SourceIndicesOf(Stands(log, e.summaryEntry.value).value) != []
      && var s := Stands(log, e.summaryEntry.value).value;
      && PreCompaction(e, BuildIndex(log)).Done?
      && |WantedIndices(BuildIndex(log),
                        ToSet(SourceEntriesOf(s)) + (ToSet(e.selectedEntries) - {e.summaryEntry.value}))|
         == |PreCompaction(e, BuildIndex(log)).value|
  {
    hide BuildIndex, Lookup, Stands, SourceEntriesOf, SourceIndicesOf, MessageOf, PreCompaction, WantedIndices, ToSet,
         Undoable;
    UndoneExactly(e, log);
    if e.summaryEntry.Some? {
      LookupExactly(log, e.summaryEntry.value);
      if Stands(log, e.summaryEntry.value).Some? {
        var s := Stands(log, e.summaryEntry.value).value;
        SortByContents(WantedIndices(BuildIndex(log),
                                     ToSet(SourceEntriesOf(s)) + (ToSet(e.selectedEntries) - {e.summaryEntry.value})),
                       Identity);
      }
    }
    UndoableHasSummary(e, log);
  }

  lemma UndoableHasSummary(e: RequestEntry, log: seq<Entry>)
    ensures Undoable(e, log) ==> e.summaryEntry.Some? && Stands(log, e.summaryEntry.value).Some?
  {
  }

  // ----- Verification -----

  /** The named entry is there, is of the kind it should be, and names the record of the turn. */
  predicate Names(log: seq<Entry>, id: Option<nat>, kind: SourceKind, record: Option<nat>) {
    && id.Some? && Stands(log, id.value).Some?
    && Stands(log, id.value).value.kind == kind && RecordOf(Stands(log, id.value).value) == record
  }

  /** Everything a turn with a live summary must name, before anything is replayed. */
  ghost predicate NamesCompaction(e: RequestEntry, log: seq<Entry>) {
    && e.record.Some?
    && Names(log, e.summaryEntry, ReplacementSummary, e.record) && e.summaryEntry.value in e.selectedEntries
    && SourceEntriesOf(Stands(log, e.summaryEntry.value).value) == e.omittedEntries
    && Names(log, e.carriedEntry, CarryForwardState, e.record) && e.carriedEntry.value !in e.selectedEntries
  }

  /** An entry every part of which the log bears out. */
  ghost predicate BorneOut(e: RequestEntry, log: seq<Entry>) {
    var index := BuildIndex(log);
    && (forall i :: 0 <= i < |e.selectedEntries| ==> Carries(log, e.selectedEntries[i]))
    && (forall i :: 0 <= i < |e.omittedEntries| ==> Stands(log, e.omittedEntries[i]).Some?)
    && (|e.selectedEntries| == 0 || |e.selectedEntries| == e.messageCount)
    && (!e.active ==> e.summaryEntry.None? && e.carriedEntry.None? && e.record.None?)
    && (e.active ==>
          && NamesCompaction(e, log)
          && PreCompaction(e, index).Done? && |PreCompaction(e, index).value| == e.itemsBefore
          && PostCompaction(e, index).Done?
          && PostCompaction(e, index) == SelectedMessages(e.selectedEntries, index))
  }

  lemma {:induction false} MissingExactly(ids: seq<nat>, log: seq<Entry>, selected: bool)
    ensures MissingIssues(ids, BuildIndex(log), selected) == []
       <==> forall i :: 0 <= i < |ids| ==> Stands(log, ids[i]).Some?
  {
    hide BuildIndex, Lookup, Stands;
    if ids != [] {
      var n := |ids| - 1;
      MissingExactly(ids[..n], log, selected);
      LookupExactly(log, ids[n]);
      assert forall i :: 0 <= i < n ==> ids[..n][i] == ids[i];
    }
  }

  lemma BasicsExactly(e: RequestEntry, log: seq<Entry>)
    ensures BasicIssues(e, BuildIndex(log)) == [] <==>
      && (forall i :: 0 <= i < |e.selectedEntries| ==> Carries(log, e.selectedEntries[i]))
      && (forall i :: 0 <= i < |e.omittedEntries| ==> Stands(log, e.omittedEntries[i]).Some?)
      && (|e.selectedEntries| == 0 || |e.selectedEntries| == e.messageCount)
  {
    hide BuildIndex, Lookup, Stands, MessageOf, SelectedMessages, MissingIssues;
    MissingExactly(e.selectedEntries, log, true);
    MissingExactly(e.omittedEntries, log, false);
    SelectedExactly(e.selectedEntries, log);
  }

  lemma ActiveExactly(e: RequestEntry, log: seq<Entry>)
    ensures ActiveIssues(e, BuildIndex(log)) == [] <==> NamesCompaction(e, log)
  {
    hide BuildIndex, Lookup, Stands, SourceEntriesOf, RecordOf;
    if e.summaryEntry.Some? {
      LookupExactly(log, e.summaryEntry.value);
    }
    if e.carriedEntry.Some? {
      LookupExactly(log, e.carriedEntry.value);
    }
    SummaryExactly(e, log);
    CarriedExactly(e, log);
    hide SummaryIssues, CarriedIssues;
  }

  lemma SummaryExactly(e: RequestEntry, log: seq<Entry>)
    requires e.summaryEntry.Some?  ==> Lookup(BuildIndex(log), e.summaryEntry.value) == Stands(log, e.summaryEntry.value)
    ensures e.summaryEntry.Some? ==>
      (SummaryIssues(e, BuildIndex(log)) == [] <==>
         Names(log, e.summaryEntry, ReplacementSummary, e.record)
         && SourceEntriesOf(Stands(log, e.summaryEntry.value).value) == e.omittedEntries)
  {
    hide BuildIndex, Lookup, Stands, SourceEntriesOf, RecordOf;
  }

  lemma CarriedExactly(e: RequestEntry, log: seq<Entry>)
    requires e.carriedEntry.Some? ==> Lookup(BuildIndex(log), e.carriedEntry.value) == Stands(log, e.carriedEntry.value)
    ensures e.carriedEntry.Some? ==>
      (CarriedIssues(e, BuildIndex(log)) == [] <==> Names(log, e.carriedEntry, CarryForwardState, e.record))
  {
    hide BuildIndex, Lookup, Stands, RecordOf;
  }

  lemma DeepExactly(e: RequestEntry, index: seq<Entry>)
    requires SelectedMessages(e.selectedEntries, index).Done?
    ensures DeepIssues(e, index) == [] <==>
      && PreCompaction(e, index).Done? && |PreCompaction(e, index).value| == e.itemsBefore
      && PostCompaction(e, index).Done? && PostCompaction(e, index) == SelectedMessages(e.selectedEntries, index)
  {
    hide PreCompaction, PostCompaction, SelectedMessages;
  }

  /** Verification of any entry against any log succeeds exactly if the log bears the entry out: nothing that is
      missing, of the wrong kind, of another record or rebuilt differently goes unseen. */
  lemma ReportExactly(e: RequestEntry, log: seq<Entry>)
    ensures ReportOf(e, BuildIndex(log)).ok <==> BorneOut(e, log)
  {
    hide BasicIssues, ActiveIssues, DeepIssues, PreCompaction, PostCompaction, SelectedMessages, BuildIndex, Stands,
         NamesCompaction, RebuiltCount, RebuiltBefore;
    BasicsExactly(e, log);
    ActiveExactly(e, log);
    SelectedExactly(e.selectedEntries, log);
    if forall i :: 0 <= i < |e.selectedEntries| ==> Carries(log, e.selectedEntries[i]) {
      DeepExactly(e, BuildIndex(log));
    }
  }

  // ----- Lineage -----

  predicate ArtifactAt(log: seq<Entry>, i: nat, turn: nat) {
    i < |log| && log[i].turn == turn && IsCompactionArtifact(log[i])
  }

  ghost predicate NoArtifactIn(log: seq<Entry>, turn: nat) { forall i: nat :: !ArtifactAt(log, i, turn) }

  /** Exactly one compaction artifact is logged for the turn. */
  ghost predicate OneArtifact(log: seq<Entry>, turn: nat) {
    exists i: nat :: ArtifactAt(log, i, turn) && forall j: nat :: ArtifactAt(log, j, turn) ==> j == i
  }

  /** A replacement whose summary, carried state, artifact and sources are all where they should be. */
  ghost predicate SoundLineage(e: RequestEntry, log: seq<Entry>) {
    && Names(log, e.summaryEntry, ReplacementSummary, e.record) && e.summaryEntry.value in e.selectedEntries
    && Names(log, e.carriedEntry, CarryForwardState, e.record) && e.carriedEntry.value !in e.selectedEntries
    && OneArtifact(log, e.turn)
    && forall id :: id in SourceEntriesOf(Stands(log, e.summaryEntry.value).value) ==>
         Stands(log, id).Some? && Stands(log, id).value.kind == SourceMessage
  }

  lemma {:induction false} ArtifactsExactly(log: seq<Entry>, turn: nat)
    ensures |ArtifactEntries(log, turn)| == 0 <==> NoArtifactIn(log, turn)
    ensures |ArtifactEntries(log, turn)| == 1 <==> OneArtifact(log, turn)
  {
    hide NoArtifactIn, OneArtifact;
    if log == [] {
      EmptyLog(turn);
    } else {
      var init, last := log[..|log| - 1], log[|log| - 1];
      ArtifactsExactly(init, turn);
      assert log == init + [last];
      OneMore(init, last, turn);
    }
  }

  lemma EmptyLog(turn: nat)
    ensures NoArtifactIn([], turn) && !OneArtifact([], turn)
  {
  }

  lemma OneMore(init: seq<Entry>, last: Entry, turn: nat)
    ensures var log, artifact := init + [last], last.turn == turn && IsCompactionArtifact(last);
      && (NoArtifactIn(log, turn) <==> NoArtifactIn(init, turn) && !artifact)
      && (OneArtifact(log, turn) <==> if artifact then NoArtifactIn(init, turn) else OneArtifact(init, turn))
  {
    hide IsCompactionArtifact;
    var log, artifact := init + [last], last.turn == turn && IsCompactionArtifact(last);
    forall i: nat ensures ArtifactAt(log, i, turn) <==> ArtifactAt(init, i, turn) || (i == |init| && artifact) {
    }
    hide ArtifactAt;
    if artifact {
      assert ArtifactAt(log, |init|, turn);
    }
    if OneArtifact(init, turn) && !artifact {
      var i: nat :| ArtifactAt(init, i, turn) && forall j: nat :: ArtifactAt(init, j, turn) ==> j == i;
      assert ArtifactAt(log, i, turn);
    }
  }

  lemma {:induction false} SourceKindsExactly(ids: seq<nat>, log: seq<Entry>)
    ensures SourceLineage(ids, BuildIndex(log)) == [] <==>
      forall id :: id in ids ==> Stands(log, id).Some? && Stands(log, id).value.kind == SourceMessage
  {
    hide BuildIndex, Lookup, Stands;
    if ids != [] {
      var init, last := ids[..|ids| - 1], ids[|ids| - 1];
      SourceKindsExactly(init, log);
      LookupExactly(log, last);
      assert forall id :: id in ids <==> id in init || id == last;
    }
  }

  lemma RecordExactly(e: RequestEntry, log: seq<Entry>)
    ensures LineageIssues(e, BuildIndex(log), log) == [] <==> SoundLineage(e, log)
  {
    hide BuildIndex, Lookup, Stands, SourceEntriesOf, RecordOf, ArtifactEntries, OneArtifact, SourceLineage;
    if e.summaryEntry.Some? {
      LookupExactly(log, e.summaryEntry.value);
    }
    if e.carriedEntry.Some? {
      LookupExactly(log, e.carriedEntry.value);
    }
    ArtifactsExactly(log, e.turn);
    SourceKindsExactly(SourcesNamed(Find(BuildIndex(log), e.summaryEntry)), log);
  }

  lemma {:induction false} CleanExactly(entries: seq<RequestEntry>, log: seq<Entry>)
    ensures AllClean(LineageRecords(entries, BuildIndex(log), log)) <==>
      forall e :: e in entries && HasRecord(e) ==> SoundLineage(e, log)
  {
    hide BuildIndex, LineageIssues, SoundLineage;
    if entries != [] {
      var init, last := entries[..|entries| - 1], entries[|entries| - 1];
      CleanExactly(init, log);
      RecordExactly(last, log);
      assert forall e :: e in entries <==> e in init || e == last;
      assert LineageRecords(init, BuildIndex(log), log) + [] == LineageRecords(init, BuildIndex(log), log);
      if HasRecord(last) {
        CleanSnoc(LineageRecords(init, BuildIndex(log), log), LineageRecordOf(last, BuildIndex(log), log));
      }
    }
  }

  lemma CleanSnoc(records: seq<LineageRecord>, r: LineageRecord)
    ensures AllClean(records + [r]) <==> AllClean(records) && r.issues == []
  {
    var longer := records + [r];
    if AllClean(longer) {
      assert longer[|records|] == r;
      forall j | 0 <= j < |records| ensures records[j].issues == [] {
        assert longer[j] == records[j];
      }
    }
  }

  lemma SortedMembers(entries: seq<RequestEntry>)
    ensures forall e :: e in SortBy(entries, TurnKey) <==> e in entries
  {
    SortByContents(entries, TurnKey);
    forall e ensures e in SortBy(entries, TurnKey) <==> e in entries {
      assert e in SortBy(entries, TurnKey) <==> e in multiset(SortBy(entries, TurnKey));
      assert e in entries <==> e in multiset(entries);
    }
  }

  /** The lineage report of any entries and any log is ok exactly if every replacement is sound: a missing or
      mistaken summary, carried state, artifact or source is always reported. */
  lemma LineageExactly(entries: seq<RequestEntry>, log: seq<Entry>)
    ensures LineageReportOf(entries, log).ok <==> forall e :: e in entries && HasRecord(e) ==> SoundLineage(e, log)
  {
    hide SoundLineage, BuildIndex, SortBy, LineageRecords, HasRecord;
    CleanExactly(SortBy(entries, TurnKey), log);
    SortedMembers(entries);
  }

  // ----- Evolution -----

  /** The request a turn started from is the previous request and what was logged since; for the first turn only
      the number of messages is compared. */
  ghost predicate GrowsFrom(previous: Option<RequestEntry>, e: RequestEntry, log: seq<Entry>) {
    var index, payloads := BuildIndex(log), Payloads(AppendedSources(previous, e, log));
    && SelectedMessages(e.selectedEntries, index).Done? && PreCompaction(e, index).Done?
    && (if previous.None? then |PreCompaction(e, index).value| == |payloads|
        else && SelectedMessages(previous.value.selectedEntries, index).Done?
             && PreCompaction(e, index).value
                == SelectedMessages(previous.value.selectedEntries, index).value + payloads)
  }

  lemma CarriesOverExactly(previous: seq<Message>, pre: seq<Message>, payloads: seq<Message>)
    ensures CarryIssues(previous, pre, payloads) == [] <==> pre == previous + payloads
  {
    if CarryIssues(previous, pre, payloads) == [] {
      assert pre == previous + pre[|previous|..];
    }
    if pre == previous + payloads {
      assert pre[|previous|..] == payloads;
    }
  }

  lemma TransitionExactly(previous: Option<RequestEntry>, e: RequestEntry, log: seq<Entry>)
    ensures TransitionOf(previous, e, BuildIndex(log), log).issues == [] <==> GrowsFrom(previous, e, log)
  {
    hide BuildIndex, SelectedMessages, PreCompaction, Payloads, AppendedSources, CarryIssues, SourceIndicesIn, Slice;
    var index, payloads := BuildIndex(log), Payloads(AppendedSources(previous, e, log));
    if previous.Some? && SelectedMessages(previous.value.selectedEntries, index).Done? && PreCompaction(e, index).Done? {
      CarriesOverExactly(SelectedMessages(previous.value.selectedEntries, index).value,
                         PreCompaction(e, index).value, payloads);
    }
  }

  /** What a transition says of itself: its kind, its sizes and entries, and two flags that settle whether it is
      accepted once everything replays; for the first turn the second flag is a remark only. */
  lemma TransitionTells(previous: Option<RequestEntry>, e: RequestEntry, log: seq<Entry>)
    ensures var t, index := TransitionOf(previous, e, BuildIndex(log), log), BuildIndex(log);
      var replays := && SelectedMessages(e.selectedEntries, index).Done? && PreCompaction(e, index).Done?
                     && (previous.Some? ==> SelectedMessages(previous.value.selectedEntries, index).Done?);
      && t.turn == e.turn && (t.previous.Some? <==> previous.Some?)
      && (previous.Some? ==> t.previous == Some(previous.value.turn))
      && (t.kind == InitialSnapshot || t.kind == InitialCompaction <==> previous.None?)
      && (t.kind == InitialCompaction || t.kind == ReplacementCompaction <==> e.active)
      && (t.issues == [] <==> replays && t.prefixOk && (previous.Some? ==> t.suffixOk))
      && (replays ==>
            && t.preCount == |PreCompaction(e, index).value|
            && t.selectedCount == |SelectedMessages(e.selectedEntries, index).value|
            && (previous.None? ==>
                  (t.suffixOk <==> PreCompaction(e, index).value == Payloads(AppendedSources(None, e, log))))
            && (previous.Some? ==>
                  t.previousCount == |SelectedMessages(previous.value.selectedEntries, index).value|))
      && t.appendedEntries == IdsOf(AppendedSources(previous, e, log))
  {
    hide BuildIndex, SelectedMessages, PreCompaction, Payloads, AppendedSources, SourceIndicesIn, Slice;
  }

  function Before(entries: seq<RequestEntry>, n: nat): Option<RequestEntry>
    requires n < |entries|
  {
    if n == 0 then None else Some(entries[n - 1])
  }

  ghost predicate AllGrow(entries: seq<RequestEntry>, log: seq<Entry>) {
    forall n :: 0 <= n < |entries| ==> GrowsFrom(Before(entries, n), entries[n], log)
  }

  lemma GrowSnoc(entries: seq<RequestEntry>, log: seq<Entry>)
    requires entries != []
    ensures var n := |entries| - 1;
      AllGrow(entries, log) <==> AllGrow(entries[..n], log) && GrowsFrom(Before(entries, n), entries[n], log)
  {
    hide GrowsFrom, Before;
    var n := |entries| - 1;
    var init := entries[..n];
    if AllGrow(entries, log) {
      forall m | 0 <= m < n ensures GrowsFrom(Before(init, m), init[m], log) {
        BeforePrefix(entries, m);
      }
    }
    if AllGrow(init, log) && GrowsFrom(Before(entries, n), entries[n], log) {
      forall m | 0 <= m < |entries| ensures GrowsFrom(Before(entries, m), entries[m], log) {
        if m < n {
          BeforePrefix(entries, m);
        }
      }
    }
  }

  lemma BeforePrefix(entries: seq<RequestEntry>, m: nat)
    requires m < |entries| - 1
    ensures Before(entries[..|entries| - 1], m) == Before(entries, m) && entries[..|entries| - 1][m] == entries[m]
  {
  }

  lemma {:induction false} TransitionsExactly(entries: seq<RequestEntry>, log: seq<Entry>)
    ensures AllTransitionsOk(TransitionsOf(entries, BuildIndex(log), log)) <==> AllGrow(entries, log)
  {
    hide BuildIndex, TransitionOf, GrowsFrom, AllGrow, AllTransitionsOk;
    if entries == [] {
      NothingGrows(log);
    } else {
      var n := |entries| - 1;
      TransitionsExactly(entries[..n], log);
      TransitionExactly(Before(entries, n), entries[n], log);
      GrowSnoc(entries, log);
      OkSnoc(TransitionsOf(entries[..n], BuildIndex(log), log),
             TransitionOf(Before(entries, n), entries[n], BuildIndex(log), log));
    }
  }

  lemma NothingGrows(log: seq<Entry>)
    ensures AllGrow([], log) && AllTransitionsOk([])
  {
  }

  lemma OkSnoc(transitions: seq<Transition>, t: Transition)
    ensures AllTransitionsOk(transitions + [t]) <==> AllTransitionsOk(transitions) && t.issues == []
  {
    var longer := transitions + [t];
    if AllTransitionsOk(longer) {
      assert longer[|transitions|] == t;
      forall j | 0 <= j < |transitions| ensures transitions[j].issues == [] {
        assert longer[j] == transitions[j];
      }
    }
  }

  /** The evolution report of any entries and any log is ok exactly if, in turn order, each request grows from the
      one before by exactly the messages logged in between. */
  lemma EvolutionExactly(entries: seq<RequestEntry>, log: seq<Entry>)
    ensures EvolutionReportOf(entries, log).ok <==> AllGrow(SortBy(entries, TurnKey), log)
  {
    hide BuildIndex, SortBy, TransitionsOf, AllGrow, AllTransitionsOk;
    TransitionsExactly(SortBy(entries, TurnKey), log);
  }
}
