/** What every step of the request history keeps: the log backs every item and record, and the request is
    the closed-form view of the trajectory. */
module HistoryInvariant {
  import opened Prelude
  import opened Messages
  import opened Planning
  import opened RetainedHistory
  import opened History
  import opened HistoryView

  /** The log entry an item points at replays to the item's message. */
  ghost predicate Logged(log: seq<Entry>, item: Item) {
    && 1 <= item.entry <= |log|
    && MessageOf(log[item.entry - 1]) == Some(item.message)
    && match item
       case SourceItem(i, _, _) =>
         log[item.entry - 1].kind == SourceMessage && log[item.entry - 1].sourceIndex == Some(i)
       case ReplacementItem(_, _, _) =>
         log[item.entry - 1].kind == ReplacementSummary && log[item.entry - 1].sourceIndex == None
  }

  ghost predicate SourceBacked(source: seq<Item>, trajectory: seq<Message>, log: seq<Entry>) {
    && |source| == |trajectory|
    && Ascending(EntriesOf(source))
    && forall i :: 0 <= i < |source| ==>
         source[i].SourceItem? && source[i].index == i && source[i].message == trajectory[i] && Logged(log, source[i])
  }

  /** Record `j` covers the run turns between its cuts, and its three log entries are in place. */
  ghost predicate RecordBacked(source: seq<Item>, log: seq<Entry>, r: Record, id: nat, lo: nat, hi: nat) {
    && r.id == id
    && r.rendered.role == System
    && r.sourceEntries == EntriesOf(Segment(source, lo, hi))
    && r.sourceIndices == IndicesOf(Segment(source, lo, hi))
    && r.sourceIndices != []
    && 1 <= r.summaryEntry && r.carriedEntry == r.summaryEntry + 1 && r.artifactEntry == r.summaryEntry + 2 <= |log|
    && log[r.summaryEntry - 1] == SummaryEntryFor(r)
    && log[r.carriedEntry - 1] == CarriedEntryFor(r)
    && log[r.artifactEntry - 1] == ArtifactEntryFor(r)
  }

  function SummariesOf(records: seq<Record>): (items: seq<Item>)
    ensures |items| == |records| && forall j :: 0 <= j < |items| ==> items[j] == SummaryItem(records[j])
  {
    seq(|records|, j requires 0 <= j < |records| => SummaryItem(records[j]))
  }

  ghost predicate RecordsBacked(s: State, cuts: seq<nat>) {
    && |cuts| == |s.records|
    && forall j :: 0 <= j < |cuts| ==>
         RecordBacked(s.source, s.log, s.records[j], j + 1, CutBefore(cuts, j), cuts[j])
  }

  ghost predicate Invariant(s: State, trajectory: seq<Message>, cuts: seq<nat>) {
    && WellNumbered(s.log)
    && SourceBacked(s.source, trajectory, s.log)
    && RecordsBacked(s, cuts)
    && Cuts(cuts) && LastCut(cuts) <= Assistants(trajectory)
    && s.request == View(s.source, cuts, SummariesOf(s.records))
  }

  lemma SourceMessages(s: State, trajectory: seq<Message>, cuts: seq<nat>)
    requires Invariant(s, trajectory, cuts)
    ensures MessagesOf(s.source) == trajectory
    ensures AllSystem(SummariesOf(s.records)) && AllReplacements(SummariesOf(s.records)) && SourceOrder(s.source)
  {
  }

  /** What the runner adds to the trajectory in one turn: an ASSISTANT message, its TOOL results, and
      perhaps one USER repair message. */
  ghost predicate TurnBatch(batch: seq<Message>) {
    && batch != [] && batch[0].role.Assistant?
    && forall i :: 1 <= i < |batch| ==> batch[i].role.Tool? || (batch[i].role.User? && i == |batch| - 1)
  }

  /** What synchronising does to each part of the state. */
  ghost predicate Extends(s: State, r: State, trajectory: seq<Message>, turn: nat) {
    && |s.source| <= |r.source| == |trajectory|
    && r.source[..|s.source|] == s.source
    && r.request == s.request + r.source[|s.source|..]
    && r.records == s.records
    && |r.log| - |s.log| == |r.source| - |s.source|
    && r.log[..|s.log|] == s.log
    && forall i :: |s.source| <= i < |r.source| ==>
         var id := |s.log| + 1 + i - |s.source|;
         && r.source[i] == SourceItem(i, trajectory[i], id)
         && r.log[id - 1] == Entry(id, turn, SourceMessage, Some(i), MessageMeta(trajectory[i]))
  }

  lemma ExtendsStep(s: State, next: State, r: State, trajectory: seq<Message>, turn: nat)
    requires |s.source| < |trajectory| && next == AppendSource(s, trajectory[|s.source|], turn)
    requires Extends(next, r, trajectory, turn)
    ensures Extends(s, r, trajectory, turn)
  {
    var n := |s.source|;
    assert r.source[..n] == next.source[..n] == s.source && r.source[n] == next.source[n];
    assert r.log[..|s.log|] == next.log[..|s.log|] == s.log && r.log[|s.log|] == next.log[|s.log|];
    assert r.source[n..] == [r.source[n]] + r.source[|next.source|..];
    forall i | n <= i < |r.source|
      ensures var id := |s.log| + 1 + i - n;
        && r.source[i] == SourceItem(i, trajectory[i], id)
        && r.log[id - 1] == Entry(id, turn, SourceMessage, Some(i), MessageMeta(trajectory[i]))
    {
      if i > n {
        assert r.source[i] == SourceItem(i, trajectory[i], |next.log| + 1 + i - |next.source|);
      }
    }
  }

  lemma {:induction false} SyncedExtends(s: State, trajectory: seq<Message>, turn: nat)
    requires |s.source| <= |trajectory|
    ensures Extends(s, Synced(s, trajectory, turn), trajectory, turn)
    decreases |trajectory| - |s.source|
  {
    if |s.source| < |trajectory| {
      var next := AppendSource(s, trajectory[|s.source|], turn);
      SyncedExtends(next, trajectory, turn);
      ExtendsStep(s, next, Synced(next, trajectory, turn), trajectory, turn);
    } else {
      assert s.request + s.source[|s.source|..] == s.request;
    }
  }

  lemma ViewUnfolds(source: seq<Item>, cuts: seq<nat>, summaries: seq<Item>)
    requires |cuts| == |summaries| && source != []
    ensures var n := |source| - 1;
      View(source, cuts, summaries)
        == ViewStep(View(source[..n], cuts, summaries), source[n], Assistants(MessagesOf(source)), cuts, summaries)
  {
    hide ViewStep, Assistants, MessagesOf;
  }

  lemma ViewSnoc(source: seq<Item>, item: Item, cuts: seq<nat>, summaries: seq<Item>)
    requires |cuts| == |summaries|
    ensures View(source + [item], cuts, summaries)
         == ViewStep(View(source, cuts, summaries), item,
                     Assistants(MessagesOf(source)) + (if item.message.role.Assistant? then 1 else 0), cuts, summaries)
  {
    hide View, ViewStep, Assistants, MessagesOf;
    var longer := source + [item];
    assert longer[..|longer| - 1] == source;
    MessagesSnoc(source, item);
    ViewUnfolds(longer, cuts, summaries);
  }

  /** Nothing that arrives after a new ASSISTANT message belongs to a compacted turn. */
  lemma {:induction false} ViewExtends(source: seq<Item>, added: seq<Item>, cuts: seq<nat>, summaries: seq<Item>)
    requires |cuts| == |summaries| && LastCut(cuts) <= Assistants(MessagesOf(source))
    requires added != [] ==> added[0].message.role.Assistant?
    ensures View(source + added, cuts, summaries) == View(source, cuts, summaries) + added
    ensures added != [] ==> Assistants(MessagesOf(source + added)) > LastCut(cuts)
  {
    hide View, LastCut, Assistants, MessagesOf;
    if added == [] {
      assert source + added == source;
    } else {
      var init, last := added[..|added| - 1], added[|added| - 1];
      ViewExtends(source, init, cuts, summaries);
      assert source + added == (source + init) + [last] && added == init + [last];
      MessagesSnoc(source + init, last);
      ViewSnoc(source + init, last, cuts, summaries);
      if init == [] {
        assert source + init == source;
      }
    }
  }

  lemma {:induction false} SegmentExtends(source: seq<Item>, added: seq<Item>, lo: nat, hi: nat)
    requires hi <= Assistants(MessagesOf(source))
    requires added != [] ==> added[0].message.role.Assistant?
    ensures Segment(source + added, lo, hi) == Segment(source, lo, hi)
    ensures added != [] ==> Assistants(MessagesOf(source + added)) > hi
  {
    hide Segment, Assistants, MessagesOf;
    if added == [] {
      assert source + added == source;
    } else {
      var init, last := added[..|added| - 1], added[|added| - 1];
      SegmentExtends(source, init, lo, hi);
      assert source + added == (source + init) + [last];
      MessagesSnoc(source + init, last);
      SegmentSnoc(source + init, last, lo, hi);
      if init == [] {
        assert source + init == source;
      }
    }
  }

  lemma CutsBelowLast(cuts: seq<nat>, j: nat)
    requires Cuts(cuts) && j < |cuts|
    ensures CutBefore(cuts, j) < cuts[j] <= LastCut(cuts)
  {
    if j > 0 {
      assert cuts[..j][j - 1] == cuts[j - 1] < cuts[j];
    }
  }

  lemma LoggedPersists(log: seq<Entry>, longer: seq<Entry>, item: Item)
    requires Logged(log, item) && log <= longer
    ensures Logged(longer, item)
  {
    assert longer[item.entry - 1] == log[item.entry - 1];
  }

  lemma SyncKeepsOrder(s: State, r: State, before: seq<Message>, trajectory: seq<Message>, turn: nat)
    requires SourceBacked(s.source, before, s.log) && Extends(s, r, trajectory, turn)
    ensures Ascending(EntriesOf(r.source))
  {
    var oldIds, ids := EntriesOf(s.source), EntriesOf(r.source);
    forall a, b | 0 <= a < b < |ids| ensures ids[a] < ids[b] {
      if b < |s.source| {
        assert r.source[..|s.source|][a] == s.source[a] && r.source[..|s.source|][b] == s.source[b];
        assert oldIds[a] < oldIds[b];
      } else if a < |s.source| {
        assert r.source[..|s.source|][a] == s.source[a];
        assert Logged(s.log, s.source[a]);
      }
    }
  }

  lemma SyncKeepsSource(s: State, r: State, before: seq<Message>, trajectory: seq<Message>, turn: nat)
    requires WellNumbered(s.log) && SourceBacked(s.source, before, s.log)
    requires before <= trajectory && Extends(s, r, trajectory, turn)
    ensures WellNumbered(r.log) && SourceBacked(r.source, trajectory, r.log)
  {
    forall i | 0 <= i < |r.log| ensures r.log[i].id == i + 1 {
      if i < |s.log| {
        assert r.log[i] == r.log[..|s.log|][i];
      } else {
        assert r.source[i - |s.log| + |s.source|].SourceItem?;
      }
    }
    SyncKeepsOrder(s, r, before, trajectory, turn);
    forall i | 0 <= i < |r.source|
      ensures r.source[i].SourceItem? && r.source[i].index == i && r.source[i].message == trajectory[i]
      ensures Logged(r.log, r.source[i])
    {
      if i < |s.source| {
        assert r.source[i] == r.source[..|s.source|][i];
        LoggedPersists(s.log, r.log, s.source[i]);
      }
    }
  }

  lemma RecordPersists(source: seq<Item>, added: seq<Item>, log: seq<Entry>, longer: seq<Entry>, r: Record, id: nat,
                       lo: nat, hi: nat)
    requires RecordBacked(source, log, r, id, lo, hi) && log <= longer
    requires hi <= Assistants(MessagesOf(source))
    requires added != [] ==> added[0].message.role.Assistant?
    ensures RecordBacked(source + added, longer, r, id, lo, hi)
  {
    SegmentExtends(source, added, lo, hi);
    assert longer[r.summaryEntry - 1] == log[r.summaryEntry - 1];
    assert longer[r.carriedEntry - 1] == log[r.carriedEntry - 1];
    assert longer[r.artifactEntry - 1] == log[r.artifactEntry - 1];
  }

  lemma RecordsPersist(s: State, r: State, added: seq<Item>, cuts: seq<nat>)
    requires RecordsBacked(s, cuts) && Cuts(cuts) && LastCut(cuts) <= Assistants(MessagesOf(s.source))
    requires r.records == s.records && r.source == s.source + added && s.log <= r.log
    requires added != [] ==> added[0].message.role.Assistant?
    ensures RecordsBacked(r, cuts)
  {
    forall j | 0 <= j < |cuts|
      ensures RecordBacked(r.source, r.log, r.records[j], j + 1, CutBefore(cuts, j), cuts[j])
    {
      CutsBelowLast(cuts, j);
      RecordPersists(s.source, added, s.log, r.log, s.records[j], j + 1, CutBefore(cuts, j), cuts[j]);
    }
  }

  lemma {:induction false} AssistantsOfPrefix(before: seq<Message>, trajectory: seq<Message>)
    requires before <= trajectory
    ensures Assistants(before) <= Assistants(trajectory)
  {
    AssistantsMonotone(trajectory, |before|, |trajectory|);
    assert trajectory[..|before|] == before && trajectory[..|trajectory|] == trajectory;
  }

  /** Synchronising one turn's messages keeps the invariant. */
  lemma SyncKeepsInvariant(s: State, trajectory: seq<Message>, batch: seq<Message>, cuts: seq<nat>, turn: nat)
    requires Invariant(s, trajectory, cuts) && (batch != [] ==> batch[0].role.Assistant?)
    ensures Invariant(Synced(s, trajectory + batch, turn), trajectory + batch, cuts)
    ensures Extends(s, Synced(s, trajectory + batch, turn), trajectory + batch, turn)
  {
    hide RecordsBacked, Synced, View, SourceBacked, WellNumbered, Assistants;
    var r := Synced(s, trajectory + batch, turn);
    SourceMessages(s, trajectory, cuts);
    assert |s.source| == |trajectory|;
    SyncedExtends(s, trajectory + batch, turn);
    SyncKeepsSource(s, r, trajectory, trajectory + batch, turn);
    var added := r.source[|s.source|..];
    assert r.source == s.source + added;
    assert added != [] ==> added[0].message == batch[0];
    RecordsPersist(s, r, added, cuts);
    ViewExtends(s.source, added, cuts, SummariesOf(s.records));
    AssistantsOfPrefix(trajectory, trajectory + batch);
  }

  /** A log entry of no interest to the views. */
  lemma ControlKeepsInvariant(s: State, trajectory: seq<Message>, cuts: seq<nat>, e: Entry)
    requires Invariant(s, trajectory, cuts) && e.id == |s.log| + 1
    ensures Invariant(s.(log := s.log + [e]), trajectory, cuts)
  {
    hide RecordsBacked, View;
    var r := s.(log := s.log + [e]);
    SourceMessages(s, trajectory, cuts);
    assert r.source == s.source + [];
    RecordsPersist(s, r, [], cuts);
    SourcePersists(s.source, trajectory, s.log, r.log);
  }

  lemma {:induction false} SegmentMembers(source: seq<Item>, lo: nat, hi: nat)
    ensures forall x :: x in Segment(source, lo, hi) ==> x in source
  {
    if source != [] {
      SegmentMembers(source[..|source| - 1], lo, hi);
    }
  }

  lemma {:induction false} SegmentIndexed(source: seq<Item>, lo: nat, hi: nat)
    requires SourceOrder(source)
    ensures |IndicesOf(Segment(source, lo, hi))| == |Segment(source, lo, hi)|
  {
    if source != [] {
      var n := |source| - 1;
      SegmentIndexed(source[..n], lo, hi);
      var rest := Segment(source[..n], lo, hi);
      assert (rest + [source[n]])[..|rest|] == rest;
    }
  }

  lemma {:induction false} SegmentNonempty(source: seq<Item>, lo: nat, hi: nat)
    requires lo < hi <= Assistants(MessagesOf(source))
    ensures Segment(source, lo, hi) != []
  {
    var n := |source| - 1;
    MessagesInit(source);
    if !source[n].message.role.Assistant? || hi < Assistants(MessagesOf(source)) {
      SegmentNonempty(source[..n], lo, hi);
    }
  }

  /** A compaction of the first k turns of the request covers the next k run turns. */
  lemma CompactionTakesNextTurns(s: State, trajectory: seq<Message>, cuts: seq<nat>, k: nat)
    requires Invariant(s, trajectory, cuts) && 1 <= k
    ensures |cuts| == |s.records|
    ensures Pick(s.request, IndicesIn(|s.request|, FirstTurns(MessagesOf(s.request), k)))
         == Segment(s.source, LastCut(cuts), LastCut(cuts) + k)
    ensures Assistants(MessagesOf(s.request)) == Assistants(trajectory) - LastCut(cuts)
  {
    hide RecordBacked, SourceBacked, View, Segment, FirstTurns;
    SourceMessages(s, trajectory, cuts);
    ViewTakesNextTurns(s.source, cuts, SummariesOf(s.records), k);
  }

  lemma ViewTakesNextTurns(source: seq<Item>, cuts: seq<nat>, summaries: seq<Item>, k: nat)
    requires |cuts| == |summaries| && AllSystem(summaries) && k >= 1
    ensures var view := View(source, cuts, summaries);
      && Pick(view, IndicesIn(|view|, FirstTurns(MessagesOf(view), k)))
           == Segment(source, LastCut(cuts), LastCut(cuts) + k)
      && Assistants(MessagesOf(view)) == Max(Assistants(MessagesOf(source)) - LastCut(cuts), 0)
  {
    hide View, Segment, Pick, FirstTurns, LastCut;
    var view := View(source, cuts, summaries);
    PickFirstTurns(view, |view|, k);
    assert view[..|view|] == view;
    SegmentOfView(source, cuts, summaries, k);
    AssistantsOfView(source, cuts, summaries);
  }

  /** The artifact compacts exactly the first k turns of the request. */
  ghost predicate Takes(s: State, artifact: Artifact, k: nat) {
    && 1 <= k <= Assistants(MessagesOf(s.request))
    && artifact.compacted == IndicesIn(|s.request|, FirstTurns(MessagesOf(s.request), k))
  }

  lemma RebuildOfView(source: seq<Item>, cuts: seq<nat>, summaries: seq<Item>, k: nat, mark: Item)
    requires |cuts| == |summaries| && AllSystem(summaries) && Cuts(cuts) && k >= 1
    ensures var request := View(source, cuts, summaries);
      Replaced(request, ToSet(IndicesIn(|request|, FirstTurns(MessagesOf(request), k))), mark)
        == View(source, cuts + [LastCut(cuts) + k], summaries + [mark])
  {
    var request := View(source, cuts, summaries);
    var turns := FirstTurns(MessagesOf(request), k);
    IndicesInMembers(|request|, turns);
    assert ToSet(IndicesIn(|request|, turns)) == turns;
    ReplacedIsCompactFirst(request, |request|, k, mark);
    assert request[..|request|] == request;
    CompactFirstOfView(source, cuts, summaries, k, mark);
  }

  lemma ReplaceKeepsView(s: State, cuts: seq<nat>, artifact: Artifact, record: Record, k: nat)
    requires |cuts| == |s.records| && AllSystem(SummariesOf(s.records)) && Cuts(cuts)
    requires s.request == View(s.source, cuts, SummariesOf(s.records)) && Takes(s, artifact, k)
    ensures Replaced(s.request, ToSet(artifact.compacted), SummaryItem(record))
         == View(s.source, cuts + [LastCut(cuts) + k], SummariesOf(s.records + [record]))
  {
    RebuildOfView(s.source, cuts, SummariesOf(s.records), k, SummaryItem(record));
    assert SummariesOf(s.records + [record]) == SummariesOf(s.records) + [SummaryItem(record)];
  }

  /** The entries of a new record lie where its log is extended. */
  lemma NewRecordBacked(source: seq<Item>, log: seq<Entry>, r: Record, id: nat, lo: nat, hi: nat)
    requires r.id == id && r.rendered.role == System
    requires SourceOrder(source) && lo < hi <= Assistants(MessagesOf(source))
    requires r.sourceEntries == EntriesOf(Segment(source, lo, hi))
    requires r.sourceIndices == IndicesOf(Segment(source, lo, hi))
    requires r.summaryEntry == |log| + 1 && r.carriedEntry == |log| + 2 && r.artifactEntry == |log| + 3
    ensures RecordBacked(source, log + [SummaryEntryFor(r), CarriedEntryFor(r), ArtifactEntryFor(r)], r, id, lo, hi)
  {
    SegmentIndexed(source, lo, hi);
    SegmentNonempty(source, lo, hi);
  }

  lemma RecordsGrow(s: State, r: State, cuts: seq<nat>, record: Record, cut: nat)
    requires RecordsBacked(s, cuts) && Cuts(cuts) && LastCut(cuts) <= Assistants(MessagesOf(s.source))
    requires r.source == s.source && s.log <= r.log && r.records == s.records + [record]
    requires RecordBacked(r.source, r.log, record, |cuts| + 1, LastCut(cuts), cut)
    ensures RecordsBacked(r, cuts + [cut])
  {
    var next := cuts + [cut];
    assert s.source == s.source + [];
    RecordsPersist(s, s.(log := r.log), [], cuts);
    forall j | 0 <= j < |next|
      ensures RecordBacked(r.source, r.log, r.records[j], j + 1, CutBefore(next, j), next[j])
    {
      assert next[..j] == cuts[..j];
      if j == |cuts| {
        assert cuts[..j] == cuts;
      } else {
        assert r.records[j] == s.records[j];
      }
    }
  }

  lemma SourcePersists(source: seq<Item>, trajectory: seq<Message>, log: seq<Entry>, longer: seq<Entry>)
    requires SourceBacked(source, trajectory, log) && log <= longer
    ensures SourceBacked(source, trajectory, longer)
  {
    forall i | 0 <= i < |source| ensures Logged(longer, source[i]) {
      LoggedPersists(log, longer, source[i]);
    }
  }

  /** What one replacement needs to know of the state it starts from. */
  ghost predicate Ready(s: State, cuts: seq<nat>, artifact: Artifact, k: nat) {
    && SourceOrder(s.source) && |cuts| == |s.records| && k >= 1
    && LastCut(cuts) + k <= Assistants(MessagesOf(s.source))
    && CompactedItems(s, artifact) == Segment(s.source, LastCut(cuts), LastCut(cuts) + k)
  }

  lemma TakesIsReady(s: State, trajectory: seq<Message>, cuts: seq<nat>, artifact: Artifact, k: nat)
    requires Invariant(s, trajectory, cuts) && Takes(s, artifact, k)
    ensures Ready(s, cuts, artifact, k) && MessagesOf(s.source) == trajectory && AllSystem(SummariesOf(s.records))
  {
    SourceMessages(s, trajectory, cuts);
    CompactionTakesNextTurns(s, trajectory, cuts, k);
  }

  lemma ReplacementRecord(s: State, cuts: seq<nat>, artifact: Artifact, summary: Message, turn: nat, k: nat)
    requires Ready(s, cuts, artifact, k) && summary.role == System
    ensures var record := RecordFor(s, artifact, summary, turn);
      RecordBacked(s.source, s.log + [SummaryEntryFor(record), CarriedEntryFor(record), ArtifactEntryFor(record)],
                   record, |cuts| + 1, LastCut(cuts), LastCut(cuts) + k)
  {
    NewRecordBacked(s.source, s.log, RecordFor(s, artifact, summary, turn), |cuts| + 1, LastCut(cuts),
                    LastCut(cuts) + k);
  }

  lemma ReplaceAssembles(s: State, r: State, trajectory: seq<Message>, cuts: seq<nat>, record: Record, cut: nat)
    requires WellNumbered(s.log) && SourceBacked(s.source, trajectory, s.log) && RecordsBacked(s, cuts)
    requires MessagesOf(s.source) == trajectory && Cuts(cuts) && LastCut(cuts) < cut <= Assistants(trajectory)
    requires r.source == s.source && r.records == s.records + [record] && WellNumbered(r.log) && s.log <= r.log
    requires RecordBacked(r.source, r.log, record, |cuts| + 1, LastCut(cuts), cut)
    requires |cuts| == |s.records| && r.request == View(s.source, cuts + [cut], SummariesOf(r.records))
    ensures Invariant(r, trajectory, cuts + [cut])
  {
    hide RecordsBacked, SourceBacked, RecordBacked, View;
    RecordsGrow(s, r, cuts, record, cut);
    SourcePersists(s.source, trajectory, s.log, r.log);
    CutsGrow(cuts, cut - LastCut(cuts));
  }

  /** `r` is `s` with the turns of `artifact` replaced under `record`. */
  ghost predicate ReplacedBy(s: State, r: State, artifact: Artifact, record: Record) {
    && r.source == s.source && r.records == s.records + [record]
    && r.log == s.log + [SummaryEntryFor(record), CarriedEntryFor(record), ArtifactEntryFor(record)]
    && r.request == Replaced(s.request, ToSet(artifact.compacted), SummaryItem(record))
  }

  lemma ReplaceCore(s: State, r: State, trajectory: seq<Message>, cuts: seq<nat>, artifact: Artifact, record: Record,
                    k: nat)
    requires Invariant(s, trajectory, cuts) && Takes(s, artifact, k) && Ready(s, cuts, artifact, k)
    requires ReplacedBy(s, r, artifact, record) && WellNumbered(r.log)
    requires RecordBacked(r.source, r.log, record, |cuts| + 1, LastCut(cuts), LastCut(cuts) + k)
    ensures Invariant(r, trajectory, cuts + [LastCut(cuts) + k])
  {
    hide RecordsBacked, RecordBacked, View;
    SourceMessages(s, trajectory, cuts);
    ReplaceKeepsView(s, cuts, artifact, record, k);
    ReplaceAssembles(s, r, trajectory, cuts, record, LastCut(cuts) + k);
  }

  lemma NumberingOf(s: State, trajectory: seq<Message>, cuts: seq<nat>)
    requires Invariant(s, trajectory, cuts)
    ensures WellNumbered(s.log)
  {
  }

  /** A replacement keeps the invariant and moves the cut by the number of turns it covers. */
  lemma ReplaceKeepsInvariant(s: State, trajectory: seq<Message>, cuts: seq<nat>, artifact: Artifact, summary: Message,
                              turn: nat, k: nat)
    requires Invariant(s, trajectory, cuts) && summary.role == System && Takes(s, artifact, k)
    ensures Invariant(Replace(s, artifact, summary, turn), trajectory, cuts + [LastCut(cuts) + k])
  {
    hide Invariant, Takes, Ready, RecordBacked;
    var record, r := RecordFor(s, artifact, summary, turn), Replace(s, artifact, summary, turn);
    assert WellNumbered(r.log) by {
      NumberingOf(s, trajectory, cuts);
    }
    TakesIsReady(s, trajectory, cuts, artifact, k);
    ReplacementRecord(s, cuts, artifact, summary, turn, k);
    ReplaceCore(s, r, trajectory, cuts, artifact, record, k);
  }

  lemma CutsGrow(cuts: seq<nat>, k: nat)
    requires Cuts(cuts) && k >= 1
    ensures Cuts(cuts + [LastCut(cuts) + k]) && LastCut(cuts + [LastCut(cuts) + k]) == LastCut(cuts) + k
  {
    forall a | 0 <= a < |cuts| ensures cuts[a] <= LastCut(cuts) {
      CutsBelowLast(cuts, a);
    }
  }
}
