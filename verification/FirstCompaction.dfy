/** Undoing the first compaction of a run from the log, and redoing it. */
module FirstCompaction {
  import opened Prelude
  import opened Sorting
  import opened Messages
  import opened RetainedHistory
  import opened History
  import opened RequestContext
  import opened HistoryView
  import opened HistoryInvariant
  import opened Conservation
  import opened RequestContents
  import opened Replay
  import opened ReplayRuns

  /** The source items of `items`, keyed by their trajectory index. */
  function PairsOf(items: seq<Item>): seq<Keyed> {
    if items == [] then [] else
    var last := items[|items| - 1];
    PairsOf(items[..|items| - 1]) + (if last.SourceItem? then [(last.index, last.message)] else [])
  }

  lemma FetchIndexedFromLog(log: seq<Entry>, item: Item)
    requires WellNumbered(log) && Logged(log, item)
    ensures FetchIndexed(BuildIndex(log), item.entry)
         == if item.SourceItem? then Done((item.index, item.message)) else Failed(NoTrajectoryIndex(item.entry))
  {
    FetchFromLog(log, item);
  }

  /** `summary` is the only entry of `items` that has no trajectory index. */
  ghost predicate OnlySummary(items: seq<Item>, summary: nat) {
    forall p :: 0 <= p < |items| ==> (items[p].ReplacementItem? <==> items[p].entry == summary)
  }

  lemma {:induction false} RetainedReplays(items: seq<Item>, summary: nat, log: seq<Entry>)
    requires WellNumbered(log) && AllLogged(items, log) && OnlySummary(items, summary)
    ensures RetainedPairs(EntriesOf(items), summary, BuildIndex(log)) == Done(PairsOf(items))
  {
    hide Lookup, BuildIndex, WellNumbered, FetchIndexed;
    if items != [] {
      var n := |items| - 1;
      RetainedReplays(items[..n], summary, log);
      FetchIndexedFromLog(log, items[n]);
      assert EntriesOf(items)[..n] == EntriesOf(items[..n]);
      assert PairsOf(items[..n]) + [] == PairsOf(items[..n]);
    }
  }

  lemma {:induction false} SourcesRetained(items: seq<Item>, summary: nat, log: seq<Entry>)
    requires WellNumbered(log) && AllLogged(items, log)
    requires forall p :: 0 <= p < |items| ==> items[p].SourceItem?
    ensures RetainedPairs(EntriesOf(items), summary, BuildIndex(log)).Done?
  {
    hide Lookup, BuildIndex, WellNumbered, FetchIndexed;
    if items != [] {
      var n := |items| - 1;
      SourcesRetained(items[..n], summary, log);
      FetchIndexedFromLog(log, items[n]);
      assert EntriesOf(items)[..n] == EntriesOf(items[..n]);
    }
  }

  /** An earlier summary in the request has no trajectory index, and the collection fails on the first. */
  lemma RetainedFails(items: seq<Item>, summary: nat, log: seq<Entry>, p: nat)
    requires WellNumbered(log) && AllLogged(items, log)
    requires p < |items| && items[p].ReplacementItem? && items[p].entry != summary
    requires forall q :: 0 <= q < p ==> items[q].SourceItem?
    ensures RetainedPairs(EntriesOf(items), summary, BuildIndex(log)) == Failed(NoTrajectoryIndex(items[p].entry))
  {
    hide Lookup, BuildIndex, WellNumbered, FetchIndexed;
    var ids := EntriesOf(items);
    SourcesRetained(items[..p], summary, log);
    FetchIndexedFromLog(log, items[p]);
    assert ids[..p + 1][..p] == ids[..p] == EntriesOf(items[..p]);
    assert RetainedPairs(ids[..p + 1], summary, BuildIndex(log)).Failed?;
    RetainedFailureSticks(ids, p + 1, summary, BuildIndex(log));
  }

  lemma {:induction false} SourcesReplay(items: seq<Item>, log: seq<Entry>)
    requires WellNumbered(log) && AllLogged(items, log)
    requires forall p :: 0 <= p < |items| ==> items[p].SourceItem?
    ensures |IndicesOf(items)| == |items|
    ensures SourcePairs(EntriesOf(items), IndicesOf(items), BuildIndex(log)) == Done(PairsOf(items))
  {
    hide Lookup, BuildIndex, WellNumbered, Fetch;
    if items != [] {
      var n := |items| - 1;
      SourcesReplay(items[..n], log);
      FetchFromLog(log, items[n]);
      assert EntriesOf(items)[..n] == EntriesOf(items[..n]);
      assert IndicesOf(items)[..n] == IndicesOf(items[..n]);
    }
  }

  lemma {:induction false} PairsShape(items: seq<Item>, source: seq<Item>)
    requires DrawnFrom(items, source)
    ensures KeysOf(PairsOf(items), KeyOf) == IndicesOf(items)
    ensures forall a :: 0 <= a < |PairsOf(items)| ==>
      PairsOf(items)[a].0 < |source| && PairsOf(items)[a].1 == source[PairsOf(items)[a].0].message
  {
    if items != [] {
      var init, last := items[..|items| - 1], items[|items| - 1];
      forall x | x in init ensures x in items {
      }
      PairsShape(init, source);
      assert last in items;
    }
  }

  /** `pairs` lists every message of `ms` under its own position, in some order. */
  ghost predicate Shuffles(pairs: seq<Keyed>, ms: seq<Message>) {
    && DistinctKeys(pairs, KeyOf)
    && (forall a :: 0 <= a < |pairs| ==> pairs[a].0 < |ms| && pairs[a].1 == ms[pairs[a].0])
    && (forall i: nat :: i < |ms| ==> i in KeysOf(pairs, KeyOf))
  }

  lemma AscendingCover(xs: seq<nat>, n: nat)
    requires Ascending(xs) && forall p :: 0 <= p < |xs| ==> xs[p] < n
    requires forall i: nat :: i < n ==> i in xs
    ensures xs == Range(n)
  {
    AscendingIsIndicesIn(xs, n);
    IndicesInAgree(n, ToSet(xs), Below(n));
    IndicesInAll(n);
  }

  lemma SortedKeys(pairs: seq<Keyed>, ms: seq<Message>)
    requires Shuffles(pairs, ms)
    ensures KeysOf(SortBy(pairs, KeyOf), KeyOf) == Range(|ms|)
  {
    hide SortBy;
    var sorted := SortBy(pairs, KeyOf);
    var keys := KeysOf(sorted, KeyOf);
    SortByArranges(pairs, KeyOf);
    forall p | 0 <= p < |keys| ensures keys[p] < |ms| {
      SameContents(sorted, pairs, p);
    }
    forall i: nat | i < |ms| ensures i in keys {
      assert i in KeysOf(pairs, KeyOf);
      var a :| 0 <= a < |pairs| && KeysOf(pairs, KeyOf)[a] == i;
      SameContents(pairs, sorted, a);
      var b :| 0 <= b < |sorted| && sorted[b] == pairs[a];
      assert keys[b] == KeyOf(pairs[a]) == i;
    }
    AscendingCover(keys, |ms|);
  }

  lemma SortedMessages(pairs: seq<Keyed>, ms: seq<Message>)
    requires Shuffles(pairs, ms)
    ensures Unkeyed(SortBy(pairs, KeyOf)) == ms
  {
    hide SortBy;
    var sorted := SortBy(pairs, KeyOf);
    SortedKeys(pairs, ms);
    SortByArranges(pairs, KeyOf);
    forall i | 0 <= i < |sorted| ensures sorted[i].1 == ms[i] {
      SameContents(sorted, pairs, i);
      assert KeysOf(sorted, KeyOf)[i] == Range(|ms|)[i];
    }
  }

  lemma ShufflesOfSplit(a: seq<Keyed>, b: seq<Keyed>, ms: seq<Message>, s: set<nat>, t: set<nat>)
    requires KeysOf(a, KeyOf) == IndicesIn(|ms|, s) && KeysOf(b, KeyOf) == IndicesIn(|ms|, t)
    requires s !! t && forall i: nat :: i < |ms| ==> i in s || i in t
    requires forall p :: 0 <= p < |a| ==> a[p].0 < |ms| && a[p].1 == ms[a[p].0]
    requires forall p :: 0 <= p < |b| ==> b[p].0 < |ms| && b[p].1 == ms[b[p].0]
    ensures Shuffles(a + b, ms)
  {
    hide IndicesIn;
    var keys := KeysOf(a + b, KeyOf);
    IndicesInMembers(|ms|, s);
    IndicesInMembers(|ms|, t);
    assert keys == KeysOf(a, KeyOf) + KeysOf(b, KeyOf);
    forall x, y | 0 <= x < y < |a + b| ensures KeyOf((a + b)[x]) != KeyOf((a + b)[y]) {
      assert keys[x] != keys[y] by {
        if x < |a| <= y {
          assert KeysOf(a, KeyOf)[x] in s && KeysOf(b, KeyOf)[y - |a|] in t;
        }
      }
    }
  }

  lemma SegmentDrawn(source: seq<Item>, lo: nat, hi: nat)
    requires SourceOrder(source)
    ensures DrawnFrom(Segment(source, lo, hi), source)
  {
    SegmentMembers(source, lo, hi);
  }

  /** The pairs recovered after the first compaction cover the whole trajectory. */
  lemma FirstCompactionPairs(s: State, trajectory: seq<Message>, cuts: seq<nat>)
    requires Invariant(s, trajectory, cuts) && |cuts| == 1
    ensures Shuffles(PairsOf(s.request) + PairsOf(Segment(s.source, 0, cuts[0])), trajectory)
  {
    hide Invariant, Shuffles, KeysOf, DrawnFrom, Segment, TurnsBetween, PairsOf;
    var last := cuts[0];
    var segment := Segment(s.source, 0, last);
    SourceTexts(s, trajectory, cuts);
    SourceOrderOf(s, trajectory, cuts);
    RequestInOrder(s, trajectory, cuts);
    PairsShape(s.request, s.source);
    RequestIndices(s, trajectory, cuts);
    SegmentDrawn(s.source, 0, last);
    PairsShape(segment, s.source);
    SegmentIndices(s.source, |s.source|, 0, last);
    assert s.source[..|s.source|] == s.source;
    ShufflesOfSplit(PairsOf(s.request), PairsOf(segment), trajectory, VisibleSet(trajectory, last),
                    TurnsBetween(trajectory, 0, last));
  }

  lemma {:induction false} ReplacementMembers(items: seq<Item>)
    ensures forall p :: 0 <= p < |items| && items[p].ReplacementItem? ==> items[p] in Replacements(items)
    ensures forall x :: x in Replacements(items) ==> x in items && x.ReplacementItem?
  {
    if items != [] {
      ReplacementMembers(items[..|items| - 1]);
    }
  }

  lemma SummaryStandsApart(log: seq<Entry>, items: seq<Item>, p: nat, summary: Item)
    requires AllLogged(items, log) && Logged(log, summary) && summary.ReplacementItem?
    requires p < |items| && items[p].SourceItem?
    ensures items[p].entry != summary.entry
  {
    assert Logged(log, items[p]);
  }

  lemma OneLiveSummary(s: State, trajectory: seq<Message>, cuts: seq<nat>)
    requires Invariant(s, trajectory, cuts) && |cuts| == 1
    ensures |s.records| == 1 && OnlySummary(s.request, s.records[0].summaryEntry)
  {
    hide Invariant, Logged;
    CutsOf(s, trajectory, cuts);
    RequestLogged(s, trajectory, cuts);
    SummariesMatchRecords(s, trajectory, cuts);
    ReplacementMembers(s.request);
    var summary := SummaryItem(s.records[0]);
    assert SummariesOf(s.records) == [summary];
    RecordOfState(s, trajectory, cuts, 0);
    SummaryLogged(s.source, s.log, s.records[0], 1, CutBefore(cuts, 0), cuts[0]);
    forall p | 0 <= p < |s.request|
      ensures s.request[p].ReplacementItem? <==> s.request[p].entry == s.records[0].summaryEntry
    {
      if s.request[p].SourceItem? {
        SummaryStandsApart(s.log, s.request, p, summary);
      }
    }
  }

  /** The retained and compacted entries of the only record replay to the pairs of the trajectory. */
  lemma FirstCompactionReplays(s: State, trajectory: seq<Message>, cuts: seq<nat>, log: seq<Entry>)
    requires Invariant(s, trajectory, cuts) && |cuts| == 1
    requires WellNumbered(log) && s.log <= log
    ensures |s.records| == 1
    ensures var r := s.records[0];
      && Lookup(BuildIndex(log), r.summaryEntry) == Some(SummaryEntryFor(r))
      && PairsWithSummary(EntriesOf(s.request), SummaryEntryFor(r), r.summaryEntry, BuildIndex(log))
           == Done(PairsOf(s.request) + PairsOf(Segment(s.source, 0, cuts[0])))
  {
    hide Invariant, Logged, Lookup, BuildIndex, RetainedPairs, SourcePairs;
    CutsOf(s, trajectory, cuts);
    OneLiveSummary(s, trajectory, cuts);
    RequestLogged(s, trajectory, cuts);
    LoggedLater(s.request, s.log, log);
    LoggedLater(s.source, s.log, log);
    RetainedReplays(s.request, s.records[0].summaryEntry, log);
    SegmentReplays(s, trajectory, cuts, log);
    RecordOfState(s, trajectory, cuts, 0);
    SummaryFound(s, log, s.records[0], 1, CutBefore(cuts, 0), cuts[0]);
  }

  lemma SummaryFound(s: State, log: seq<Entry>, r: Record, id: nat, lo: nat, hi: nat)
    requires RecordBacked(s.source, s.log, r, id, lo, hi) && WellNumbered(log) && s.log <= log
    ensures Lookup(BuildIndex(log), r.summaryEntry) == Some(SummaryEntryFor(r))
    ensures Lookup(BuildIndex(log), r.carriedEntry) == Some(CarriedEntryFor(r))
    ensures r.sourceEntries == EntriesOf(Segment(s.source, lo, hi))
    ensures r.sourceIndices == IndicesOf(Segment(s.source, lo, hi)) && r.sourceIndices != []
  {
    IndexOfLog(log);
    LookupInLog(log, r.summaryEntry);
    LookupInLog(log, r.carriedEntry);
    assert log[r.summaryEntry - 1] == s.log[r.summaryEntry - 1];
    assert log[r.carriedEntry - 1] == s.log[r.carriedEntry - 1];
  }

  lemma SegmentReplays(s: State, trajectory: seq<Message>, cuts: seq<nat>, log: seq<Entry>)
    requires Invariant(s, trajectory, cuts) && |cuts| == 1 && WellNumbered(log) && AllLogged(s.source, log)
    ensures var segment := Segment(s.source, 0, cuts[0]);
      && |EntriesOf(segment)| == |IndicesOf(segment)|
      && SourcePairs(EntriesOf(segment), IndicesOf(segment), BuildIndex(log)) == Done(PairsOf(segment))
  {
    hide View, RecordsBacked, Logged, BuildIndex, SourcePairs;
    var segment := Segment(s.source, 0, cuts[0]);
    SegmentMembers(s.source, 0, cuts[0]);
    SourceMessages(s, trajectory, cuts);
    forall p | 0 <= p < |segment| ensures segment[p].SourceItem? && Logged(log, segment[p]) {
      assert segment[p] in s.source;
    }
    SourcesReplay(segment, log);
  }

  /** Pre-compaction replay of the state after the first compaction gives back the whole trajectory. */
  lemma FirstCompactionInverts(s: State, trajectory: seq<Message>, cuts: seq<nat>, e: RequestEntry, log: seq<Entry>)
    requires Invariant(s, trajectory, cuts) && |cuts| == 1
    requires WellNumbered(log) && s.log <= log
    requires |s.records| == 1 && e.active && e.summaryEntry == Some(s.records[0].summaryEntry)
    requires e.selectedEntries == EntriesOf(s.request)
    ensures PreCompaction(e, BuildIndex(log)) == Done(trajectory)
  {
    hide Invariant, Lookup, BuildIndex, PairsWithSummary, Shuffles, SortBy;
    FirstCompactionReplays(s, trajectory, cuts, log);
    FirstCompactionPairs(s, trajectory, cuts);
    SortedMessages(PairsOf(s.request) + PairsOf(Segment(s.source, 0, cuts[0])), trajectory);
  }

  lemma {:induction false} WantedShape(s: State, trajectory: seq<Message>, log: seq<Entry>, p: nat)
    requires SourceBacked(s.source, trajectory, log) && WellNumbered(log) && p <= |log|
    ensures var xs := WantedIndices(log[..p], ToSet(EntriesOf(s.source)));
      && Ascending(xs)
      && (forall i :: i in xs ==> i < |s.source| && s.source[i].entry <= p)
      && (forall i: nat :: i < |s.source| && s.source[i].entry <= p ==> i in xs)
  {
    var entries := EntriesOf(s.source);
    forall i | 0 <= i < |s.source| ensures Logged(log, s.source[i]) && s.source[i].index == i {
    }
    hide Logged, SourceBacked, ToSet;
    if p > 0 {
      WantedShape(s, trajectory, log, p - 1);
      assert log[..p][..p - 1] == log[..p - 1];
      WantedStep(s.source, log, p, WantedIndices(log[..p - 1], ToSet(entries)));
    }
  }

  lemma WantedStep(source: seq<Item>, log: seq<Entry>, p: nat, xs: seq<nat>)
    requires 1 <= p <= |log| && log[p - 1].id == p
    requires Ascending(EntriesOf(source)) && SourceOrder(source)
    requires forall i :: 0 <= i < |source| ==> Logged(log, source[i])
    requires Ascending(xs)
    requires forall i :: i in xs ==> i < |source| && source[i].entry <= p - 1
    requires forall i: nat :: i < |source| && source[i].entry <= p - 1 ==> i in xs
    ensures var e, wanted := log[p - 1], ToSet(EntriesOf(source));
      var ys := xs + (if e.id in wanted && e.sourceIndex.Some? then [e.sourceIndex.value] else []);
      && Ascending(ys)
      && (forall i :: i in ys ==> i < |source| && source[i].entry <= p)
      && (forall i: nat :: i < |source| && source[i].entry <= p ==> i in ys)
  {
    var e, entries := log[p - 1], EntriesOf(source);
    if e.id in ToSet(entries) {
      var i :| 0 <= i < |entries| && entries[i] == p;
      assert Logged(log, source[i]) && e.sourceIndex == Some(i);
      forall a | 0 <= a < |xs| ensures xs[a] < i {
        assert xs[a] in xs && entries[xs[a]] < entries[i];
      }
      forall j: nat | j < |source| && source[j].entry == p ensures j == i {
        assert entries[j] == entries[i];
      }
    } else {
      forall j: nat | j < |source| ensures source[j].entry != p {
        assert entries[j] in ToSet(entries);
      }
    }
  }

  lemma {:induction false} ReinsertedRange(ms: seq<Message>, compacted: set<nat>, mark: Message)
    ensures Reinserted(Range(|ms|), ms, compacted, mark) == Replaced(ms, compacted, mark)
  {
    if ms != [] {
      var n := |ms| - 1;
      assert Range(|ms|)[..n] == Range(n);
      ReinsertedRange(ms[..n], compacted, mark);
      assert Hit(compacted, n) <==> exists i :: 0 <= i < n && Range(|ms|)[i] in compacted by {
        if Hit(compacted, n) {
          var i :| 0 <= i < n && i in compacted;
          assert Range(|ms|)[i] in compacted;
        }
      }
    }
  }

  lemma {:induction false} MessagesOfReplaced(items: seq<Item>, s: set<nat>, mark: Item)
    ensures MessagesOf(Replaced(items, s, mark)) == Replaced(MessagesOf(items), s, mark.message)
  {
    if items != [] {
      var n := |items| - 1;
      MessagesOfReplaced(items[..n], s, mark);
      assert MessagesOf(items)[..n] == MessagesOf(items[..n]);
      var rest := Replaced(items[..n], s, mark);
      assert MessagesOf(rest + [items[n]]) == MessagesOf(rest) + [items[n].message];
      assert MessagesOf(rest + [mark]) == MessagesOf(rest) + [mark.message];
    }
  }

  /** After the first compaction the request is the trajectory with those turns replaced. */
  lemma FirstRequest(s: State, trajectory: seq<Message>, cuts: seq<nat>)
    requires Invariant(s, trajectory, cuts) && |cuts| == 1
    ensures |s.records| == 1
    ensures MessagesOf(s.request)
         == Replaced(trajectory, TurnsBetween(trajectory, 0, cuts[0]), s.records[0].rendered)
  {
    hide RecordsBacked, View, SourceBacked, TurnsBetween;
    CutsOf(s, trajectory, cuts);
    SourceMessages(s, trajectory, cuts);
    assert SummariesOf(s.records) == [SummaryItem(s.records[0])] && cuts == [cuts[0]];
    FirstView(s.source, cuts[0], SummaryItem(s.records[0]));
  }

  lemma FirstView(source: seq<Item>, last: nat, mark: Item)
    requires last >= 1
    ensures MessagesOf(View(source, [last], [mark]))
         == Replaced(MessagesOf(source), TurnsBetween(MessagesOf(source), 0, last), mark.message)
  {
    hide View, CompactFirst, Replaced;
    assert [] + [mark] == [mark] && [] + [LastCut([]) + last] == [last];
    CompactFirstOfView(source, [], [], last, mark);
    ViewWithoutRecords(source);
    ReplacedIsCompactFirst(source, |source|, last, mark);
    assert source[..|source|] == source;
    assert FirstTurns(MessagesOf(source), last) == TurnsBetween(MessagesOf(source), 0, last);
    MessagesOfReplaced(source, FirstTurns(MessagesOf(source), last), mark);
  }

  /** Every source entry is retained or compacted, and the summary is neither. */
  lemma WantedEntries(s: State, trajectory: seq<Message>, cuts: seq<nat>)
    requires Invariant(s, trajectory, cuts) && |cuts| == 1
    ensures |s.records| == 1
    ensures ToSet(s.records[0].sourceEntries) + (ToSet(EntriesOf(s.request)) - {s.records[0].summaryEntry})
         == ToSet(EntriesOf(s.source))
  {
    hide Invariant, View;
    CutsOf(s, trajectory, cuts);
    RecordOfState(s, trajectory, cuts, 0);
    OneLiveSummary(s, trajectory, cuts);
    RequestInOrder(s, trajectory, cuts);
    SegmentMembers(s.source, 0, cuts[0]);
    var segment := Segment(s.source, 0, cuts[0]);
    forall i | 0 <= i < |s.source| ensures s.source[i] in segment || s.source[i] in s.request {
      SourceInEither(s, trajectory, cuts, i);
    }
    SourceOrderOf(s, trajectory, cuts);
    EntriesCover(segment, s.request, s.source, s.records[0].summaryEntry);
  }

  lemma SourceOrderOf(s: State, trajectory: seq<Message>, cuts: seq<nat>)
    requires Invariant(s, trajectory, cuts)
    ensures SourceOrder(s.source) && |s.source| == |trajectory|
  {
    SourceMessages(s, trajectory, cuts);
  }

  lemma {:induction false} SourceItemsIn(items: seq<Item>, i: nat) returns (x: Item)
    requires i in IndicesOf(items)
    ensures x in items && x.SourceItem? && x.index == i
  {
    var last := items[|items| - 1];
    if last.SourceItem? && last.index == i {
      x := last;
    } else {
      x := SourceItemsIn(items[..|items| - 1], i);
    }
  }

  lemma SourceInEither(s: State, trajectory: seq<Message>, cuts: seq<nat>, i: nat)
    requires Invariant(s, trajectory, cuts) && |cuts| == 1 && i < |s.source|
    ensures s.source[i] in Segment(s.source, 0, cuts[0]) || s.source[i] in s.request
  {
    hide Invariant, TurnsBetween;
    SourceOrderOf(s, trajectory, cuts);
    RequestIndices(s, trajectory, cuts);
    RequestInOrder(s, trajectory, cuts);
    IndicesInMembers(|trajectory|, VisibleSet(trajectory, LastCut(cuts)));
    if i in VisibleSet(trajectory, cuts[0]) {
      var x := SourceItemsIn(s.request, i);
    } else {
      SourceTexts(s, trajectory, cuts);
      InSegment(s.source, i, cuts[0]);
    }
  }

  lemma SourceTexts(s: State, trajectory: seq<Message>, cuts: seq<nat>)
    requires Invariant(s, trajectory, cuts)
    ensures MessagesOf(s.source) == trajectory
  {
    SourceMessages(s, trajectory, cuts);
  }

  lemma InSegment(source: seq<Item>, i: nat, last: nat)
    requires SourceOrder(source) && i < |source| && i in TurnsBetween(MessagesOf(source), 0, last)
    ensures source[i] in Segment(source, 0, last)
  {
    hide TurnsBetween, Segment;
    SegmentIndices(source, |source|, 0, last);
    assert source[..|source|] == source;
    IndicesInMembers(|source|, TurnsBetween(MessagesOf(source), 0, last));
    var x := SourceItemsIn(Segment(source, 0, last), i);
    SegmentMembers(source, 0, last);
    var p :| 0 <= p < |source| && source[p] == x;
  }

  lemma EntriesCover(segment: seq<Item>, request: seq<Item>, source: seq<Item>, summary: nat)
    requires forall x :: x in segment ==> x in source
    requires DrawnFrom(request, source) && OnlySummary(request, summary)
    requires forall i :: 0 <= i < |source| ==> source[i] in segment || source[i] in request
    requires forall i :: 0 <= i < |source| ==> source[i].SourceItem?
    ensures ToSet(EntriesOf(segment)) + (ToSet(EntriesOf(request)) - {summary}) == ToSet(EntriesOf(source))
  {
    var all := ToSet(EntriesOf(source));
    var parts := ToSet(EntriesOf(segment)) + (ToSet(EntriesOf(request)) - {summary});
    forall e | e in all ensures e in parts {
      var i :| 0 <= i < |source| && source[i].entry == e;
      if source[i] in segment {
        var p :| 0 <= p < |segment| && segment[p] == source[i];
        assert EntriesOf(segment)[p] == e;
      } else {
        var p :| 0 <= p < |request| && request[p] == source[i];
        assert EntriesOf(request)[p] == e;
      }
    }
    forall e | e in parts ensures e in all {
      if e in ToSet(EntriesOf(segment)) {
        var p :| 0 <= p < |segment| && segment[p].entry == e;
        assert segment[p] in segment && segment[p] in source;
        var i :| 0 <= i < |source| && source[i] == segment[p];
        assert EntriesOf(source)[i] == e;
      } else {
        var p :| 0 <= p < |request| && request[p].entry == e;
        assert request[p] in request;
        assert EntriesOf(source)[request[p].index] == e;
      }
    }
  }

  lemma WantedRange(s: State, trajectory: seq<Message>, cuts: seq<nat>, log: seq<Entry>)
    requires Invariant(s, trajectory, cuts) && WellNumbered(log) && s.log <= log
    ensures WantedIndices(BuildIndex(log), ToSet(EntriesOf(s.source))) == Range(|trajectory|)
  {
    hide View, RecordsBacked, WantedIndices;
    SourcePersists(s.source, trajectory, s.log, log);
    WantedShape(s, trajectory, log, |log|);
    IndexOfLog(log);
    assert log[..|log|] == log;
    forall i: nat | i < |trajectory| ensures s.source[i].entry <= |log| {
      assert Logged(log, s.source[i]);
    }
    var xs := WantedIndices(log, ToSet(EntriesOf(s.source)));
    forall p | 0 <= p < |xs| ensures xs[p] < |trajectory| {
      assert xs[p] in xs;
    }
    AscendingCover(xs, |trajectory|);
  }

  /** Putting the summary back rebuilds the request of the first compacting turn. */
  lemma FirstCompactionRebuilds(s: State, trajectory: seq<Message>, cuts: seq<nat>, e: RequestEntry, log: seq<Entry>)
    requires Invariant(s, trajectory, cuts) && |cuts| == 1
    requires WellNumbered(log) && s.log <= log
    requires |s.records| == 1 && e.active && e.summaryEntry == Some(s.records[0].summaryEntry)
    requires e.selectedEntries == EntriesOf(s.request)
    ensures PostCompaction(e, BuildIndex(log)) == Done(MessagesOf(s.request))
  {
    hide Invariant, RecordBacked, Lookup, BuildIndex, PreCompaction, WantedIndices, SortBy, TurnsBetween;
    var r := s.records[0];
    RecordOfState(s, trajectory, cuts, 0);
    SummaryFound(s, log, r, 1, CutBefore(cuts, 0), cuts[0]);
    FirstCompactionInverts(s, trajectory, cuts, e, log);
    WantedEntries(s, trajectory, cuts);
    WantedRange(s, trajectory, cuts, log);
    SortBySorted(Range(|trajectory|), Identity);
    ReinsertedRange(trajectory, ToSet(r.sourceIndices), r.rendered);
    FirstRequest(s, trajectory, cuts);
    FirstSources(s, trajectory, cuts);
  }

  lemma FirstSources(s: State, trajectory: seq<Message>, cuts: seq<nat>)
    requires Invariant(s, trajectory, cuts) && |cuts| == 1
    ensures |s.records| == 1
    ensures ToSet(s.records[0].sourceIndices) == TurnsBetween(trajectory, 0, cuts[0])
  {
    hide Invariant;
    CutsOf(s, trajectory, cuts);
    RecordIndices(s, trajectory, cuts, 0);
    IndicesInMembers(|trajectory|, TurnsBetween(trajectory, 0, cuts[0]));
  }

  /** A turn that shows an old summary but names none of its own. */
  lemma UnnamedSummary(e: RequestEntry, index: seq<Entry>)
    requires e.active && e.summaryEntry.None?
    ensures PreCompaction(e, index) == Failed(MissingSummaryId) == PostCompaction(e, index)
  {
  }

  lemma {:induction false} FirstReplacement(items: seq<Item>) returns (p: nat)
    requires Replacements(items) != []
    ensures p < |items| && items[p].ReplacementItem? && items[p] == Replacements(items)[0]
    ensures forall q :: 0 <= q < p ==> items[q].SourceItem?
  {
    var init := items[..|items| - 1];
    if Replacements(init) == [] {
      p := |init|;
      ReplacementMembers(init);
      forall q | 0 <= q < p ensures items[q].SourceItem? {
        assert items[q] == init[q] && init[q] !in Replacements(init);
      }
    } else {
      p := FirstReplacement(init);
    }
  }

  lemma SummaryPosition(s: State, trajectory: seq<Message>, cuts: seq<nat>, j: nat) returns (p: nat)
    requires Invariant(s, trajectory, cuts) && j < |cuts|
    ensures |s.records| == |cuts| && p < |s.request| && s.request[p] == SummaryItem(s.records[j])
  {
    hide Invariant;
    CutsOf(s, trajectory, cuts);
    SummariesMatchRecords(s, trajectory, cuts);
    ReplacementMembers(s.request);
    assert SummariesOf(s.records)[j] in Replacements(s.request);
    p :| 0 <= p < |s.request| && s.request[p] == SummaryItem(s.records[j]);
  }

  lemma SummaryEntriesDiffer(s: State, trajectory: seq<Message>, cuts: seq<nat>, i: nat, j: nat)
    requires Invariant(s, trajectory, cuts) && i < |cuts| && j < |cuts| && i != j
    ensures |s.records| == |cuts| && s.records[i].summaryEntry != s.records[j].summaryEntry
  {
    hide Invariant;
    RecordOfState(s, trajectory, cuts, i);
    RecordOfState(s, trajectory, cuts, j);
  }

  lemma FailingPairs(e: RequestEntry, r: Record, log: seq<Entry>, error: ReplayError)
    requires e.active && e.summaryEntry == Some(r.summaryEntry)
    requires Lookup(BuildIndex(log), r.summaryEntry) == Some(SummaryEntryFor(r))
    requires |r.sourceEntries| == |r.sourceIndices| != 0
    requires RetainedPairs(e.selectedEntries, r.summaryEntry, BuildIndex(log)) == Failed(error)
    ensures PreCompaction(e, BuildIndex(log)) == Failed(error) == PostCompaction(e, BuildIndex(log))
  {
    hide Lookup, BuildIndex, RetainedPairs, SourcePairs, WantedIndices, SortBy;
  }

  /** A second compaction meets the first summary of the run, which has no trajectory index. */
  lemma LaterCompactionFails(s: State, trajectory: seq<Message>, cuts: seq<nat>, e: RequestEntry, log: seq<Entry>)
    requires Invariant(s, trajectory, cuts) && |cuts| >= 2 && |s.records| == |cuts|
    requires WellNumbered(log) && s.log <= log
    requires e.active && e.summaryEntry == Some(s.records[|cuts| - 1].summaryEntry)
    requires e.selectedEntries == EntriesOf(s.request)
    ensures var failed := Failed(NoTrajectoryIndex(s.records[0].summaryEntry));
      PreCompaction(e, BuildIndex(log)) == failed == PostCompaction(e, BuildIndex(log))
  {
    hide Invariant, Lookup, BuildIndex, RetainedPairs, PreCompaction, PostCompaction, RecordBacked;
    var last := s.records[|cuts| - 1];
    CutsOf(s, trajectory, cuts);
    SummariesMatchRecords(s, trajectory, cuts);
    var p := FirstReplacement(s.request);
    SummaryEntriesDiffer(s, trajectory, cuts, 0, |cuts| - 1);
    RequestLogged(s, trajectory, cuts);
    LoggedLater(s.request, s.log, log);
    RetainedFails(s.request, last.summaryEntry, log, p);
    RecordOfState(s, trajectory, cuts, |cuts| - 1);
    SummaryFound(s, log, last, |cuts|, CutBefore(cuts, |cuts| - 1), cuts[|cuts| - 1]);
    SourceMessages(s, trajectory, cuts);
    SegmentIndexed(s.source, CutBefore(cuts, |cuts| - 1), cuts[|cuts| - 1]);
    FailingPairs(e, last, log, NoTrajectoryIndex(s.records[0].summaryEntry));
  }
}
