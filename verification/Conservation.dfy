/** Nothing is lost: over every run, each trajectory message is in the request or in one replacement record. */
module Conservation {
  import opened Prelude
  import opened Messages
  import opened History
  import opened HistoryView
  import opened HistoryInvariant
  import opened HistoryRun

  /** The ASSISTANT and TOOL positions of run turns `lo + 1` to `hi`. */
  function TurnsBetween(ms: seq<Message>, lo: nat, hi: nat): set<nat> {
    set i | i in Below(|ms|) && !Pinned(ms[i]) && lo < TurnAt(ms, i) <= hi
  }

  function VisibleSet(ms: seq<Message>, last: nat): set<nat> { Below(|ms|) - TurnsBetween(ms, 0, last) }

  lemma IndicesSnoc(items: seq<Item>, item: Item)
    ensures IndicesOf(items + [item]) == IndicesOf(items) + (if item.SourceItem? then [item.index] else [])
  {
    assert (items + [item])[..|items|] == items;
  }

  lemma TurnAtItem(source: seq<Item>, n: nat)
    requires n < |source|
    ensures TurnAt(MessagesOf(source), n) == Assistants(MessagesOf(source[..n + 1]))
  {
    assert MessagesOf(source)[..n + 1] == MessagesOf(source[..n + 1]);
  }

  /** The indices of a segment are exactly the positions of its turns. */
  lemma {:induction false} SegmentIndices(source: seq<Item>, n: nat, lo: nat, hi: nat)
    requires SourceOrder(source) && n <= |source|
    ensures IndicesOf(Segment(source[..n], lo, hi)) == IndicesIn(n, TurnsBetween(MessagesOf(source), lo, hi))
  {
    if n > 0 {
      SegmentIndices(source, n - 1, lo, hi);
      assert source[..n][..n - 1] == source[..n - 1];
      TurnAtItem(source, n - 1);
      IndicesSnoc(Segment(source[..n - 1], lo, hi), source[n - 1]);
    }
  }

  lemma {:induction false} VisibleIndices(source: seq<Item>, n: nat, last: nat)
    requires SourceOrder(source) && n <= |source|
    ensures IndicesOf(VisibleItems(source[..n], last)) == IndicesIn(n, VisibleSet(MessagesOf(source), last))
  {
    if n > 0 {
      VisibleIndices(source, n - 1, last);
      assert source[..n][..n - 1] == source[..n - 1];
      TurnAtItem(source, n - 1);
      IndicesSnoc(VisibleItems(source[..n - 1], last), source[n - 1]);
    }
  }

  lemma {:induction false} IndicesOfSources(items: seq<Item>)
    ensures IndicesOf(Sources(items)) == IndicesOf(items)
  {
    if items != [] {
      var init := items[..|items| - 1];
      IndicesOfSources(init);
      IndicesSnoc(Sources(init), items[|items| - 1]);
      assert Sources(init) + [] == Sources(init);
    }
  }

  /** The request shows exactly the positions whose turn has not been compacted. */
  lemma RequestIndices(s: State, trajectory: seq<Message>, cuts: seq<nat>)
    requires Invariant(s, trajectory, cuts)
    ensures IndicesOf(s.request) == IndicesIn(|trajectory|, VisibleSet(trajectory, LastCut(cuts)))
  {
    SourceMessages(s, trajectory, cuts);
    IndicesOfSources(s.request);
    SourcesOfView(s.source, cuts, SummariesOf(s.records));
    VisibleIndices(s.source, |s.source|, LastCut(cuts));
    assert s.source[..|s.source|] == s.source;
  }

  lemma RecordIndices(s: State, trajectory: seq<Message>, cuts: seq<nat>, j: nat)
    requires Invariant(s, trajectory, cuts) && j < |cuts|
    ensures |s.records| == |cuts|
    ensures s.records[j].sourceIndices
         == IndicesIn(|trajectory|, TurnsBetween(trajectory, CutBefore(cuts, j), cuts[j]))
  {
    hide SourceBacked, View, TurnsBetween, Cuts;
    SourceMessages(s, trajectory, cuts);
    SegmentIndices(s.source, |s.source|, CutBefore(cuts, j), cuts[j]);
    assert s.source[..|s.source|] == s.source;
    assert RecordBacked(s.source, s.log, s.records[j], j + 1, CutBefore(cuts, j), cuts[j]);
  }

  /** The record that covers run turn `t`. */
  function RecordOfTurn(cuts: seq<nat>, t: nat): nat
    requires cuts != []
  {
    if |cuts| == 1 || LastCut(cuts[..|cuts| - 1]) < t then |cuts| - 1 else RecordOfTurn(cuts[..|cuts| - 1], t)
  }

  lemma {:induction false} RecordOfTurnIsUnique(cuts: seq<nat>, t: nat)
    requires Cuts(cuts) && 1 <= t <= LastCut(cuts)
    ensures RecordOfTurn(cuts, t) < |cuts|
    ensures forall j :: 0 <= j < |cuts| ==> (CutBefore(cuts, j) < t <= cuts[j] <==> j == RecordOfTurn(cuts, t))
  {
    var n := |cuts| - 1;
    var init := cuts[..n];
    assert Cuts(init);
    if n > 0 && LastCut(init) >= t {
      RecordOfTurnIsUnique(init, t);
      forall j | 0 <= j < n ensures CutBefore(cuts, j) == CutBefore(init, j) {
        assert cuts[..j] == init[..j];
      }
    } else {
      forall j | 0 <= j < n ensures cuts[j] < t {
        CutsBelowLast(init, j);
      }
    }
  }

  /** `i` is the source index of exactly one record, `j`. */
  ghost predicate OnlyIn(records: seq<Record>, i: nat, j: nat) {
    && j < |records| && i in records[j].sourceIndices
    && forall other :: 0 <= other < |records| && other != j ==> i !in records[other].sourceIndices
  }

  ghost predicate NoRecordHas(records: seq<Record>, i: nat) {
    forall j :: 0 <= j < |records| ==> i !in records[j].sourceIndices
  }

  lemma RecordMembers(s: State, trajectory: seq<Message>, cuts: seq<nat>, j: nat, i: nat)
    requires Invariant(s, trajectory, cuts) && j < |cuts| && i < |trajectory|
    ensures |s.records| == |cuts| && Ascending(s.records[j].sourceIndices)
    ensures i in s.records[j].sourceIndices
       <==> !Pinned(trajectory[i]) && CutBefore(cuts, j) < TurnAt(trajectory, i) <= cuts[j]
  {
    hide Invariant;
    RecordIndices(s, trajectory, cuts, j);
    IndicesInMembers(|trajectory|, TurnsBetween(trajectory, CutBefore(cuts, j), cuts[j]));
  }

  /** A message leaves the request exactly when one record takes it. */
  lemma EachMessageInOnePlace(s: State, trajectory: seq<Message>, cuts: seq<nat>, i: nat)
    requires Invariant(s, trajectory, cuts) && i < |trajectory|
    ensures Ascending(IndicesOf(s.request))
    ensures Pinned(trajectory[i]) ==> i in IndicesOf(s.request)
    ensures i in IndicesOf(s.request) ==> NoRecordHas(s.records, i)
    ensures i !in IndicesOf(s.request) ==>
      TurnAt(trajectory, i) >= 1 && LastCut(cuts) >= 1 && OnlyIn(s.records, i, RecordOfTurn(cuts, TurnAt(trajectory, i)))
  {
    hide Invariant, IndicesOf, IndicesIn, TurnAt, LastCut, CutBefore, RecordOfTurn, VisibleSet, Cuts;
    var t := TurnAt(trajectory, i);
    InRequestExactly(s, trajectory, cuts, i);
    CutsOf(s, trajectory, cuts);
    forall j | 0 <= j < |cuts|
      ensures i in s.records[j].sourceIndices <==> !Pinned(trajectory[i]) && CutBefore(cuts, j) < t <= cuts[j]
      ensures CutBefore(cuts, j) < cuts[j] <= LastCut(cuts)
    {
      RecordMembers(s, trajectory, cuts, j, i);
      CutsBelowLast(cuts, j);
    }
    if i !in IndicesOf(s.request) {
      RecordOfTurnIsUnique(cuts, t);
    }
  }

  lemma InRequestExactly(s: State, trajectory: seq<Message>, cuts: seq<nat>, i: nat)
    requires Invariant(s, trajectory, cuts) && i < |trajectory|
    ensures Ascending(IndicesOf(s.request))
    ensures i in IndicesOf(s.request) <==> Pinned(trajectory[i]) || !(1 <= TurnAt(trajectory, i) <= LastCut(cuts))
  {
    hide Invariant, IndicesOf, IndicesIn, TurnAt, LastCut;
    RequestIndices(s, trajectory, cuts);
    IndicesInMembers(|trajectory|, VisibleSet(trajectory, LastCut(cuts)));
  }

  lemma CutsOf(s: State, trajectory: seq<Message>, cuts: seq<nat>)
    requires Invariant(s, trajectory, cuts)
    ensures Cuts(cuts) && |s.records| == |cuts| && LastCut(cuts) <= Assistants(trajectory)
  {
  }

  /** Live summaries and records match one to one, in order. */
  lemma SummariesMatchRecords(s: State, trajectory: seq<Message>, cuts: seq<nat>)
    requires Invariant(s, trajectory, cuts)
    ensures Replacements(s.request) == SummariesOf(s.records)
  {
    SourceMessages(s, trajectory, cuts);
    ReplacementsOfView(s.source, cuts, SummariesOf(s.records));
    OpenedCountBounds(cuts, Assistants(trajectory));
    assert SummariesOf(s.records)[..|s.records|] == SummariesOf(s.records);
  }

  /** Conservation over every run: the request lists source indices in strictly increasing order and keeps
      every SYSTEM and USER message; each other message is in the request or in exactly one record, once;
      and the summaries in the request are those of the records, in order. */
  lemma RunConservesMessages(cfg: Config, system: Message, task: Message, inputs: seq<TurnInput>, i: nat)
    requires Prompts(system, task) && WellFormed(inputs)
    requires i < |RunOf(cfg, system, task, inputs).trajectory|
    ensures var run := RunOf(cfg, system, task, inputs);
      var s := run.state;
      && Ascending(IndicesOf(s.request))
      && (Pinned(run.trajectory[i]) ==> i in IndicesOf(s.request))
      && (i in IndicesOf(s.request) ==> NoRecordHas(s.records, i))
      && (i !in IndicesOf(s.request) ==> exists j: nat :: OnlyIn(s.records, i, j))
      && (forall j :: 0 <= j < |s.records| ==> Ascending(s.records[j].sourceIndices))
      && Replacements(s.request) == SummariesOf(s.records)
  {
    hide RunOf, Invariant;
    var run := RunOf(cfg, system, task, inputs);
    RunKeepsInvariant(cfg, system, task, inputs);
    EachMessageInOnePlace(run.state, run.trajectory, run.cuts, i);
    SummariesMatchRecords(run.state, run.trajectory, run.cuts);
    CutsOf(run.state, run.trajectory, run.cuts);
    forall j | 0 <= j < |run.cuts| ensures Ascending(run.state.records[j].sourceIndices) {
      RecordMembers(run.state, run.trajectory, run.cuts, j, i);
    }
  }
}
