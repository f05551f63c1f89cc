/** A closed form for the request history: what every trajectory index has become, given which turns each
    replacement record covers. */
module HistoryView {
  import opened Prelude
  import opened Messages
  import opened History

  /** `cuts[j]` is the last run turn that record `j` covers; its first is the turn after `CutBefore`. */
  function LastCut(cuts: seq<nat>): nat { if cuts == [] then 0 else cuts[|cuts| - 1] }

  function CutBefore(cuts: seq<nat>, j: nat): nat
    requires j <= |cuts|
  {
    LastCut(cuts[..j])
  }

  ghost predicate Cuts(cuts: seq<nat>) {
    Ascending(cuts) && (cuts != [] ==> cuts[0] >= 1)
  }

  /** The record whose first covered turn is `t`, if any. */
  function OpenedBy(cuts: seq<nat>, t: nat): Option<nat> {
    if cuts == [] then None
    else if LastCut(cuts[..|cuts| - 1]) + 1 == t then Some(|cuts| - 1)
    else OpenedBy(cuts[..|cuts| - 1], t)
  }

  /** The message is an ASSISTANT or TOOL message of one of the first `m` turns. */
  predicate Gone(m: Message, turn: nat, last: nat) { !Pinned(m) && 1 <= turn <= last }

  /** What the next item of the trajectory, in turn `t`, adds to the view. */
  function ViewStep(rest: seq<Item>, item: Item, t: nat, cuts: seq<nat>, summaries: seq<Item>): seq<Item>
    requires |cuts| == |summaries|
  {
    if !Gone(item.message, t, LastCut(cuts)) then rest + [item]
    else if item.message.role.Assistant? && OpenedBy(cuts, t).Some? then
      OpenedByInRange(cuts, t);
      rest + [summaries[OpenedBy(cuts, t).value]]
    else rest
  }

  function View(source: seq<Item>, cuts: seq<nat>, summaries: seq<Item>): seq<Item>
    requires |cuts| == |summaries|
  {
    if source == [] then [] else
    var n := |source| - 1;
    ViewStep(View(source[..n], cuts, summaries), source[n], Assistants(MessagesOf(source)), cuts, summaries)
  }

  lemma {:induction false} OpenedByInRange(cuts: seq<nat>, t: nat)
    ensures OpenedBy(cuts, t).Some? ==> OpenedBy(cuts, t).value < |cuts|
  {
    if cuts != [] {
      OpenedByInRange(cuts[..|cuts| - 1], t);
    }
  }

  ghost predicate AllSystem(items: seq<Item>) {
    forall j :: 0 <= j < |items| ==> items[j].message.role.System?
  }

  lemma MessagesSnoc(items: seq<Item>, item: Item)
    ensures MessagesOf(items + [item]) == MessagesOf(items) + [item.message]
    ensures Assistants(MessagesOf(items + [item]))
         == Assistants(MessagesOf(items)) + (if item.message.role.Assistant? then 1 else 0)
  {
    assert MessagesOf(items + [item]) == MessagesOf(items) + [item.message];
    AssistantsSnoc(MessagesOf(items), item.message);
  }

  lemma MessagesInit(items: seq<Item>)
    requires items != []
    ensures MessagesOf(items)[..|items| - 1] == MessagesOf(items[..|items| - 1])
    ensures Assistants(MessagesOf(items))
         == Assistants(MessagesOf(items[..|items| - 1])) + (if items[|items| - 1].message.role.Assistant? then 1 else 0)
  {
    assert MessagesOf(items)[..|items| - 1] == MessagesOf(items[..|items| - 1]);
  }

  lemma AssistantsOfStep(rest: seq<Item>, item: Item, begun: nat, cuts: seq<nat>, summaries: seq<Item>)
    requires |cuts| == |summaries| && AllSystem(summaries)
    requires Assistants(MessagesOf(rest)) == Max(begun - LastCut(cuts), 0)
    ensures var t := begun + (if item.message.role.Assistant? then 1 else 0);
      Assistants(MessagesOf(ViewStep(rest, item, t, cuts, summaries))) == Max(t - LastCut(cuts), 0)
  {
    var t := begun + (if item.message.role.Assistant? then 1 else 0);
    if !Gone(item.message, t, LastCut(cuts)) {
      MessagesSnoc(rest, item);
    } else if item.message.role.Assistant? && OpenedBy(cuts, t).Some? {
      OpenedByInRange(cuts, t);
      MessagesSnoc(rest, summaries[OpenedBy(cuts, t).value]);
    }
  }

  /** Relative numbering: the view has begun exactly the turns after the last cut. */
  lemma {:induction false} AssistantsOfView(source: seq<Item>, cuts: seq<nat>, summaries: seq<Item>)
    requires |cuts| == |summaries| && AllSystem(summaries)
    ensures Assistants(MessagesOf(View(source, cuts, summaries)))
         == Max(Assistants(MessagesOf(source)) - LastCut(cuts), 0)
  {
    if source != [] {
      var n := |source| - 1;
      AssistantsOfView(source[..n], cuts, summaries);
      MessagesInit(source);
      AssistantsOfStep(View(source[..n], cuts, summaries), source[n], Assistants(MessagesOf(source[..n])), cuts,
                       summaries);
    }
  }

  /** Without records the view is the trajectory itself. */
  lemma {:induction false} ViewWithoutRecords(source: seq<Item>)
    ensures View(source, [], []) == source
  {
    if source != [] {
      ViewWithoutRecords(source[..|source| - 1]);
    }
  }

  function CompactStep(rest: seq<Item>, item: Item, t: nat, k: nat, mark: Item): seq<Item> {
    if !Gone(item.message, t, k) then rest + [item]
    else if item.message.role.Assistant? && t == 1 then rest + [mark]
    else rest
  }

  /** Replacing turns 1 to k of a request, read off the turn counter alone. */
  function CompactFirst(items: seq<Item>, k: nat, mark: Item): seq<Item> {
    if items == [] then [] else
    var n := |items| - 1;
    CompactStep(CompactFirst(items[..n], k, mark), items[n], Assistants(MessagesOf(items)), k, mark)
  }

  lemma FirstTurnsAt(items: seq<Item>, n: nat, k: nat)
    requires n < |items|
    ensures n in FirstTurns(MessagesOf(items), k)
       <==> Gone(items[n].message, Assistants(MessagesOf(items[..n + 1])), k)
  {
    assert MessagesOf(items)[..n + 1] == MessagesOf(items[..n + 1]);
  }

  /** A first-turn position exists below `n` as soon as turn 1 has begun there. */
  lemma {:induction false} HitMeansBegun(items: seq<Item>, n: nat, k: nat)
    requires n <= |items| && k >= 1
    ensures Hit(FirstTurns(MessagesOf(items), k), n) <==> Assistants(MessagesOf(items[..n])) >= 1
  {
    if n > 0 {
      HitMeansBegun(items, n - 1, k);
      FirstTurnsAt(items, n - 1, k);
      assert items[..n][..n - 1] == items[..n - 1];
      MessagesInit(items[..n]);
    }
  }

  /** The rebuild loop, driven by a set of positions, computes the same list. */
  lemma {:induction false} ReplacedIsCompactFirst(items: seq<Item>, n: nat, k: nat, mark: Item)
    requires n <= |items| && k >= 1
    ensures Replaced(items[..n], FirstTurns(MessagesOf(items), k), mark) == CompactFirst(items[..n], k, mark)
  {
    if n > 0 {
      ReplacedIsCompactFirst(items, n - 1, k, mark);
      FirstTurnsAt(items, n - 1, k);
      HitMeansBegun(items, n - 1, k);
      assert items[..n][..n - 1] == items[..n - 1];
      MessagesInit(items[..n]);
    }
  }

  lemma OpenedByNext(cuts: seq<nat>, next: nat, t: nat)
    ensures OpenedBy(cuts + [next], t)
         == if LastCut(cuts) + 1 == t then Some(|cuts|) else OpenedBy(cuts, t)
  {
    assert (cuts + [next])[..|cuts|] == cuts;
  }

  lemma {:induction false} OpenedByBounded(cuts: seq<nat>, t: nat)
    requires Cuts(cuts) && t > LastCut(cuts)
    ensures OpenedBy(cuts, t).None?
  {
    if cuts != [] {
      var init := cuts[..|cuts| - 1];
      assert init != [] ==> init[|init| - 1] < cuts[|cuts| - 1];
      OpenedByBounded(init, t);
    }
  }

  lemma CompactFirstSnoc(items: seq<Item>, item: Item, k: nat, mark: Item)
    ensures CompactFirst(items + [item], k, mark)
         == CompactStep(CompactFirst(items, k, mark), item,
                        Assistants(MessagesOf(items)) + (if item.message.role.Assistant? then 1 else 0), k, mark)
  {
    assert (items + [item])[..|items|] == items;
    MessagesSnoc(items, item);
  }

  /** Turn `t` of the run is relative turn `t - last` of the request, as far as one item can tell. */
  lemma StepsAgree(rest: seq<Item>, item: Item, t: nat, cuts: seq<nat>, summaries: seq<Item>, k: nat, mark: Item,
                   relative: nat)
    requires |cuts| == |summaries| && Cuts(cuts) && k >= 1
    requires !Gone(item.message, t, LastCut(cuts))
    requires !Pinned(item.message) ==> relative == Max(t - LastCut(cuts), 0)
    ensures CompactStep(rest, item, relative, k, mark)
         == ViewStep(rest, item, t, cuts + [LastCut(cuts) + k], summaries + [mark])
  {
    assert LastCut(cuts + [LastCut(cuts) + k]) == LastCut(cuts) + k;
    OpenedByNext(cuts, LastCut(cuts) + k, t);
    if t > LastCut(cuts) {
      OpenedByBounded(cuts, t);
    }
  }

  lemma CompactionOfStep(rest: seq<Item>, after: seq<Item>, item: Item, begun: nat, cuts: seq<nat>,
                         summaries: seq<Item>, k: nat, mark: Item)
    requires |cuts| == |summaries| && AllSystem(summaries) && Cuts(cuts) && k >= 1
    requires after == CompactFirst(rest, k, mark)
    requires Assistants(MessagesOf(rest)) == Max(begun - LastCut(cuts), 0)
    ensures var t := begun + (if item.message.role.Assistant? then 1 else 0);
      CompactFirst(ViewStep(rest, item, t, cuts, summaries), k, mark)
        == ViewStep(after, item, t, cuts + [LastCut(cuts) + k], summaries + [mark])
  {
    var t := begun + (if item.message.role.Assistant? then 1 else 0);
    if !Gone(item.message, t, LastCut(cuts)) {
      var relative := Assistants(MessagesOf(rest)) + (if item.message.role.Assistant? then 1 else 0);
      CompactFirstSnoc(rest, item, k, mark);
      StepsAgree(after, item, t, cuts, summaries, k, mark, relative);
    } else {
      OpenedByNext(cuts, LastCut(cuts) + k, t);
      OpenedByInRange(cuts, t);
      if item.message.role.Assistant? && OpenedBy(cuts, t).Some? {
        CompactFirstSnoc(rest, summaries[OpenedBy(cuts, t).value], k, mark);
      }
    }
  }

  /** One more compaction moves the view by exactly one record. */
  lemma {:induction false} CompactFirstOfView(source: seq<Item>, cuts: seq<nat>, summaries: seq<Item>, k: nat,
                                              mark: Item)
    requires |cuts| == |summaries| && AllSystem(summaries) && Cuts(cuts) && k >= 1
    ensures CompactFirst(View(source, cuts, summaries), k, mark)
         == View(source, cuts + [LastCut(cuts) + k], summaries + [mark])
  {
    if source != [] {
      var init, item := source[..|source| - 1], source[|source| - 1];
      var rest := View(init, cuts, summaries);
      CompactFirstOfView(init, cuts, summaries, k, mark);
      AssistantsOfView(init, cuts, summaries);
      MessagesInit(source);
      CompactionOfStep(rest, CompactFirst(rest, k, mark), item, Assistants(MessagesOf(init)), cuts, summaries, k, mark);
    }
  }

  /** The source items of run turns `lo + 1` to `hi`, in order. */
  function Segment(source: seq<Item>, lo: nat, hi: nat): seq<Item> {
    if source == [] then [] else
    var n := |source| - 1;
    var rest := Segment(source[..n], lo, hi);
    var t := Assistants(MessagesOf(source));
    if !Pinned(source[n].message) && lo < t <= hi then rest + [source[n]] else rest
  }

  lemma {:induction false} PickFirstTurns(items: seq<Item>, n: nat, k: nat)
    requires n <= |items|
    ensures Pick(items, IndicesIn(n, FirstTurns(MessagesOf(items), k))) == Segment(items[..n], 0, k)
  {
    if n > 0 {
      var turns := FirstTurns(MessagesOf(items), k);
      PickFirstTurns(items, n - 1, k);
      FirstTurnsAt(items, n - 1, k);
      assert items[..n][..n - 1] == items[..n - 1];
      assert items[..n][n - 1] == items[n - 1];
      if n - 1 in turns {
        assert IndicesIn(n, turns)[..|IndicesIn(n, turns)| - 1] == IndicesIn(n - 1, turns);
      } else {
        assert IndicesIn(n, turns) == IndicesIn(n - 1, turns);
      }
    }
  }

  lemma SegmentSnoc(source: seq<Item>, item: Item, lo: nat, hi: nat)
    ensures var t := Assistants(MessagesOf(source)) + (if item.message.role.Assistant? then 1 else 0);
      Segment(source + [item], lo, hi)
        == Segment(source, lo, hi) + (if !Pinned(item.message) && lo < t <= hi then [item] else [])
  {
    assert (source + [item])[..|source|] == source;
    MessagesSnoc(source, item);
  }

  lemma SegmentOfStep(rest: seq<Item>, item: Item, begun: nat, cuts: seq<nat>, summaries: seq<Item>, k: nat)
    requires |cuts| == |summaries| && AllSystem(summaries) && k >= 1
    requires Assistants(MessagesOf(rest)) == Max(begun - LastCut(cuts), 0)
    ensures var t := begun + (if item.message.role.Assistant? then 1 else 0);
      Segment(ViewStep(rest, item, t, cuts, summaries), 0, k)
        == Segment(rest, 0, k)
           + (if !Pinned(item.message) && LastCut(cuts) < t <= LastCut(cuts) + k then [item] else [])
  {
    hide Segment, Assistants, MessagesOf, OpenedBy;
    var t := begun + (if item.message.role.Assistant? then 1 else 0);
    OpenedByInRange(cuts, t);
    SegmentSnoc(rest, item, 0, k);
    if Gone(item.message, t, LastCut(cuts)) && item.message.role.Assistant? && OpenedBy(cuts, t).Some? {
      SegmentSnoc(rest, summaries[OpenedBy(cuts, t).value], 0, k);
    }
  }

  /** What a compaction of the view takes is exactly the next turns of the trajectory: a summary, being a
      SYSTEM message, is never compacted again. */
  lemma {:induction false} SegmentOfView(source: seq<Item>, cuts: seq<nat>, summaries: seq<Item>, k: nat)
    requires |cuts| == |summaries| && AllSystem(summaries) && k >= 1
    ensures Segment(View(source, cuts, summaries), 0, k) == Segment(source, LastCut(cuts), LastCut(cuts) + k)
  {
    hide ViewStep, OpenedBy, LastCut;
    if source != [] {
      var n := |source| - 1;
      SegmentOfView(source[..n], cuts, summaries, k);
      AssistantsOfView(source[..n], cuts, summaries);
      MessagesInit(source);
      SegmentOfStep(View(source[..n], cuts, summaries), source[n], Assistants(MessagesOf(source[..n])), cuts, summaries,
                    k);
    }
  }

  /** Item `i` of the trajectory is source item `i`. */
  ghost predicate SourceOrder(source: seq<Item>) {
    forall i :: 0 <= i < |source| ==> source[i].SourceItem? && source[i].index == i
  }

  ghost predicate AllReplacements(items: seq<Item>) {
    forall j :: 0 <= j < |items| ==> items[j].ReplacementItem?
  }

  function Replacements(items: seq<Item>): seq<Item> {
    if items == [] then [] else
    var last := items[|items| - 1];
    Replacements(items[..|items| - 1]) + (if last.ReplacementItem? then [last] else [])
  }

  function Sources(items: seq<Item>): seq<Item> {
    if items == [] then [] else
    var last := items[|items| - 1];
    Sources(items[..|items| - 1]) + (if last.SourceItem? then [last] else [])
  }

  /** The source items of the trajectory that are still visible. */
  function VisibleItems(source: seq<Item>, last: nat): seq<Item> {
    if source == [] then [] else
    var n := |source| - 1;
    var rest := VisibleItems(source[..n], last);
    if Gone(source[n].message, Assistants(MessagesOf(source)), last) then rest else rest + [source[n]]
  }

  lemma {:induction false} SourcesOfView(source: seq<Item>, cuts: seq<nat>, summaries: seq<Item>)
    requires |cuts| == |summaries| && SourceOrder(source) && AllReplacements(summaries)
    ensures Sources(View(source, cuts, summaries)) == VisibleItems(source, LastCut(cuts))
  {
    if source != [] {
      var n := |source| - 1;
      var rest, t := View(source[..n], cuts, summaries), Assistants(MessagesOf(source));
      SourcesOfView(source[..n], cuts, summaries);
      OpenedByInRange(cuts, t);
      assert (rest + [source[n]])[..|rest|] == rest;
      if OpenedBy(cuts, t).Some? {
        assert (rest + [summaries[OpenedBy(cuts, t).value]])[..|rest|] == rest;
      }
    }
  }

  /** How many records have opened once `a` turns have begun. */
  function OpenedCount(cuts: seq<nat>, a: nat): nat {
    if cuts == [] then 0
    else if LastCut(cuts[..|cuts| - 1]) < a then |cuts|
    else OpenedCount(cuts[..|cuts| - 1], a)
  }

  lemma {:induction false} OpenedCountBounds(cuts: seq<nat>, a: nat)
    ensures OpenedCount(cuts, a) <= |cuts|
    ensures Cuts(cuts) && a >= LastCut(cuts) ==> OpenedCount(cuts, a) == |cuts|
  {
    if cuts != [] {
      var init := cuts[..|cuts| - 1];
      OpenedCountBounds(init, a);
      assert Cuts(cuts) && init != [] ==> init[|init| - 1] < cuts[|cuts| - 1];
    }
  }

  lemma {:induction false} OpenedCountStep(cuts: seq<nat>, a: nat)
    requires Cuts(cuts)
    ensures OpenedCount(cuts, a + 1)
         == OpenedCount(cuts, a) + (if OpenedBy(cuts, a + 1).Some? then 1 else 0)
    ensures OpenedBy(cuts, a + 1).Some? ==> OpenedBy(cuts, a + 1).value == OpenedCount(cuts, a)
  {
    if cuts != [] {
      var init := cuts[..|cuts| - 1];
      assert Cuts(init);
      OpenedCountStep(init, a);
      OpenedCountBounds(init, a);
      if LastCut(init) < a {
        OpenedByBounded(init, a + 1);
      }
    }
  }

  lemma ReplacementsSnoc(items: seq<Item>, item: Item)
    ensures Replacements(items + [item]) == Replacements(items) + (if item.ReplacementItem? then [item] else [])
  {
    assert (items + [item])[..|items|] == items;
  }

  lemma ReplacementsOfStep(rest: seq<Item>, item: Item, begun: nat, cuts: seq<nat>, summaries: seq<Item>)
    requires |cuts| == |summaries| && AllReplacements(summaries) && Cuts(cuts) && item.SourceItem?
    requires OpenedCount(cuts, begun) <= |cuts| && Replacements(rest) == summaries[..OpenedCount(cuts, begun)]
    ensures var t := begun + (if item.message.role.Assistant? then 1 else 0);
      && OpenedCount(cuts, t) <= |cuts|
      && Replacements(ViewStep(rest, item, t, cuts, summaries)) == summaries[..OpenedCount(cuts, t)]
  {
    ReplacementsSnoc(rest, item);
    if item.message.role.Assistant? {
      var t, c := begun + 1, OpenedCount(cuts, begun);
      OpenedCountStep(cuts, begun);
      OpenedCountBounds(cuts, t);
      if t > LastCut(cuts) {
        OpenedByBounded(cuts, t);
        assert ViewStep(rest, item, t, cuts, summaries) == rest + [item];
      } else if OpenedBy(cuts, t).Some? {
        assert ViewStep(rest, item, t, cuts, summaries) == rest + [summaries[c]];
        ReplacementsSnoc(rest, summaries[c]);
        assert summaries[..c + 1] == summaries[..c] + [summaries[c]];
      } else {
        assert ViewStep(rest, item, t, cuts, summaries) == rest;
      }
    }
  }

  /** Live summaries and replacement records match one to one, in order. */
  lemma {:induction false} ReplacementsOfView(source: seq<Item>, cuts: seq<nat>, summaries: seq<Item>)
    requires |cuts| == |summaries| && SourceOrder(source) && AllReplacements(summaries) && Cuts(cuts)
    ensures OpenedCount(cuts, Assistants(MessagesOf(source))) <= |summaries|
    ensures Replacements(View(source, cuts, summaries))
         == summaries[..OpenedCount(cuts, Assistants(MessagesOf(source)))]
  {
    hide ViewStep, OpenedCount, Cuts;
    if source == [] {
      ZeroOpened(cuts);
    } else {
      var n := |source| - 1;
      ReplacementsOfView(source[..n], cuts, summaries);
      MessagesInit(source);
      ReplacementsOfStep(View(source[..n], cuts, summaries), source[n], Assistants(MessagesOf(source[..n])), cuts,
                         summaries);
    }
  }

  lemma {:induction false} ZeroOpened(cuts: seq<nat>)
    ensures OpenedCount(cuts, 0) == 0
  {
    if cuts != [] {
      ZeroOpened(cuts[..|cuts| - 1]);
    }
  }
}
