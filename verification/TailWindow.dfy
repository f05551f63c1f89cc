/** The tail-window policy: all pinned messages plus the newest others that fit. */
module TailWindows {
  import opened Prelude
  import opened Messages
  import opened Planning

  function Free(ms: seq<Message>): set<nat> { Below(|ms|) - PinnedSet(ms) }

  /** Room left for messages that are not pinned. */
  function Capacity(ms: seq<Message>, limits: Limits): Option<nat> {
    if limits.maxMessages.None? then None
    else Some(Max(limits.maxMessages.value - |IndicesIn(|ms|, PinnedSet(ms))|, 0))
  }

  /** `free` together with the pinned messages respects both limits; the pinned ones alone may exceed the
      message limit. */
  ghost predicate Feasible(ms: seq<Message>, limits: Limits, free: set<nat>) {
    && (limits.maxMessages.Some? && free != {} ==> |PinnedSet(ms)| + |free| <= limits.maxMessages.value)
    && (limits.maxTokens.Some? ==>
          TokensIn(ms, PinnedSet(ms) + free) + limits.toolReserve + limits.responseReserve
            <= limits.maxTokens.value)
  }

  /** The test the scan applies to one candidate list. */
  predicate Admits(ms: seq<Message>, limits: Limits, candidate: seq<nat>) {
    && (Capacity(ms, limits).Some? ==> |candidate| <= Capacity(ms, limits).value)
    && TokensAllow(Pick(ms, IndicesIn(|ms|, PinnedSet(ms) + ToSet(candidate))), limits)
  }

  /** The scan from the newest of `order` to the oldest. */
  function Scan(ms: seq<Message>, limits: Limits, order: seq<nat>): seq<nat> {
    if order == [] then [] else
    var newer := Scan(ms, limits, order[1..]);
    if Admits(ms, limits, [order[0]] + newer) then [order[0]] + newer else newer
  }

  /** The result once the unpinned messages to keep are known. */
  function Window(ms: seq<Message>, limits: Limits, chosen: seq<nat>): Result {
    var pinned := IndicesIn(|ms|, PinnedSet(ms));
    var included := IndicesIn(|ms|, PinnedSet(ms) + ToSet(chosen));
    var truncated := |included| < |ms|;
    var selected := Pick(ms, included);
    var selection := BuildSelection(ms, selected, TailWindow, limits, included, truncated,
      if truncated then Some(TailWindowTruncation) else None, Max(|ms| - |included|, 0));
    Result(selected,
           if limits.maxTokens.Some? && !selection.budgetSatisfied && |included| == |pinned|
           then selection.(reason := Some(PinnedTokenOverflow)) else selection,
           None, None,
           Metadata(true, if truncated then TailWindowLimitExceeded else TailWindowLimitNotTriggered,
                    if truncated then None else Some(AllMessagesRetained),
                    MessageOverflow(ms, limits), !TokensAllow(ms, limits), pinned, None, [], []))
  }

  function TailWindowResult(ms: seq<Message>, limits: Limits): Result {
    if limits.maxMessages.None? && limits.maxTokens.None? then
      Untouched(ms, TailWindow, limits, Metadata(false, TailWindowWithoutLimits, None, false, false,
                                                 IndicesIn(|ms|, PinnedSet(ms)), None, [], []))
    else
      Window(ms, limits, Scan(ms, limits, IndicesIn(|ms|, Free(ms))))
  }

  method SelectTailWindow(ms: seq<Message>, limits: Limits) returns (r: Result)
    ensures r == TailWindowResult(ms, limits)
  {
    var pinned := IndicesIn(|ms|, PinnedSet(ms));
    var free := IndicesIn(|ms|, Free(ms));
    if limits.maxMessages.None? && limits.maxTokens.None? {
      return Untouched(ms, TailWindow, limits,
        Metadata(false, TailWindowWithoutLimits, None, false, false, pinned, None, [], []));
    }
    var remaining: Option<nat> := None;
    if limits.maxMessages.Some? {
      remaining := Some(Max(limits.maxMessages.value - |pinned|, 0));
    }
    var chosen: seq<nat> := [];
    var k := |free|;
    while k > 0
      invariant 0 <= k <= |free|
      invariant chosen == Scan(ms, limits, free[k..])
    {
      k := k - 1;
      assert free[k..][1..] == free[k + 1..];
      var candidate := [free[k]] + chosen;
      if remaining.Some? && |candidate| > remaining.value {
        continue;
      }
      var messages := Pick(ms, IndicesIn(|ms|, PinnedSet(ms) + ToSet(candidate)));
      if !TokensAllow(messages, limits) {
        continue;
      }
      chosen := candidate;
    }
    assert free[0..] == free;
    r := Window(ms, limits, chosen);
  }

  /** The scan keeps a subsequence, and its test is feasibility of the set. */
  lemma {:induction false} ScanShape(ms: seq<Message>, limits: Limits, order: seq<nat>)
    requires Ascending(order)
    ensures Ascending(Scan(ms, limits, order))
    ensures forall i :: i in Scan(ms, limits, order) ==> i in order
    ensures Scan(ms, limits, order) != [] ==> Admits(ms, limits, Scan(ms, limits, order))
  {
    if order != [] {
      var rest := order[1..];
      ScanShape(ms, limits, rest);
      var newer, kept := Scan(ms, limits, rest), Scan(ms, limits, order);
      forall a, b | 0 <= a < b < |kept| ensures kept[a] < kept[b] {
        if kept != newer {
          assert newer[b - 1] in rest;
          var j :| 0 <= j < |rest| && rest[j] == newer[b - 1];
          assert order[j + 1] == newer[b - 1];
        }
      }
    }
  }

  lemma {:induction false} DistinctCardinality(xs: seq<nat>)
    requires Ascending(xs)
    ensures |ToSet(xs)| == |xs|
  {
    if xs == [] {
      assert ToSet(xs) == {};
    } else {
      var init, last := xs[..|xs| - 1], xs[|xs| - 1];
      DistinctCardinality(init);
      assert ToSet(xs) == ToSet(init) + {last};
    }
  }

  lemma AdmitsIsFeasible(ms: seq<Message>, limits: Limits, candidate: seq<nat>)
    requires Ascending(candidate)
    ensures Admits(ms, limits, candidate) <==> Feasible(ms, limits, ToSet(candidate))
  {
    DistinctCardinality(candidate);
    PinnedCount(ms);
    TokensPick(ms, PinnedSet(ms) + ToSet(candidate), |ms|);
    assert ms[..|ms|] == ms;
  }

  lemma PinnedCount(ms: seq<Message>)
    ensures |IndicesIn(|ms|, PinnedSet(ms))| == |PinnedSet(ms)|
  {
    IndicesInCount(|ms|, PinnedSet(ms));
    assert PinnedSet(ms) * Below(|ms|) == PinnedSet(ms);
  }

  lemma FeasibleShrinks(ms: seq<Message>, limits: Limits, small: set<nat>, large: set<nat>)
    requires small <= large && Feasible(ms, limits, large)
    ensures Feasible(ms, limits, small)
  {
    TokensInMonotone(ms, PinnedSet(ms) + small, PinnedSet(ms) + large);
    assert |large| == |small| + |large - small| by { assert large == small + (large - small); }
  }

  /** `s` is `t`, or contains the newest message on which the two differ. */
  ghost predicate AtLeastAsRecent(s: set<nat>, t: set<nat>) {
    s == t || exists d :: d in s && d !in t && forall i :: i > d ==> (i in s <==> i in t)
  }

  /** Deciding on one older message keeps the order, unless it drops what a tied rival keeps. */
  lemma OlderMessage(s: set<nat>, t: set<nat>, older: nat, sTakes: bool, tTakes: bool)
    requires AtLeastAsRecent(s, t)
    requires (forall i :: i in s ==> i > older) && (forall i :: i in t ==> i > older)
    requires s == t && tTakes ==> sTakes
    ensures AtLeastAsRecent(if sTakes then s + {older} else s, if tTakes then t + {older} else t)
  {
    if s != t {
      var d :| d in s && d !in t && forall i :: i > d ==> (i in s <==> i in t);
      assert d > older;
    }
  }

  lemma ScanUnfolds(ms: seq<Message>, limits: Limits, order: seq<nat>)
    requires order != []
    ensures var newer := Scan(ms, limits, order[1..]);
      Scan(ms, limits, order) == if Admits(ms, limits, [order[0]] + newer) then [order[0]] + newer else newer
  {
    hide Admits;
  }

  lemma ConsSet(x: nat, xs: seq<nat>)
    ensures ToSet([x] + xs) == ToSet(xs) + {x}
  {
  }

  lemma WithAndWithout(other: set<nat>, rest: set<nat>, first: nat)
    ensures other * (rest + {first}) == (if first in other then other * rest + {first} else other * rest)
  {
  }

  lemma NewerThanFirst(ms: seq<Message>, limits: Limits, order: seq<nat>)
    requires order != [] && Ascending(order)
    ensures Ascending([order[0]] + Scan(ms, limits, order[1..]))
    ensures forall i :: i in ToSet(Scan(ms, limits, order[1..])) ==> i > order[0]
    ensures forall i :: i in ToSet(order[1..]) ==> i > order[0]
  {
    var rest, newer := order[1..], Scan(ms, limits, order[1..]);
    ScanShape(ms, limits, rest);
    hide Scan;
    forall b | 0 <= b < |newer| ensures order[0] < newer[b] {
      assert newer[b] in rest;
    }
  }

  lemma ScanSets(ms: seq<Message>, limits: Limits, order: seq<nat>, other: set<nat>)
    requires order != [] && Ascending(order)
    ensures Ascending([order[0]] + Scan(ms, limits, order[1..]))
    ensures var first, newer := order[0], ToSet(Scan(ms, limits, order[1..]));
      var takes := Admits(ms, limits, [first] + Scan(ms, limits, order[1..]));
      var rest := other * ToSet(order[1..]);
      && ToSet([first] + Scan(ms, limits, order[1..])) == newer + {first}
      && ToSet(Scan(ms, limits, order)) == (if takes then newer + {first} else newer)
      && other * ToSet(order) == (if first in other then rest + {first} else rest)
      && (forall i :: i in newer ==> i > first) && (forall i :: i in rest ==> i > first)
  {
    hide Admits, Scan, Ascending, ToSet;
    var first, rest, newer := order[0], order[1..], Scan(ms, limits, order[1..]);
    ScanUnfolds(ms, limits, order);
    NewerThanFirst(ms, limits, order);
    ConsSet(first, newer);
    ConsSet(first, rest);
    WithAndWithout(other, ToSet(rest), first);
    assert order == [first] + rest;
  }

  lemma {:induction false} ScanBeats(ms: seq<Message>, limits: Limits, order: seq<nat>, other: set<nat>)
    requires Ascending(order) && Feasible(ms, limits, other)
    ensures AtLeastAsRecent(ToSet(Scan(ms, limits, order)), other * ToSet(order))
  {
    if order == [] {
      assert other * ToSet(order) == {};
    } else {
      var first, rest := order[0], order[1..];
      var newer := ToSet(Scan(ms, limits, rest));
      var candidate := [first] + Scan(ms, limits, rest);
      ScanBeats(ms, limits, rest, other);
      ScanSets(ms, limits, order, other);
      if newer == other * ToSet(rest) && first in other {
        AdmitsNewest(ms, limits, candidate, newer + {first}, other);
      }
      OlderMessage(newer, other * ToSet(rest), first, Admits(ms, limits, candidate), first in other);
    }
  }

  lemma AdmitsNewest(ms: seq<Message>, limits: Limits, candidate: seq<nat>, chosen: set<nat>, other: set<nat>)
    requires ToSet(candidate) == chosen && chosen <= other && Feasible(ms, limits, other)
    requires Ascending(candidate)
    ensures Admits(ms, limits, candidate)
  {
    FeasibleShrinks(ms, limits, chosen, other);
    AdmitsIsFeasible(ms, limits, candidate);
  }

  function Kept(ms: seq<Message>, limits: Limits): set<nat> {
    ToSet(Scan(ms, limits, IndicesIn(|ms|, Free(ms))))
  }

  /** Of all sets of unpinned messages that respect the limits, the window is the most recent one;
      so nothing omitted can be added to it, and a nonempty choice respects the limits itself. */
  lemma TailWindowOptimal(ms: seq<Message>, limits: Limits, other: set<nat>)
    requires other <= Free(ms) && Feasible(ms, limits, other)
    ensures Kept(ms, limits) <= Free(ms)
    ensures AtLeastAsRecent(Kept(ms, limits), other)
    ensures Kept(ms, limits) != {} ==> Feasible(ms, limits, Kept(ms, limits))
  {
    var order := IndicesIn(|ms|, Free(ms));
    IndicesInMembers(|ms|, Free(ms));
    ScanBeats(ms, limits, order, other);
    assert other * ToSet(order) == other;
    ScanShape(ms, limits, order);
    AdmitsIsFeasible(ms, limits, Scan(ms, limits, order));
  }

  lemma TailWindowMaximal(ms: seq<Message>, limits: Limits, i: nat)
    requires i in Free(ms) && i !in Kept(ms, limits)
    ensures !Feasible(ms, limits, Kept(ms, limits) + {i})
  {
    IndicesInMembers(|ms|, Free(ms));
    ScanShape(ms, limits, IndicesIn(|ms|, Free(ms)));
    var larger := Kept(ms, limits) + {i};
    if Feasible(ms, limits, larger) {
      assert larger <= Free(ms);
      TailWindowOptimal(ms, limits, larger);
    }
  }

  /** The positions in `s` newer than `i`. */
  function After(s: set<nat>, i: nat): set<nat> { set j | j in s && j > i }

  /** Position `i` respects both limits together with the kept messages that are newer. */
  ghost predicate StillFits(ms: seq<Message>, limits: Limits, i: nat) {
    Feasible(ms, limits, After(Kept(ms, limits), i) + {i})
  }

  lemma {:induction false} ScanTakes(ms: seq<Message>, limits: Limits, order: seq<nat>, i: nat)
    requires Ascending(order) && i in order
    ensures var kept := ToSet(Scan(ms, limits, order));
      i in kept <==> Feasible(ms, limits, After(kept, i) + {i})
  {
    hide Admits, Feasible;
    var first, rest := order[0], order[1..];
    var newer := ToSet(Scan(ms, limits, rest));
    ScanSets(ms, limits, order, {});
    var kept := ToSet(Scan(ms, limits, order));
    if i == first {
      AdmitsIsFeasible(ms, limits, [first] + Scan(ms, limits, rest));
      assert After(kept, i) == newer;
    } else {
      ScanTakes(ms, limits, rest, i);
      assert first < i;
      assert After(kept, i) == After(newer, i);
    }
  }

  /** Each message that is not pinned is kept exactly if it still fits beside the newer ones kept. */
  lemma TailWindowTakesExactly(ms: seq<Message>, limits: Limits, i: nat)
    requires i in Free(ms)
    ensures i in Kept(ms, limits) <==> StillFits(ms, limits, i)
  {
    IndicesInMembers(|ms|, Free(ms));
    ScanTakes(ms, limits, IndicesIn(|ms|, Free(ms)), i);
  }

  /** Under a message limit alone the newest unpinned messages are kept, as many as there is room for. */
  lemma {:induction false} ScanByCount(ms: seq<Message>, limits: Limits, order: seq<nat>)
    requires limits.maxTokens.None? && limits.maxMessages.Some?
    ensures Scan(ms, limits, order) == order[|order| - Min(|order|, Capacity(ms, limits).value)..]
  {
    if order != [] {
      var room := Capacity(ms, limits).value;
      ScanByCount(ms, limits, order[1..]);
      assert order == [order[0]] + order[1..];
      assert Admits(ms, limits, [order[0]] + Scan(ms, limits, order[1..])) <==> |order| <= room;
    }
  }

  lemma AfterInOrder(free: set<nat>, order: seq<nat>, k: nat)
    requires Ascending(order) && ToSet(order) == free && k < |order|
    ensures |After(free, order[k])| == |order| - k - 1
  {
    DistinctCardinality(order[k + 1..]);
    forall j: nat ensures j in After(free, order[k]) <==> j in ToSet(order[k + 1..]) {
      if j in After(free, order[k]) {
        var p :| 0 <= p < |order| && order[p] == j;
        assert order[k + 1..][p - k - 1] == j;
      }
    }
    assert After(free, order[k]) == ToSet(order[k + 1..]);
  }

  /** So under a message limit alone, keeping a message is a matter of how many unpinned ones are newer. */
  lemma KeptByCount(ms: seq<Message>, limits: Limits, i: nat)
    requires limits.maxTokens.None? && limits.maxMessages.Some? && i in Free(ms)
    ensures i in Kept(ms, limits) <==> |PinnedSet(ms)| + |After(Free(ms), i)| < limits.maxMessages.value
  {
    PinnedCount(ms);
    hide Scan, After;
    var order := IndicesIn(|ms|, Free(ms));
    IndicesInMembers(|ms|, Free(ms));
    assert ToSet(order) == Free(ms);
    var k :| 0 <= k < |order| && order[k] == i;
    AfterInOrder(Free(ms), order, k);
    ScanByCount(ms, limits, order);
    var m := |order| - Min(|order|, Capacity(ms, limits).value);
    if k >= m {
      assert order[m..][k - m] == i;
    } else {
      forall p | 0 <= p < |order[m..]| ensures order[m..][p] != i {
        assert order[m..][p] == order[m + p];
      }
    }
  }

  /** Without limits nothing is dropped. */
  lemma KeptWithoutLimits(ms: seq<Message>, limits: Limits)
    requires limits.maxMessages.None? && limits.maxTokens.None?
    ensures PinnedSet(ms) + Kept(ms, limits) == Below(|ms|)
  {
    forall i | i in Free(ms) ensures i in Kept(ms, limits) {
      TailWindowTakesExactly(ms, limits, i);
    }
    KeptIsFree(ms, limits);
    assert Below(|ms|) == PinnedSet(ms) + Free(ms);
  }

  /** The request is the pinned messages and the kept ones in their original order, and no token is
      lost between what is selected and what is omitted. */
  lemma TailWindowIncludes(ms: seq<Message>, limits: Limits)
    ensures var r := TailWindowResult(ms, limits);
      && ToSet(r.selection.included) == PinnedSet(ms) + Kept(ms, limits)
      && Ascending(r.selection.included)
      && r.selected == Pick(ms, r.selection.included)
      && r.selection.selectedTokens + r.selection.omittedTokens == Tokens(ms)
  {
    hide Scan, Tokens, TokenOverflow, Pick, IndicesIn, PinnedSet, Kept;
    KeptIsFree(ms, limits);
    IncludedAre(ms, PinnedSet(ms) + Kept(ms, limits));
    TokensOfSplit(ms, PinnedSet(ms) + Kept(ms, limits));
    if limits.maxMessages.None? && limits.maxTokens.None? {
      KeptWithoutLimits(ms, limits);
      IndicesInAll(|ms|);
      PickRange(ms, |ms|);
      assert ms[..|ms|] == ms;
    } else {
      WindowOfKept(ms, limits);
    }
  }

  predicate Limited(limits: Limits) { limits.maxMessages.Some? || limits.maxTokens.Some? }

  /** What a window says of itself: whether anything was omitted, how much, and why. */
  lemma WindowRecorded(ms: seq<Message>, limits: Limits)
    ensures var r, kept := TailWindowResult(ms, limits), PinnedSet(ms) + Kept(ms, limits);
      var whole := kept == Below(|ms|);
      && (r.selection.applied <==> !whole)
      && r.selection.omittedCount == |ms| - |kept| && r.selection.compactedCount == |ms| - |kept|
      && r.selection.reason == (if Limited(limits) && Overweight(r.selected, limits) && Kept(ms, limits) == {}
                                then Some(PinnedTokenOverflow)
                                else if whole then None else Some(TailWindowTruncation))
      && r.metadata.considered == Limited(limits)
      && r.metadata.why == (if !Limited(limits) then TailWindowWithoutLimits
                            else if whole then TailWindowLimitNotTriggered else TailWindowLimitExceeded)
      && r.metadata.skip == (if Limited(limits) && whole then Some(AllMessagesRetained) else None)
      && r.metadata.messageOverflow == (limits.maxMessages.Some? && |ms| > limits.maxMessages.value)
      && r.metadata.tokenOverflow == Overweight(ms, limits)
      && r.artifact.None? && r.summary.None? && r.metadata.compactedTurns == []
  {
    hide Scan, Tokens, Pick, IndicesIn, Kept, PinnedSet, Window;
    var kept := PinnedSet(ms) + Kept(ms, limits);
    KeptIsFree(ms, limits);
    KeptCount(ms, kept);
    PinnedCount(ms);
    assert |kept| == |PinnedSet(ms)| + |Kept(ms, limits)|;
    if Limited(limits) {
      WindowOfKept(ms, limits);
      WindowFields(ms, limits, Scan(ms, limits, IndicesIn(|ms|, Free(ms))));
    } else {
      KeptWithoutLimits(ms, limits);
    }
  }

  lemma WindowFields(ms: seq<Message>, limits: Limits, chosen: seq<nat>)
    ensures var r := Window(ms, limits, chosen);
      var n, p := |r.selection.included|, |IndicesIn(|ms|, PinnedSet(ms))|;
      && r.selection.applied == (n < |ms|)
      && r.selection.omittedCount == Max(|ms| - n, 0) && r.selection.compactedCount == Max(|ms| - n, 0)
      && r.selection.reason == (if Overweight(r.selected, limits) && n == p then Some(PinnedTokenOverflow)
                                else if n < |ms| then Some(TailWindowTruncation) else None)
      && r.metadata.considered
      && r.metadata.why == (if n < |ms| then TailWindowLimitExceeded else TailWindowLimitNotTriggered)
      && r.metadata.skip == (if n < |ms| then None else Some(AllMessagesRetained))
      && r.metadata.messageOverflow == (limits.maxMessages.Some? && |ms| > limits.maxMessages.value)
      && r.metadata.tokenOverflow == Overweight(ms, limits)
      && r.artifact.None? && r.summary.None? && r.metadata.compactedTurns == []
  {
    hide Tokens, Pick, IndicesIn, PinnedSet;
  }

  lemma KeptCount(ms: seq<Message>, kept: set<nat>)
    requires kept <= Below(|ms|)
    ensures |IndicesIn(|ms|, kept)| == |kept| <= |ms| && (|kept| == |ms| <==> kept == Below(|ms|))
  {
    IndicesInCount(|ms|, kept);
    assert kept * Below(|ms|) == kept;
    BelowCount(|ms|);
    assert Below(|ms|) == kept + (Below(|ms|) - kept);
  }

  lemma BelowCount(n: nat)
    ensures |Below(n)| == n
  {
  }

  lemma WindowOfKept(ms: seq<Message>, limits: Limits)
    requires limits.maxMessages.Some? || limits.maxTokens.Some?
    ensures var r := TailWindowResult(ms, limits);
      var kept := PinnedSet(ms) + Kept(ms, limits);
      && r.selection.included == IndicesIn(|ms|, kept)
      && r.selected == Pick(ms, r.selection.included)
      && r.selection.selectedTokens == Tokens(r.selected)
      && r.selection.omittedTokens == Tokens(Pick(ms, IndicesIn(|ms|, Below(|ms|) - ToSet(r.selection.included))))
  {
    hide Scan, Tokens, TokenOverflow, Pick, IndicesIn, PinnedSet;
  }

  lemma KeptIsFree(ms: seq<Message>, limits: Limits)
    ensures PinnedSet(ms) + Kept(ms, limits) <= Below(|ms|) && PinnedSet(ms) !! Kept(ms, limits)
  {
    IndicesInMembers(|ms|, Free(ms));
    ScanShape(ms, limits, IndicesIn(|ms|, Free(ms)));
  }

  lemma IncludedAre(ms: seq<Message>, kept: set<nat>)
    requires kept <= Below(|ms|)
    ensures ToSet(IndicesIn(|ms|, kept)) == kept && Ascending(IndicesIn(|ms|, kept))
  {
    IndicesInMembers(|ms|, kept);
  }

  lemma TokensOfSplit(ms: seq<Message>, kept: set<nat>)
    ensures Tokens(Pick(ms, IndicesIn(|ms|, kept))) + Tokens(Pick(ms, IndicesIn(|ms|, Below(|ms|) - kept)))
         == Tokens(ms)
  {
    TokensPick(ms, kept, |ms|);
    TokensPick(ms, Below(|ms|) - kept, |ms|);
    assert ms[..|ms|] == ms;
    TokensInSplit(ms, kept, Below(|ms|) - kept);
  }
}
