/** When a tail window keeps turns together, and when it sends a TOOL message without its ASSISTANT message. */
module WindowTurns {
  import opened Prelude
  import opened Messages
  import opened Planning
  import opened TailWindows
  import opened History
  import opened HistoryView
  import opened HistoryInvariant
  import opened HistoryRun
  import opened RequestContents

  /** Positions `i` and `j` hold the ASSISTANT message and a TOOL message of one turn. */
  ghost predicate OfOneTurn(ms: seq<Message>, i: nat, j: nat) {
    i < |ms| && j < |ms| && ms[i].role.Assistant? && ms[j].role.Tool? && TurnAt(ms, i) == TurnAt(ms, j)
  }

  /** The window keeps TOOL message `j` of a turn without the turn's ASSISTANT message `i`. */
  ghost predicate SplitAt(ms: seq<Message>, limits: Limits, i: nat, j: nat) {
    OfOneTurn(ms, i, j) && StillFits(ms, limits, j) && !StillFits(ms, limits, i)
  }

  const FOUR_MESSAGES := [Message(System, 4, 0), Message(User, 4, 1), Message(Assistant, 4, 2), Message(Tool, 4, 3)]
  const THREE_ALLOWED := Limits(Some(3), None, 0, 0)

  lemma FourPositions()
    ensures PinnedSet(FOUR_MESSAGES) == {0, 1} && Free(FOUR_MESSAGES) == {2, 3}
    ensures IndicesIn(4, {0, 1}) == [0, 1] && IndicesIn(4, {2, 3}) == [2, 3] && IndicesIn(4, {0, 1, 3}) == [0, 1, 3]
  {
    assert PinnedSet(FOUR_MESSAGES) == {0, 1} && Free(FOUR_MESSAGES) == {2, 3};
    FourIndices({0, 1});
    FourIndices({2, 3});
    FourIndices({0, 1, 3});
  }

  lemma FourIndices(s: set<nat>)
    ensures IndicesIn(4, s) == (if 0 in s then [0] else []) + (if 1 in s then [1] else [])
                               + (if 2 in s then [2] else []) + (if 3 in s then [3] else [])
  {
    assert IndicesIn(0, s) == [];
    IndicesStep(0, s);
    IndicesStep(1, s);
    IndicesStep(2, s);
    IndicesStep(3, s);
  }

  /** A tail window does not respect turns: it can keep a TOOL message and drop its ASSISTANT message. */
  lemma TailWindowSplitsTurns()
    ensures TailWindowResult(FOUR_MESSAGES, THREE_ALLOWED).selection.included == [0, 1, 3]
  {
    hide Scan, IndicesIn, TailWindowResult;
    FourPositions();
    assert Capacity(FOUR_MESSAGES, THREE_ALLOWED) == Some(1);
    ScanByCount(FOUR_MESSAGES, THREE_ALLOWED, [2, 3]);
    assert Scan(FOUR_MESSAGES, THREE_ALLOWED, [2, 3]) == [3];
    assert PinnedSet(FOUR_MESSAGES) + Kept(FOUR_MESSAGES, THREE_ALLOWED) == {0, 1, 3};
    WindowOfKept(FOUR_MESSAGES, THREE_ALLOWED);
  }

  /** A turn is split at `i` and `j` exactly if, in the scan from newest to oldest, its TOOL message still
      fits and its ASSISTANT message then does not. */
  lemma SplitsExactly(ms: seq<Message>, limits: Limits, i: nat, j: nat)
    requires OfOneTurn(ms, i, j)
    ensures var included := TailWindowResult(ms, limits).selection.included;
      j in included && i !in included <==> SplitAt(ms, limits, i, j)
  {
    hide TailWindowResult, StillFits, Kept;
    IncludedUnpinned(ms, limits, i);
    IncludedUnpinned(ms, limits, j);
  }

  lemma IncludedUnpinned(ms: seq<Message>, limits: Limits, i: nat)
    requires i < |ms| && !Pinned(ms[i])
    ensures i in TailWindowResult(ms, limits).selection.included <==> StillFits(ms, limits, i)
  {
    hide TailWindowResult, StillFits, Kept;
    TailWindowIncludes(ms, limits);
    TailWindowTakesExactly(ms, limits, i);
    assert i in TailWindowResult(ms, limits).selection.included
       <==> i in ToSet(TailWindowResult(ms, limits).selection.included);
  }

  /** Under a message limit alone that is a count: there is room for the messages from the TOOL message on, but
      not for those from the ASSISTANT message on. */
  lemma CountSplitsExactly(ms: seq<Message>, limits: Limits, i: nat, j: nat)
    requires limits.maxTokens.None? && limits.maxMessages.Some? && OfOneTurn(ms, i, j)
    ensures SplitAt(ms, limits, i, j)
       <==> |After(Free(ms), j)| < limits.maxMessages.value - |PinnedSet(ms)| <= |After(Free(ms), i)|
  {
    hide StillFits, Kept, After;
    TailWindowTakesExactly(ms, limits, i);
    TailWindowTakesExactly(ms, limits, j);
    KeptByCount(ms, limits, i);
    KeptByCount(ms, limits, j);
  }

  /** The ASSISTANT message that opens the turn of position `j`. */
  lemma {:induction false} OpenerOf(ms: seq<Message>, j: nat) returns (i: nat)
    requires j < |ms| && TurnAt(ms, j) >= 1
    ensures i <= j && ms[i].role.Assistant? && TurnAt(ms, i) == TurnAt(ms, j)
  {
    if ms[j].role.Assistant? {
      i := j;
    } else {
      assert ms[..j + 1][..j] == ms[..j] && Assistants(ms[..0]) == 0;
      i := OpenerOf(ms, j - 1);
    }
  }

  lemma OneOpener(ms: seq<Message>, i: nat, k: nat)
    requires i < |ms| && k < |ms| && ms[i].role.Assistant? && ms[k].role.Assistant?
    requires TurnAt(ms, i) == TurnAt(ms, k)
    ensures i == k
  {
    assert ms[..k + 1][..k] == ms[..k] && ms[..i + 1][..i] == ms[..i];
    if i < k {
      AssistantsMonotone(ms, i + 1, k);
    } else if k < i {
      AssistantsMonotone(ms, k + 1, i);
    }
  }

  /** Position `p` comes after the ASSISTANT message of its own turn, if it holds a TOOL message. */
  ghost predicate Follows(items: seq<Item>, ms: seq<Message>, p: nat) {
    p < |items| && items[p].message.role.Tool? ==>
      && items[p].SourceItem? && items[p].index < |ms|
      && exists q: nat :: q < p && OpensTurn(items, ms, q, TurnAt(ms, items[p].index))
  }

  ghost predicate NoSplit(ms: seq<Message>, limits: Limits) {
    forall i: nat, j: nat {:trigger OfOneTurn(ms, i, j)} :: OfOneTurn(ms, i, j) ==> !SplitAt(ms, limits, i, j)
  }

  lemma WindowFollows(source: seq<Item>, ms: seq<Message>, limits: Limits, included: seq<nat>, p: nat)
    requires IsWindow(source, ms, limits, included) && NoSplit(ms, limits)
    ensures Follows(Pick(source, included), ms, p)
  {
    hide StillFits, Pick, TailWindowResult;
    PickedItems(source, included);
    if p < |included| && Pick(source, included)[p].message.role.Tool? {
      var j := included[p];
      assert ms[j] == source[j].message;
      ToolsAreInTurns(ms, j);
      var i := OpenerOf(ms, j);
      assert OfOneTurn(ms, i, j);
      SplitsExactly(ms, limits, i, j);
      var q: nat :| q < |included| && included[q] == i;
      assert ms[i] == source[i].message;
      assert OpensTurn(Pick(source, included), ms, q, TurnAt(ms, j));
    }
  }

  lemma SplitBreaks(source: seq<Item>, ms: seq<Message>, limits: Limits, included: seq<nat>, i: nat, j: nat)
    returns (p: nat)
    requires IsWindow(source, ms, limits, included) && SplitAt(ms, limits, i, j)
    ensures !Follows(Pick(source, included), ms, p)
  {
    hide StillFits, Pick, TailWindowResult;
    PickedItems(source, included);
    SplitsExactly(ms, limits, i, j);
    p :| p < |included| && included[p] == j;
    var items := Pick(source, included);
    assert ms[j] == source[j].message;
    forall q: nat | q < p ensures !OpensTurn(items, ms, q, TurnAt(ms, j)) {
      if OpensTurn(items, ms, q, TurnAt(ms, j)) {
        assert ms[included[q]] == source[included[q]].message;
        OneOpener(ms, i, included[q]);
      }
    }
  }

  /** `included` is the tail window of a trajectory that opens with prompts and goes on in turns. */
  ghost predicate IsWindow(source: seq<Item>, ms: seq<Message>, limits: Limits, included: seq<nat>) {
    && SourceOrder(source) && MessagesOf(source) == ms && OpensWithTurn(ms)
    && included == TailWindowResult(ms, limits).selection.included
    && Ascending(included) && forall p :: 0 <= p < |included| ==> included[p] < |source|
  }

  /** Over every tail-window run: each TOOL message sent comes after the ASSISTANT message of its own turn
      exactly when no turn of the trajectory is split. */
  lemma WindowRespectsTurnsExactly(cfg: Config, system: Message, task: Message, inputs: seq<TurnInput>,
                                   input: TurnInput)
    requires Prompts(system, task) && WellFormed(inputs + [input]) && cfg.policy == TailWindow
    ensures var run := RunOf(cfg, system, task, inputs);
      var items, ms := SentItems(cfg, run, input), run.trajectory + input.batch;
      (forall p: nat :: Follows(items, ms, p)) <==> NoSplit(ms, cfg.limits)
  {
    hide RunOf, SentItems, Step, Invariant, SyncedForTurn, Follows, TailWindowResult, SplitAt, Pick;
    var run := RunOf(cfg, system, task, inputs);
    var items, ms, s := SentItems(cfg, run, input), run.trajectory + input.batch, SyncedForTurn(run, input);
    RunOfSnoc(cfg, system, task, inputs, input);
    RunKeepsInvariant(cfg, system, task, inputs);
    TrajectoryOpensWithTurn(cfg, system, task, inputs + [input]);
    StepKeepsInvariant(cfg, run, input);
    NoReplacements(cfg, system, task, inputs);
    StepKeepsSource(cfg, run, input);
    SentIsWindow(cfg, run, input);
    TailIncluded(ms, cfg.limits);
    var included := TailWindowResult(ms, cfg.limits).selection.included;
    assert IsWindow(s.source, ms, cfg.limits, included);
    if NoSplit(ms, cfg.limits) {
      forall p: nat ensures Follows(items, ms, p) {
        WindowFollows(s.source, ms, cfg.limits, included, p);
      }
    } else {
      var i: nat, j: nat :| OfOneTurn(ms, i, j) && SplitAt(ms, cfg.limits, i, j);
      var p := SplitBreaks(s.source, ms, cfg.limits, included, i, j);
    }
  }
}
