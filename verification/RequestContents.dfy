/** What the model is sent, turn by turn, under every policy. */
module RequestContents {
  import opened Prelude
  import opened Messages
  import opened Planning
  import opened TailWindows
  import opened ContextPlans
  import opened History
  import opened RequestContext
  import opened HistoryView
  import opened HistoryInvariant
  import opened HistoryRun
  import opened Conservation

  /** The items sent in the turn that `input` brings to `run`. */
  function SentItems(cfg: Config, run: Run, input: TurnInput): seq<Item> {
    SelectedItems(SyncedForTurn(run, input), PlanOfTurn(cfg, run, input), |run.requests| + 1)
  }

  /** Each item is the source item it names, or a summary. */
  ghost predicate DrawnFrom(items: seq<Item>, source: seq<Item>) {
    forall x :: x in items ==> x.SourceItem? ==> x.index < |source| && x == source[x.index]
  }

  /** A request is drawn from the trajectory in trajectory order. */
  ghost predicate InOrder(items: seq<Item>, source: seq<Item>) {
    DrawnFrom(items, source) && Ascending(IndicesOf(items))
  }

  lemma {:induction false} ViewMembers(source: seq<Item>, cuts: seq<nat>, summaries: seq<Item>)
    requires |cuts| == |summaries|
    ensures forall x :: x in View(source, cuts, summaries) ==> x in source || x in summaries
  {
    if source != [] {
      var n := |source| - 1;
      ViewMembers(source[..n], cuts, summaries);
      OpenedByInRange(cuts, Assistants(MessagesOf(source)));
    }
  }

  lemma RequestInOrder(s: State, trajectory: seq<Message>, cuts: seq<nat>)
    requires Invariant(s, trajectory, cuts)
    ensures InOrder(s.request, s.source)
  {
    hide View, RecordsBacked, Cuts, VisibleSet;
    CutsOf(s, trajectory, cuts);
    RequestIndices(s, trajectory, cuts);
    IndicesInMembers(|trajectory|, VisibleSet(trajectory, LastCut(cuts)));
    ViewMembers(s.source, cuts, SummariesOf(s.records));
    SourceMessages(s, trajectory, cuts);
  }

  /** The positions a tail window includes: ascending, in range, and all the pinned ones. */
  lemma TailIncluded(ms: seq<Message>, limits: Limits)
    ensures var included := TailWindowResult(ms, limits).selection.included;
      && Ascending(included)
      && (forall p :: 0 <= p < |included| ==> included[p] < |ms|)
      && (forall i: nat :: i < |ms| && Pinned(ms[i]) ==> i in included)
  {
    if limits.maxMessages.None? && limits.maxTokens.None? {
      hide Tokens, Pick, IndicesIn;
      forall i: nat | i < |ms| ensures i in Range(|ms|) {
        assert Range(|ms|)[i] == i;
      }
    } else {
      hide TailWindowResult, Feasible, Kept;
      TailWindowIncludes(ms, limits);
      KeptIsFree(ms, limits);
      MembersOf(ms, TailWindowResult(ms, limits).selection.included, Kept(ms, limits));
    }
  }

  lemma MembersOf(ms: seq<Message>, included: seq<nat>, kept: set<nat>)
    requires ToSet(included) == PinnedSet(ms) + kept && PinnedSet(ms) + kept <= Below(|ms|)
    ensures forall p :: 0 <= p < |included| ==> included[p] < |ms|
    ensures forall i: nat :: i < |ms| && Pinned(ms[i]) ==> i in included
  {
    forall p | 0 <= p < |included| ensures included[p] < |ms| {
      assert included[p] in ToSet(included);
    }
    forall i: nat | i < |ms| && Pinned(ms[i]) ensures i in included {
      assert i in PinnedSet(ms) && i in ToSet(included);
    }
  }

  lemma {:induction false} PickedItems(source: seq<Item>, included: seq<nat>)
    requires forall p :: 0 <= p < |included| ==> included[p] < |source|
    ensures |Pick(source, included)| == |included|
    ensures forall p :: 0 <= p < |included| ==> Pick(source, included)[p] == source[included[p]]
  {
    if included != [] {
      PickedItems(source, included[..|included| - 1]);
    }
  }

  lemma {:induction false} PickedIndices(source: seq<Item>, included: seq<nat>)
    requires SourceOrder(source) && forall p :: 0 <= p < |included| ==> included[p] < |source|
    ensures IndicesOf(Pick(source, included)) == included
  {
    hide IndicesOf;
    if included == [] {
      NoIndices();
    } else {
      var n := |included| - 1;
      PickedIndices(source, included[..n]);
      IndicesSnoc(Pick(source, included[..n]), source[included[n]]);
      assert included[..n] + [included[n]] == included;
    }
  }

  lemma NoIndices()
    ensures IndicesOf([]) == []
  {
  }

  /** A pick of the trajectory is drawn from it in order. */
  lemma PickInOrder(source: seq<Item>, included: seq<nat>)
    requires SourceOrder(source) && Ascending(included)
    requires forall p :: 0 <= p < |included| ==> included[p] < |source|
    ensures InOrder(Pick(source, included), source)
  {
    hide IndicesOf, Pick;
    PickedItems(source, included);
    PickedIndices(source, included);
    var items := Pick(source, included);
    forall x | x in items ensures x.SourceItem? ==> x.index < |source| && x == source[x.index] {
      var p :| 0 <= p < |items| && items[p] == x;
      assert x == source[included[p]];
    }
  }

  lemma PickAll(items: seq<Item>)
    ensures Pick(items, Range(|items|)) == items
  {
    PickRange(items, |items|);
    assert items[..|items|] == items;
  }

  /** Outside the tail window, what is sent is the whole request history as the turn leaves it. */
  lemma SentIsRequest(cfg: Config, run: Run, input: TurnInput)
    requires cfg.policy != TailWindow
    ensures SentItems(cfg, run, input) == Step(cfg, run, input).state.request
  {
    hide FinalPlan, Synced, SnapshotOf, EntryFor, Takes;
    var s := SyncedForTurn(run, input);
    PlanTakesTurns(s, cfg.policy, cfg.limits, input.session, |run.requests| + 1, input.reply);
    PickAll(s.request);
  }

  /** In a tail-window run the request history is the trajectory, and a window of it is sent. */
  lemma SentIsWindow(cfg: Config, run: Run, input: TurnInput)
    requires cfg.policy == TailWindow && run.cuts == []
    requires Invariant(SyncedForTurn(run, input), run.trajectory + input.batch, run.cuts)
    ensures var s := SyncedForTurn(run, input);
      && SentItems(cfg, run, input)
           == Pick(s.source, TailWindowResult(run.trajectory + input.batch, cfg.limits).selection.included)
      && SourceOrder(s.source) && |s.source| == |run.trajectory + input.batch|
      && MessagesOf(s.source) == run.trajectory + input.batch
  {
    hide Synced, TailWindowResult, View, Takes;
    var s := SyncedForTurn(run, input);
    SourceMessages(s, run.trajectory + input.batch, run.cuts);
    assert SummariesOf(s.records) == [];
    ViewWithoutRecords(s.source);
    PlanTakesTurns(s, cfg.policy, cfg.limits, input.session, |run.requests| + 1, input.reply);
  }

  /** Every request of every policy lists trajectory messages in order, each at most once. */
  lemma SentInOrder(cfg: Config, run: Run, input: TurnInput)
    requires RunInvariant(run) && (input.batch != [] ==> input.batch[0].role.Assistant?)
    requires cfg.policy == TailWindow ==> run.cuts == []
    ensures InOrder(SentItems(cfg, run, input), SyncedForTurn(run, input).source)
  {
    hide Invariant, SentItems, Step, Synced, TailWindowResult;
    StepKeepsInvariant(cfg, run, input);
    var s, trajectory := SyncedForTurn(run, input), run.trajectory + input.batch;
    if cfg.policy == TailWindow {
      SentIsWindow(cfg, run, input);
      TailIncluded(trajectory, cfg.limits);
      PickInOrder(s.source, TailWindowResult(trajectory, cfg.limits).selection.included);
    } else {
      var next := Step(cfg, run, input);
      SentIsRequest(cfg, run, input);
      RequestInOrder(next.state, next.trajectory, next.cuts);
      StepKeepsSource(cfg, run, input);
    }
  }

  lemma StepKeepsSource(cfg: Config, run: Run, input: TurnInput)
    ensures Step(cfg, run, input).state.source == SyncedForTurn(run, input).source
    ensures Step(cfg, run, input).trajectory == run.trajectory + input.batch
    ensures Step(cfg, run, input).sent == run.sent + [MessagesOf(SentItems(cfg, run, input))]
  {
    hide FinalPlan, Synced, EntryFor;
  }

  lemma {:induction false} ViewStartsWithPrompts(source: seq<Item>, cuts: seq<nat>, summaries: seq<Item>)
    requires |cuts| == |summaries| && |source| >= 2
    requires Pinned(source[0].message) && Pinned(source[1].message)
    ensures |View(source, cuts, summaries)| >= 2 && View(source, cuts, summaries)[..2] == source[..2]
  {
    var n := |source| - 1;
    if n >= 2 {
      ViewStartsWithPrompts(source[..n], cuts, summaries);
    } else {
      assert View(source[..0], cuts, summaries) == [];
      assert source[..1][..0] == source[..0];
      assert View(source[..1], cuts, summaries) == [source[0]];
      assert View(source, cuts, summaries) == [source[0], source[1]];
    }
  }

  lemma WindowStartsWithPrompts(source: seq<Item>, included: seq<nat>)
    requires |source| >= 2 && SourceOrder(source) && Ascending(included) && 0 in included && 1 in included
    requires forall p :: 0 <= p < |included| ==> included[p] < |source|
    ensures |Pick(source, included)| >= 2 && Pick(source, included)[..2] == source[..2]
  {
    FirstTwo(included);
    PickedItems(source, included);
    var window := Pick(source, included);
    assert window[0] == source[0] && window[1] == source[1];
  }

  lemma FirstTwo(xs: seq<nat>)
    requires Ascending(xs) && 0 in xs && 1 in xs
    ensures |xs| >= 2 && xs[0] == 0 && xs[1] == 1
  {
    var p :| 0 <= p < |xs| && xs[p] == 0;
    var q :| 0 <= q < |xs| && xs[q] == 1;
    assert p == 0;
    assert xs[0] < xs[1] <= xs[q];
  }

  lemma SentStartsWithPrompts(cfg: Config, run: Run, input: TurnInput)
    requires RunInvariant(run) && (input.batch != [] ==> input.batch[0].role.Assistant?)
    requires cfg.policy == TailWindow ==> run.cuts == []
    ensures var ms := MessagesOf(SentItems(cfg, run, input)); |ms| >= 2 && ms[..2] == run.trajectory[..2]
  {
    hide Invariant, SentItems, Step, Synced, TailWindowResult;
    StepKeepsInvariant(cfg, run, input);
    var s, trajectory := SyncedForTurn(run, input), run.trajectory + input.batch;
    assert trajectory[0] == run.trajectory[0] && trajectory[1] == run.trajectory[1];
    assert trajectory[..2] == run.trajectory[..2];
    if cfg.policy == TailWindow {
      SentIsWindow(cfg, run, input);
      TailIncluded(trajectory, cfg.limits);
      WindowStartsWithPrompts(s.source, TailWindowResult(trajectory, cfg.limits).selection.included);
    } else {
      var next := Step(cfg, run, input);
      SentIsRequest(cfg, run, input);
      StepKeepsSource(cfg, run, input);
      RequestStartsWithPrompts(next.state, trajectory, next.cuts);
    }
    assert s.source[..2][0] == s.source[0] && s.source[..2][1] == s.source[1];
  }

  lemma RequestStartsWithPrompts(s: State, trajectory: seq<Message>, cuts: seq<nat>)
    requires Invariant(s, trajectory, cuts)
    requires |trajectory| >= 2 && Pinned(trajectory[0]) && Pinned(trajectory[1])
    ensures |s.request| >= 2 && s.request[..2] == s.source[..2] && MessagesOf(s.source) == trajectory
  {
    hide View;
    SourceMessages(s, trajectory, cuts);
    ViewStartsWithPrompts(s.source, cuts, SummariesOf(s.records));
  }

  ghost predicate OpensWithPrompts(run: Run, system: Message, task: Message) {
    && (forall k :: 0 <= k < |run.sent| ==> |run.sent[k]| >= 2 && run.sent[k][..2] == [system, task])
    && (forall k :: 0 <= k < |run.requests| ==> Ascending(run.requests[k].sourceIndices))
    && |run.trajectory| >= 2 && run.trajectory[..2] == [system, task]
  }

  /** Every request of every run, whatever the policy, opens with the system prompt and the task prompt,
      and the source indices it records strictly increase. */
  lemma {:induction false} EveryRequestOpensWithPrompts(cfg: Config, system: Message, task: Message,
                                                        inputs: seq<TurnInput>)
    requires Prompts(system, task) && WellFormed(inputs)
    ensures OpensWithPrompts(RunOf(cfg, system, task, inputs), system, task)
    ensures |RunOf(cfg, system, task, inputs).sent| == |RunOf(cfg, system, task, inputs).requests| == |inputs|
  {
    hide Invariant, Step, Begin, Ascending, SentItems;
    RunKeepsInvariant(cfg, system, task, inputs);
    if inputs == [] {
      assert RunOf(cfg, system, task, inputs) == Begin(system, task);
      BeginShape(system, task);
    } else {
      var init, input := inputs[..|inputs| - 1], inputs[|inputs| - 1];
      var run := RunOf(cfg, system, task, init);
      EveryRequestOpensWithPrompts(cfg, system, task, init);
      RunKeepsInvariant(cfg, system, task, init);
      if cfg.policy == TailWindow {
        NoReplacements(cfg, system, task, init);
      }
      SentStartsWithPrompts(cfg, run, input);
      SentInOrder(cfg, run, input);
      StepAppends(cfg, run, input);
    }
  }

  lemma BeginShape(system: Message, task: Message)
    ensures var run := Begin(system, task);
      run.sent == [] && run.requests == [] && run.trajectory == [system, task] && run.trajectory[..2] == [system, task]
  {
  }

  lemma StepAppends(cfg: Config, run: Run, input: TurnInput)
    requires |run.trajectory| >= 2
    ensures var next, items := Step(cfg, run, input), SentItems(cfg, run, input);
      && next.sent == run.sent + [MessagesOf(items)]
      && |next.requests| == |run.requests| + 1 && next.requests[..|run.requests|] == run.requests
      && next.requests[|run.requests|].sourceIndices == IndicesOf(items)
      && next.trajectory[..2] == run.trajectory[..2]
  {
    hide FinalPlan, Synced;
  }

  /** Nothing but prompts precedes the first turn. */
  ghost predicate OpensWithTurn(ms: seq<Message>) {
    && |ms| >= 2 && Prompts(ms[0], ms[1])
    && (|ms| > 2 ==> ms[2].role.Assistant?)
  }

  lemma {:induction false} TrajectoryOpensWithTurn(cfg: Config, system: Message, task: Message, inputs: seq<TurnInput>)
    requires Prompts(system, task) && WellFormed(inputs)
    ensures OpensWithTurn(RunOf(cfg, system, task, inputs).trajectory)
  {
    hide SyncedForTurn, PlanOfTurn, SnapshotOf, Materialised, EntryFor;
    if inputs != [] {
      TrajectoryOpensWithTurn(cfg, system, task, inputs[..|inputs| - 1]);
    }
  }

  lemma ToolsAreInTurns(ms: seq<Message>, i: nat)
    requires OpensWithTurn(ms) && i < |ms| && ms[i].role.Tool?
    ensures TurnAt(ms, i) >= 1
  {
    AssistantsMonotone(ms, 3, i + 1);
    assert ms[..3] == ms[..2] + [ms[2]];
    AssistantsSnoc(ms[..2], ms[2]);
  }

  /** Position `q` of a request holds the ASSISTANT message that opens turn `t`. */
  predicate OpensTurn(items: seq<Item>, ms: seq<Message>, q: nat, t: nat) {
    && q < |items| && items[q].SourceItem? && items[q].message.role.Assistant?
    && items[q].index < |ms| && TurnAt(ms, items[q].index) == t
  }

  lemma {:induction false} OpenerVisible(source: seq<Item>, cuts: seq<nat>, summaries: seq<Item>, t: nat)
    returns (q: nat)
    requires |cuts| == |summaries| && SourceOrder(source)
    requires LastCut(cuts) < t <= Assistants(MessagesOf(source))
    ensures OpensTurn(View(source, cuts, summaries), MessagesOf(source), q, t)
  {
    var n := |source| - 1;
    var view, rest := View(source, cuts, summaries), View(source[..n], cuts, summaries);
    MessagesInit(source);
    if source[n].message.role.Assistant? && t == Assistants(MessagesOf(source)) {
      q := |view| - 1;
      TurnAtItem(source, n);
      assert source[..n + 1] == source;
    } else {
      q := OpenerVisible(source[..n], cuts, summaries, t);
      TurnAtPrefix(MessagesOf(source), n, rest[q].index);
      OpenedByInRange(cuts, Assistants(MessagesOf(source)));
      assert view[q] == rest[q];
    }
  }

  lemma {:induction false} ToolsFollowInView(source: seq<Item>, cuts: seq<nat>, summaries: seq<Item>, p: nat)
    returns (q: nat)
    requires |cuts| == |summaries| && SourceOrder(source) && AllSystem(summaries)
    requires forall i: nat :: i < |source| && source[i].message.role.Tool? ==> TurnAt(MessagesOf(source), i) >= 1
    requires p < |View(source, cuts, summaries)| && View(source, cuts, summaries)[p].message.role.Tool?
    ensures var view := View(source, cuts, summaries);
      && view[p].SourceItem? && view[p].index < |source| && q < p
      && OpensTurn(view, MessagesOf(source), q, TurnAt(MessagesOf(source), view[p].index))
  {
    var n := |source| - 1;
    var ms, view, rest := MessagesOf(source), View(source, cuts, summaries), View(source[..n], cuts, summaries);
    MessagesInit(source);
    TurnAtItem(source, n);
    assert source[..n + 1] == source;
    OpenedByInRange(cuts, Assistants(ms));
    forall i: nat | i < n ensures TurnAt(ms[..n], i) == TurnAt(ms, i) {
      TurnAtPrefix(ms, n, i);
    }
    if p < |rest| {
      assert view[p] == rest[p];
      q := ToolsFollowInView(source[..n], cuts, summaries, p);
      assert view[q] == rest[q];
    } else {
      assert view == rest + [source[n]];
      q := OpenerVisible(source[..n], cuts, summaries, Assistants(ms));
      assert view[q] == rest[q];
    }
  }

  /** Turns are compacted whole: outside the tail window, every TOOL message of every request comes after
      the ASSISTANT message of its own run turn. */
  lemma ToolsFollowTheirAssistant(cfg: Config, system: Message, task: Message, inputs: seq<TurnInput>, input: TurnInput,
                                  p: nat) returns (q: nat)
    requires Prompts(system, task) && WellFormed(inputs + [input]) && cfg.policy != TailWindow
    requires var items := SentItems(cfg, RunOf(cfg, system, task, inputs), input);
      p < |items| && items[p].message.role.Tool?
    ensures var run := RunOf(cfg, system, task, inputs);
      var items, ms := SentItems(cfg, run, input), run.trajectory + input.batch;
      && items[p].SourceItem? && items[p].index < |ms| && q < p
      && OpensTurn(items, ms, q, TurnAt(ms, items[p].index))
  {
    hide RunOf, SentItems, Step, Invariant, Synced, OpensTurn;
    var run := RunOf(cfg, system, task, inputs);
    RunOfSnoc(cfg, system, task, inputs, input);
    RunKeepsInvariant(cfg, system, task, inputs);
    TrajectoryOpensWithTurn(cfg, system, task, inputs + [input]);
    StepKeepsInvariant(cfg, run, input);
    SentIsRequest(cfg, run, input);
    StepKeepsSource(cfg, run, input);
    var next := Step(cfg, run, input);
    q := ToolsFollowInRequest(next.state, next.trajectory, next.cuts, p);
  }

  lemma LastBatch(inputs: seq<TurnInput>)
    requires WellFormed(inputs) && inputs != []
    ensures var batch := inputs[|inputs| - 1].batch; batch != [] ==> batch[0].role.Assistant?
  {
  }

  lemma RunOfSnoc(cfg: Config, system: Message, task: Message, inputs: seq<TurnInput>, input: TurnInput)
    requires WellFormed(inputs + [input])
    ensures RunOf(cfg, system, task, inputs + [input]) == Step(cfg, RunOf(cfg, system, task, inputs), input)
    ensures WellFormed(inputs) && (input.batch != [] ==> input.batch[0].role.Assistant?)
  {
    hide Step, Begin, TurnBatch;
    var all := inputs + [input];
    assert all[..|inputs|] == inputs && all[|inputs|] == input;
    LastBatch(all);
    forall k | 1 <= k < |inputs| ensures TurnBatch(inputs[k].batch) {
      assert all[k] == inputs[k];
    }
    assert inputs != [] ==> all[0] == inputs[0];
  }

  lemma ToolsFollowInRequest(s: State, trajectory: seq<Message>, cuts: seq<nat>, p: nat) returns (q: nat)
    requires Invariant(s, trajectory, cuts) && OpensWithTurn(trajectory)
    requires p < |s.request| && s.request[p].message.role.Tool?
    ensures s.request[p].SourceItem? && s.request[p].index < |trajectory| && q < p
    ensures OpensTurn(s.request, trajectory, q, TurnAt(trajectory, s.request[p].index))
  {
    hide View, OpensTurn, RecordsBacked;
    SourceMessages(s, trajectory, cuts);
    CutsOf(s, trajectory, cuts);
    forall i: nat | i < |s.source| && s.source[i].message.role.Tool? ensures TurnAt(trajectory, i) >= 1 {
      assert trajectory[i] == s.source[i].message;
      ToolsAreInTurns(trajectory, i);
    }
    q := ToolsFollowInView(s.source, cuts, SummariesOf(s.records), p);
  }

  lemma {:induction false} TokensOfParts(items: seq<Item>)
    ensures Tokens(MessagesOf(items)) == Tokens(MessagesOf(Sources(items))) + Tokens(MessagesOf(Replacements(items)))
  {
    if items != [] {
      var init, last := items[..|items| - 1], items[|items| - 1];
      TokensOfParts(init);
      assert init + [last] == items;
      TokensOfSnoc(init, last);
      TokensOfSnoc(Sources(init), last);
      TokensOfSnoc(Replacements(init), last);
    }
  }

  lemma TokensOfSnoc(items: seq<Item>, item: Item)
    ensures Tokens(MessagesOf(items + [item])) == Tokens(MessagesOf(items)) + EstimateTokens(item.message)
    ensures items + [] == items
  {
    MessagesSnoc(items, item);
    TokensSnoc(MessagesOf(items), item.message);
  }

  lemma {:induction false} SourcesArePicked(items: seq<Item>, source: seq<Item>)
    requires DrawnFrom(items, source)
    ensures MessagesOf(Sources(items)) == Pick(MessagesOf(source), IndicesOf(items))
  {
    if items != [] {
      var init, last := items[..|items| - 1], items[|items| - 1];
      forall x | x in init ensures x in items {
      }
      SourcesArePicked(init, source);
      if last.SourceItem? {
        assert last in items;
        MessagesSnoc(Sources(init), last);
        assert IndicesOf(items)[..|IndicesOf(items)| - 1] == IndicesOf(init);
      } else {
        assert Sources(items) == Sources(init) && IndicesOf(items) == IndicesOf(init);
      }
    }
  }

  /** A strictly increasing list is determined by its members. */
  lemma {:induction false} AscendingIsIndicesIn(xs: seq<nat>, n: nat)
    requires Ascending(xs) && forall p :: 0 <= p < |xs| ==> xs[p] < n
    ensures xs == IndicesIn(n, ToSet(xs))
  {
    hide Ascending;
    NonemptyBound(xs, n);
    if n == 0 {
      assert IndicesIn(0, ToSet(xs)) == [];
    } else {
      IndicesStep(n - 1, ToSet(xs));
      if n - 1 in xs {
        LastIsGreatest(xs, n);
        var init: seq<nat> := xs[..|xs| - 1];
        AscendingIsIndicesIn(init, n - 1);
        IndicesInAgree(n - 1, ToSet(xs), ToSet(init));
        assert xs == init + [n - 1];
      } else {
        forall p | 0 <= p < |xs| ensures xs[p] < n - 1 {
          assert xs[p] in xs;
        }
        AscendingIsIndicesIn(xs, n - 1);
      }
    }
  }

  lemma NonemptyBound(xs: seq<nat>, n: nat)
    requires forall p :: 0 <= p < |xs| ==> xs[p] < n
    ensures xs != [] ==> n > 0
  {
    if xs != [] {
      assert xs[0] < n;
    }
  }

  lemma LastIsGreatest(xs: seq<nat>, n: nat)
    requires Ascending(xs) && n > 0 && n - 1 in xs && forall p :: 0 <= p < |xs| ==> xs[p] < n
    ensures xs[|xs| - 1] == n - 1 && Ascending(xs[..|xs| - 1])
    ensures forall p :: 0 <= p < |xs| - 1 ==> xs[p] < n - 1
    ensures forall i: nat :: i < n - 1 ==> (i in xs <==> i in xs[..|xs| - 1])
  {
    var p :| 0 <= p < |xs| && xs[p] == n - 1;
    assert xs[p] <= xs[|xs| - 1] < n;
    assert xs == xs[..|xs| - 1] + [xs[|xs| - 1]];
  }

  lemma {:induction false} OmittedTokensAre(source: seq<Item>, n: nat, selected: seq<nat>)
    requires SourceOrder(source) && n <= |source|
    ensures Tokens(MessagesOf(OmittedItems(source[..n], selected)))
         == TokensIn(MessagesOf(source)[..n], Below(|source|) - ToSet(selected))
  {
    if n > 0 {
      OmittedTokensAre(source, n - 1, selected);
      assert source[..n][..n - 1] == source[..n - 1];
      assert MessagesOf(source)[..n][..n - 1] == MessagesOf(source)[..n - 1];
      TokensOfSnoc(OmittedItems(source[..n - 1], selected), source[n - 1]);
    }
  }

  lemma IndicesInRange(items: seq<Item>, source: seq<Item>)
    requires DrawnFrom(items, source)
    ensures forall p :: 0 <= p < |IndicesOf(items)| ==> IndicesOf(items)[p] < |source|
  {
    if items != [] {
      var init, last := items[..|items| - 1], items[|items| - 1];
      forall x | x in init ensures x in items {
      }
      IndicesInRange(init, source);
      assert last in items;
    }
  }

  /** What is sent plus what is omitted weighs what the trajectory weighs plus the summaries sent. */
  lemma SelectionConservesTokens(items: seq<Item>, source: seq<Item>)
    requires InOrder(items, source) && SourceOrder(source)
    ensures Tokens(MessagesOf(items)) + Tokens(MessagesOf(OmittedItems(source, IndicesOf(items))))
         == Tokens(MessagesOf(source)) + Tokens(MessagesOf(Replacements(items)))
  {
    hide SourceOrder, DrawnFrom, Tokens, MessagesOf, TokensIn;
    var ms, indices := MessagesOf(source), IndicesOf(items);
    TokensOfParts(items);
    SourcesArePicked(items, source);
    IndicesInRange(items, source);
    AscendingIsIndicesIn(indices, |source|);
    TokensPick(ms, ToSet(indices), |source|);
    OmittedTokensAre(source, |source|, indices);
    assert source[..|source|] == source && ms[..|source|] == ms;
    TokensInSplit(ms, ToSet(indices), Below(|source|) - ToSet(indices));
  }

  lemma StepCountsTokens(cfg: Config, run: Run, input: TurnInput)
    ensures var next, items := Step(cfg, run, input), SentItems(cfg, run, input);
      var omitted := OmittedItems(SyncedForTurn(run, input).source, IndicesOf(items));
      && |next.requests| == |run.requests| + 1
      && next.requests[|run.requests|].selection.selectedTokens == Tokens(MessagesOf(items))
      && next.requests[|run.requests|].selection.omittedTokens == Tokens(MessagesOf(omitted))
  {
    hide FinalPlan, Synced, Tokens, OmittedItems;
  }

  lemma {:induction false} NoReplacementsIn(items: seq<Item>)
    requires forall p :: 0 <= p < |items| ==> items[p].SourceItem?
    ensures Replacements(items) == []
  {
    if items != [] {
      NoReplacementsIn(items[..|items| - 1]);
    }
  }

  /** The summaries in a request are those of all records so far, in order. */
  lemma SentSummaries(cfg: Config, run: Run, input: TurnInput)
    requires RunInvariant(run) && (input.batch != [] ==> input.batch[0].role.Assistant?)
    requires cfg.policy == TailWindow ==> run.cuts == []
    ensures Replacements(SentItems(cfg, run, input)) == SummariesOf(Step(cfg, run, input).state.records)
  {
    hide Invariant, SentItems, Step, Synced, TailWindowResult, Takes, FinalPlan;
    StepKeepsInvariant(cfg, run, input);
    var s, next := SyncedForTurn(run, input), Step(cfg, run, input);
    var trajectory := run.trajectory + input.batch;
    StepKeepsSource(cfg, run, input);
    if cfg.policy == TailWindow {
      SentIsWindow(cfg, run, input);
      TailIncluded(trajectory, cfg.limits);
      PickedItems(s.source, TailWindowResult(trajectory, cfg.limits).selection.included);
      NoReplacementsIn(SentItems(cfg, run, input));
      TailKeepsNoRecords(cfg, run, input);
      CutsOf(next.state, trajectory, next.cuts);
    } else {
      SentIsRequest(cfg, run, input);
      SummariesMatchRecords(next.state, trajectory, next.cuts);
    }
  }

  lemma TailKeepsNoRecords(cfg: Config, run: Run, input: TurnInput)
    requires cfg.policy == TailWindow
    ensures Step(cfg, run, input).cuts == run.cuts
  {
    hide FinalPlan, Synced, Takes, SnapshotOf, Materialised, EntryFor;
    PlanTakesTurns(SyncedForTurn(run, input), cfg.policy, cfg.limits, input.session, |run.requests| + 1, input.reply);
  }

  /** In every turn of every run, the tokens recorded as selected and as omitted add up to those of the
      whole trajectory plus the live summaries. */
  lemma RequestConservesTokens(cfg: Config, system: Message, task: Message, inputs: seq<TurnInput>, input: TurnInput)
    requires Prompts(system, task) && WellFormed(inputs + [input])
    ensures var run := RunOf(cfg, system, task, inputs + [input]);
      && |run.requests| == |inputs| + 1
      && run.requests[|inputs|].selection.selectedTokens + run.requests[|inputs|].selection.omittedTokens
           == Tokens(run.trajectory) + Tokens(MessagesOf(SummariesOf(run.state.records)))
  {
    hide RunOf, SentItems, Step, Invariant, Synced, Tokens;
    var run := RunOf(cfg, system, task, inputs);
    RunOfSnoc(cfg, system, task, inputs, input);
    RunKeepsInvariant(cfg, system, task, inputs);
    if cfg.policy == TailWindow {
      NoReplacements(cfg, system, task, inputs);
    }
    StepKeepsInvariant(cfg, run, input);
    StepCountsTokens(cfg, run, input);
    SentInOrder(cfg, run, input);
    SentSummaries(cfg, run, input);
    SyncedSource(run, input);
    SelectionConservesTokens(SentItems(cfg, run, input), SyncedForTurn(run, input).source);
    StepKeepsSource(cfg, run, input);
  }

  lemma SyncedSource(run: Run, input: TurnInput)
    requires Invariant(SyncedForTurn(run, input), run.trajectory + input.batch, run.cuts)
    ensures var source := SyncedForTurn(run, input).source;
      SourceOrder(source) && MessagesOf(source) == run.trajectory + input.batch
  {
    hide Synced, View;
    SourceMessages(SyncedForTurn(run, input), run.trajectory + input.batch, run.cuts);
  }
}
