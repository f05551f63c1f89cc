/** What the compaction backend can and cannot change about a run. */
module BackendRuns {
  import opened Prelude
  import opened Messages
  import opened TurnRanges
  import opened Planning
  import opened Compaction
  import opened ContextPlans
  import opened History
  import opened RequestContext
  import opened HistoryRun
  import opened RequestContents
  import opened CompactedTurns
  import opened FirstCompaction
  import opened TailWindows

  /** No turn of the run used a model-written summary. */
  ghost predicate NoModelSummary(run: Run) {
    forall k :: 0 <= k < |run.plans| ==> !run.plans[k].modelUsed
  }

  ghost predicate BackendFails(inputs: seq<TurnInput>) {
    forall k :: 0 <= k < |inputs| ==> !inputs[k].reply.Answered?
  }

  /** Two runs agree on everything but the policy and failure recorded in their request entries. */
  ghost predicate SameCourse(a: Run, b: Run) {
    && a.trajectory == b.trajectory && a.state == b.state && a.sent == b.sent && a.cuts == b.cuts
    && |a.requests| == |b.requests|
    && forall k :: 0 <= k < |a.requests| ==>
         a.requests[k].(policy := b.requests[k].policy, selection := b.requests[k].selection,
                        failure := b.requests[k].failure) == b.requests[k]
         && a.requests[k].selection.(policy := b.requests[k].selection.policy) == b.requests[k].selection
  }

  /** What the state machine reads of a plan. */
  ghost predicate SamePlan(a: Plan, b: Plan) {
    && a.artifact == b.artifact && a.summary == b.summary && a.metadata == b.metadata
    && a.selection.(policy := b.selection.policy) == b.selection
    && a.modelUsed == b.modelUsed
  }

  lemma FallbackPlan(ms: seq<Message>, limits: Limits, session: Session, turn: nat, reply: Reply)
    requires !FinalPlan(ms, ModelBackedCompaction, limits, session, turn, reply).modelUsed
    ensures SamePlan(FinalPlan(ms, ModelBackedCompaction, limits, session, turn, reply),
                     FinalPlan(ms, DeterministicCompaction, limits, session, turn, reply))
  {
    hide DeterministicResult;
  }

  lemma SamePlanSameState(s: State, a: Plan, b: Plan, turn: nat)
    requires SamePlan(a, b)
    ensures Materialised(s, a, turn) == Materialised(s, b, turn)
    ensures SnapshotOf(s, a, turn).selected == SnapshotOf(s, b, turn).selected
  {
    hide RecordFor, Replace;
  }

  lemma SamePlanSameEntry(s: State, a: Plan, b: Plan, turn: nat)
    requires SamePlan(a, b)
    ensures var x, y := EntryFor(turn, turn, SnapshotOf(s, a, turn)), EntryFor(turn, turn, SnapshotOf(s, b, turn));
      && x.(policy := y.policy, selection := y.selection, failure := y.failure) == y
      && x.selection.(policy := y.selection.policy) == y.selection
  {
    hide RecordFor, Replace, OmittedItems, Pick, Tokens;
    SamePlanSameState(s, a, b, turn);
  }

  lemma SameStep(limits: Limits, a: Run, b: Run, input: TurnInput)
    requires SameCourse(a, b)
    requires !PlanOfTurn(Config(ModelBackedCompaction, limits), a, input).modelUsed
    ensures SameCourse(Step(Config(ModelBackedCompaction, limits), a, input),
                       Step(Config(DeterministicCompaction, limits), b, input))
  {
    hide FinalPlan, Materialised, SnapshotOf, EntryFor, Synced;
    var s, turn := SyncedForTurn(a, input), |a.requests| + 1;
    var p := PlanOfTurn(Config(ModelBackedCompaction, limits), a, input);
    var q := PlanOfTurn(Config(DeterministicCompaction, limits), b, input);
    FallbackPlan(MessagesOf(s.request), limits, input.session, turn, input.reply);
    SamePlanSameState(s, p, q, turn);
    SamePlanSameEntry(s, p, q, turn);
  }

  /** A model-backed run in which no model summary is used sends, turn by turn, the same requests as the
      deterministic run fed the same agent responses, and reaches the same history and log. */
  lemma {:induction false} UnusedBackendChangesNothing(limits: Limits, system: Message, task: Message,
                                                       inputs: seq<TurnInput>)
    requires NoModelSummary(RunOf(Config(ModelBackedCompaction, limits), system, task, inputs))
    ensures SameCourse(RunOf(Config(ModelBackedCompaction, limits), system, task, inputs),
                       RunOf(Config(DeterministicCompaction, limits), system, task, inputs))
  {
    hide FinalPlan, Materialised, SnapshotOf, EntryFor, Synced, SameCourse;
    var model := Config(ModelBackedCompaction, limits);
    if inputs == [] {
      SameStart(system, task);
    } else {
      var init, input := inputs[..|inputs| - 1], inputs[|inputs| - 1];
      var run, next := RunOf(model, system, task, init), RunOf(model, system, task, inputs);
      forall k | 0 <= k < |run.plans| ensures !run.plans[k].modelUsed {
        assert next.plans[k] == run.plans[k];
      }
      UnusedBackendChangesNothing(limits, system, task, init);
      assert next.plans[|run.plans|] == PlanOfTurn(model, run, input);
      SameStep(limits, run, RunOf(Config(DeterministicCompaction, limits), system, task, init), input);
    }
  }

  lemma SameStart(system: Message, task: Message)
    ensures SameCourse(Begin(system, task), Begin(system, task))
  {
  }

  /** In particular, that is so when the backend never answers. */
  lemma {:induction false} FailingBackendIsNotUsed(limits: Limits, system: Message, task: Message,
                                                   inputs: seq<TurnInput>)
    requires BackendFails(inputs)
    ensures NoModelSummary(RunOf(Config(ModelBackedCompaction, limits), system, task, inputs))
  {
    hide FinalPlan, Materialised, SnapshotOf, EntryFor, Synced;
    if inputs != [] {
      var model := Config(ModelBackedCompaction, limits);
      var init, input := inputs[..|inputs| - 1], inputs[|inputs| - 1];
      FailingBackendIsNotUsed(limits, system, task, init);
      var run := RunOf(model, system, task, init);
      ModelUsedExactly(MessagesOf(SyncedForTurn(run, input).request), ModelBackedCompaction, limits, input.session,
                       |run.requests| + 1, input.reply);
    }
  }

  lemma FailingBackendMatchesDeterministic(limits: Limits, system: Message, task: Message, inputs: seq<TurnInput>)
    requires BackendFails(inputs)
    ensures SameCourse(RunOf(Config(ModelBackedCompaction, limits), system, task, inputs),
                       RunOf(Config(DeterministicCompaction, limits), system, task, inputs))
  {
    FailingBackendIsNotUsed(limits, system, task, inputs);
    UnusedBackendChangesNothing(limits, system, task, inputs);
  }

  lemma {:induction false} MessagesOfPick(items: seq<Item>, indices: seq<nat>)
    ensures MessagesOf(Pick(items, indices)) == Pick(MessagesOf(items), indices)
  {
    if indices != [] {
      MessagesOfPick(items, indices[..|indices| - 1]);
      var rest, last := Pick(items, indices[..|indices| - 1]), indices[|indices| - 1];
      if last < |items| {
        assert MessagesOf(rest + [items[last]]) == MessagesOf(rest) + [items[last].message];
      }
    }
  }

  /** What the planner selected is what is left when turns 1 to k go, or a pick of the request. */
  lemma PlannedMessages(ms: seq<Message>, policy: PolicyMode, limits: Limits, session: Session, turn: nat, reply: Reply)
    ensures var plan := FinalPlan(ms, policy, limits, session, turn, reply);
      && (!Replaces(plan) ==> plan.selected == Pick(ms, plan.selection.included))
      && (Replaces(plan) && !plan.modelUsed ==>
            plan.selected == Replaced(ms, ToSet(plan.artifact.value.compacted), plan.summary.value))
  {
    hide DeterministicResult, Scan, Replaced, Pick, FirstTurns, ToSet;
    PickRange(ms, |ms|);
    assert ms[..|ms|] == ms;
    DeterministicMessages(ms, session, turn, limits);
  }

  lemma DeterministicMessages(ms: seq<Message>, session: Session, turn: nat, limits: Limits)
    ensures var r := DeterministicResult(ms, Some(session), turn, limits);
      && (r.artifact.Some? <==> r.summary.Some?)
      && (r.artifact.None? ==> r.selected == ms && r.selection.included == Range(|ms|))
      && (r.artifact.Some? ==> r.selected == Replaced(ms, ToSet(r.artifact.value.compacted), r.summary.value))
  {
    hide DeterministicResult, Replaced, FirstTurns, CompactedTurnCount;
    var k := CompactedTurnCount(DeterministicResult(ms, Some(session), turn, limits));
    PlanCompactsPrefix(ms, Some(session), turn, limits);
    IndicesInMembers(|ms|, FirstTurns(ms, k));
    FirstTurnsInRange(ms, k);
    assert ToSet(IndicesIn(|ms|, FirstTurns(ms, k))) == FirstTurns(ms, k);
  }

  lemma FirstTurnsInRange(ms: seq<Message>, k: nat)
    ensures forall i :: i in FirstTurns(ms, k) ==> i < |ms|
  {
  }

  /** The manager sends exactly what the planner selected whenever no model summary is used. */
  lemma ManagerSendsPlan(cfg: Config, run: Run, input: TurnInput)
    requires !PlanOfTurn(cfg, run, input).modelUsed
    ensures MessagesOf(SentItems(cfg, run, input)) == PlanOfTurn(cfg, run, input).selected
  {
    hide FinalPlan, Synced, RecordFor;
    var s, plan := SyncedForTurn(run, input), PlanOfTurn(cfg, run, input);
    PlannedMessages(MessagesOf(s.request), cfg.policy, cfg.limits, input.session, |run.requests| + 1, input.reply);
    if Replaces(plan) {
      ReplacedAreSent(cfg, run, input);
    } else {
      MessagesOfPick(s.request, plan.selection.included);
    }
  }

  lemma ReplacedAreSent(cfg: Config, run: Run, input: TurnInput)
    requires Replaces(PlanOfTurn(cfg, run, input))
    ensures var plan := PlanOfTurn(cfg, run, input);
      MessagesOf(SentItems(cfg, run, input))
        == Replaced(MessagesOf(SyncedForTurn(run, input).request), ToSet(plan.artifact.value.compacted),
                    plan.summary.value)
  {
    hide FinalPlan, Synced, RecordFor;
    var s, plan, turn := SyncedForTurn(run, input), PlanOfTurn(cfg, run, input), |run.requests| + 1;
    var r := RecordFor(s, plan.artifact.value, plan.summary.value, turn);
    RenderedIs(s, plan, turn);
    MessagesOfReplaced(s.request, ToSet(plan.artifact.value.compacted), SummaryItem(r));
  }

  lemma {:induction false} NothingReplaced<T>(xs: seq<T>, s: set<nat>, mark: T)
    requires !Hit(s, |xs|)
    ensures Replaced(xs, s, mark) == xs
  {
    if xs != [] {
      NothingReplaced(xs[..|xs| - 1], s, mark);
      assert xs == xs[..|xs| - 1] + [xs[|xs| - 1]];
    }
  }

  /** Two replacements of the same positions differ in the mark alone, which stands at the first of them. */
  lemma {:induction false} OnlyMarkDiffers<T>(xs: seq<T>, s: set<nat>, a: T, b: T) returns (p: nat)
    requires Hit(s, |xs|)
    ensures p in s && forall i :: i in s ==> p <= i
    ensures p < |Replaced(xs, s, b)| && Replaced(xs, s, b)[p] == b
    ensures Replaced(xs, s, a) == Replaced(xs, s, b)[p := a]
  {
    var n := |xs| - 1;
    if Hit(s, n) {
      p := OnlyMarkDiffers(xs[..n], s, a, b);
    } else {
      p := n;
      assert !Hit(s, n);
      NothingReplaced(xs[..n], s, a);
      NothingReplaced(xs[..n], s, b);
    }
  }

  /** With a model summary it sends what the planner selected, the model's summary in the deterministic
      one's place: at the first position compacted. */
  lemma ManagerSendsModelSummary(cfg: Config, run: Run, input: TurnInput) returns (p: nat)
    requires PlanOfTurn(cfg, run, input).modelUsed
    ensures var plan := PlanOfTurn(cfg, run, input);
      && Replaces(plan) && p in plan.artifact.value.compacted && p < |plan.selected|
      && (forall i :: i in plan.artifact.value.compacted ==> p <= i)
      && Some(plan.selected[p]) == DeterministicPlan(cfg, run, input).summary
      && MessagesOf(SentItems(cfg, run, input)) == plan.selected[p := plan.summary.value]
  {
    hide PlanOfTurn, SentItems, SyncedForTurn, Replaced, DeterministicResult, IndicesIn;
    var plan, request := PlanOfTurn(cfg, run, input), MessagesOf(SyncedForTurn(run, input).request);
    PlanUsingModel(cfg, run, input);
    var det, compacted := DeterministicPlan(cfg, run, input), ToSet(plan.artifact.value.compacted);
    ReplacedAreSent(cfg, run, input);
    p := OnlyMarkDiffers(request, compacted, plan.summary.value, det.summary.value);
    forall i | i in plan.artifact.value.compacted ensures p <= i {
      assert i in compacted;
    }
  }

  /** The plan the turn would have without the backend. */
  function DeterministicPlan(cfg: Config, run: Run, input: TurnInput): Plan {
    PlanFor(MessagesOf(SyncedForTurn(run, input).request), DeterministicCompaction, cfg.limits, Some(input.session),
            |run.requests| + 1)
  }

  lemma PlanUsingModel(cfg: Config, run: Run, input: TurnInput)
    requires PlanOfTurn(cfg, run, input).modelUsed
    ensures var plan, ms := PlanOfTurn(cfg, run, input), MessagesOf(SyncedForTurn(run, input).request);
      var det := DeterministicPlan(cfg, run, input);
      && Replaces(plan) && det.summary.Some?
      && plan.selected == Replaced(ms, ToSet(plan.artifact.value.compacted), det.summary.value)
      && Hit(ToSet(plan.artifact.value.compacted), |ms|)
  {
    hide SyncedForTurn, Replaced, DeterministicResult;
    var ms, turn := MessagesOf(SyncedForTurn(run, input).request), |run.requests| + 1;
    DeterministicMessages(ms, input.session, turn, cfg.limits);
    CompactedHit(ms, input.session, turn, cfg.limits);
  }

  lemma CompactedHit(ms: seq<Message>, session: Session, turn: nat, limits: Limits)
    ensures var r := DeterministicResult(ms, Some(session), turn, limits);
      r.artifact.Some? ==> Hit(ToSet(r.artifact.value.compacted), |ms|)
  {
    hide DeterministicResult, Replaced;
    var r := DeterministicResult(ms, Some(session), turn, limits);
    PlanCompactsPrefix(ms, Some(session), turn, limits);
    if r.artifact.Some? {
      var k := CompactedTurnCount(r);
      TurnRangesMeaning(ms);
      CoveredNonempty(ms, k);
      var i :| i in FirstTurns(ms, k);
      IndicesInMembers(|ms|, FirstTurns(ms, k));
      assert i in ToSet(r.artifact.value.compacted);
    }
  }

  lemma RenderedIs(s: State, plan: Plan, turn: nat)
    requires Replaces(plan)
    ensures RecordFor(s, plan.artifact.value, plan.summary.value, turn).rendered == plan.summary.value
  {
  }

  /** How much longer the summary sent is than the one the plan was made with. */
  function SummaryGrowth(cfg: Config, run: Run, input: TurnInput): int {
    var plan, det := PlanOfTurn(cfg, run, input), DeterministicPlan(cfg, run, input);
    if plan.modelUsed && plan.summary.Some? && det.summary.Some?
    then EstimateTokens(plan.summary.value) - EstimateTokens(det.summary.value) else 0
  }

  lemma SentWeighs(cfg: Config, run: Run, input: TurnInput)
    ensures Tokens(MessagesOf(SentItems(cfg, run, input)))
         == Tokens(PlanOfTurn(cfg, run, input).selected) + SummaryGrowth(cfg, run, input)
  {
    hide PlanOfTurn, SentItems, SyncedForTurn, Replaced, DeterministicPlan, Tokens, ToSet;
    var plan, request := PlanOfTurn(cfg, run, input), MessagesOf(SyncedForTurn(run, input).request);
    if plan.modelUsed {
      PlanUsingModel(cfg, run, input);
      ReplacedAreSent(cfg, run, input);
      var compacted := ToSet(plan.artifact.value.compacted);
      TokensReplaced(request, compacted, plan.summary.value);
      TokensReplaced(request, compacted, DeterministicPlan(cfg, run, input).summary.value);
    } else {
      ManagerSendsPlan(cfg, run, input);
    }
  }

  /** Exactly when the flags recorded for a turn, under any policy, are right for the request it sends: a
      change in the summary's length must not carry the request across the limit, nor change by how much
      the limit is exceeded. Without a model summary they always are. */
  lemma FlagsRightExactly(cfg: Config, run: Run, input: TurnInput)
    ensures var sent := MessagesOf(SentItems(cfg, run, input));
      var next, planned := Step(cfg, run, input), TotalTokens(PlanOfTurn(cfg, run, input).selected, cfg.limits);
      var growth, limit := SummaryGrowth(cfg, run, input), cfg.limits.maxTokens;
      && |next.requests| == |run.requests| + 1
      && var recorded := next.requests[|run.requests|].selection;
      && ((recorded.budgetSatisfied <==> TokensAllow(sent, cfg.limits)) <==>
            (limit.Some? ==> (planned <= limit.value <==> planned + growth <= limit.value)))
      && (recorded.overflow == TokenOverflow(sent, cfg.limits) <==>
            (limit.Some? ==> growth == 0 || (planned <= limit.value && planned + growth <= limit.value)))
  {
    hide PlanOfTurn, SentItems, SyncedForTurn, Tokens, SummaryGrowth;
    var s, plan := SyncedForTurn(run, input), PlanOfTurn(cfg, run, input);
    RecordedFlags(cfg, run, input);
    SentWeighs(cfg, run, input);
  }

  lemma RecordedFlags(cfg: Config, run: Run, input: TurnInput)
    ensures var next, plan := Step(cfg, run, input), PlanOfTurn(cfg, run, input);
      && |next.requests| == |run.requests| + 1
      && var recorded := next.requests[|run.requests|].selection;
      && (recorded.budgetSatisfied <==> TokensAllow(plan.selected, cfg.limits))
      && recorded.overflow == TokenOverflow(plan.selected, cfg.limits)
  {
    hide FinalPlan, Synced, Tokens, OmittedItems;
    PlanFlags(MessagesOf(SyncedForTurn(run, input).request), cfg.policy, cfg.limits, input.session,
              |run.requests| + 1, input.reply);
  }

  const LONG_TURN := [Message(System, 4, 0), Message(User, 4, 1), Message(Assistant, 400, 2)]
  const SIXTY_TOKENS := Limits(None, Some(60), 0, 0)
  const SHORT_SUMMARY := Session(None, None, ranges => Rendering(40, 3, 0))

  lemma LongTurnCompacts()
    ensures var det := DeterministicResult(LONG_TURN, Some(SHORT_SUMMARY), 2, SIXTY_TOKENS);
      CompactedTurnCount(det) == 1 && det.summary == Some(Message(System, 40, 3))
    ensures Tokens(LONG_TURN) == 102
  {
    hide DeterministicResult;
    assert LONG_TURN[..2] == [LONG_TURN[0], LONG_TURN[1]] && LONG_TURN[..2][..1] == [LONG_TURN[0]];
    assert LONG_TURN[..2][..1][..0] == [];
    assert Tokens(LONG_TURN[..2][..1]) == 1;
    assert Tokens(LONG_TURN[..2]) == 2;
    AssistantsOfThree(LONG_TURN[0], LONG_TURN[1], LONG_TURN[2]);
    assert LONG_TURN == [LONG_TURN[0], LONG_TURN[1], LONG_TURN[2]];
    CompactsExactly(LONG_TURN, SHORT_SUMMARY, 2, SIXTY_TOKENS);
    SummaryOfPlan(LONG_TURN, SHORT_SUMMARY, 2, SIXTY_TOKENS);
  }

  lemma SummaryOfPlan(ms: seq<Message>, session: Session, turn: nat, limits: Limits)
    requires CompactedTurnCount(DeterministicResult(ms, Some(session), turn, limits)) > 0
    ensures DeterministicResult(ms, Some(session), turn, limits).summary.Some?
    ensures exists ranges ::
      DeterministicResult(ms, Some(session), turn, limits).summary == Some(SummaryMessage(session, ranges))
  {
    var k := DeterministicShape(ms, Some(session), turn, limits);
  }

  /** The flags of a plan that uses a model summary can mislead: a plan reports its budget as met although
      the request it sends is far over the limit. */
  lemma FlagsCanMislead() returns (reply: Reply)
    ensures var plan := FinalPlan(LONG_TURN, ModelBackedCompaction, SIXTY_TOKENS, SHORT_SUMMARY, 2, reply);
      && plan.modelUsed && plan.summary.Some? && plan.selection.budgetSatisfied && plan.selection.overflow == 0
      && TotalTokens(Replaced(LONG_TURN, FirstTurns(LONG_TURN, 1), plan.summary.value), SIXTY_TOKENS) == 1002
      && SIXTY_TOKENS.maxTokens == Some(60)
  {
    hide DeterministicResult, Tokens;
    var det := DeterministicResult(LONG_TURN, Some(SHORT_SUMMARY), 2, SIXTY_TOKENS);
    LongTurnCompacts();
    PlanCompactsPrefix(LONG_TURN, Some(SHORT_SUMMARY), 2, SIXTY_TOKENS);
    var artifact := det.artifact.value;
    var span := Span(artifact.compacted, det.metadata.compactedTurns, artifact.pinned, true);
    reply := Answered(ModelOutput(4000, 4, 0, span));
    var plan := FinalPlan(LONG_TURN, ModelBackedCompaction, SIXTY_TOKENS, SHORT_SUMMARY, 2, reply);
    DeterministicFlags(LONG_TURN, SHORT_SUMMARY, 2, SIXTY_TOKENS);
    LongTurnTokens(Message(System, 4000, 4));
    LongTurnTokens(Message(System, 40, 3));
  }

  lemma LongTurnTokens(summary: Message)
    ensures Tokens(Replaced(LONG_TURN, FirstTurns(LONG_TURN, 1), summary)) == 2 + EstimateTokens(summary)
  {
    hide FirstTurns, Replaced, TokensIn, Tokens;
    LongTurnCompacts();
    LongTurnPositions();
    TokensReplaced(LONG_TURN, {2}, summary);
    assert Hit({2}, 3);
    TokensOfThird(LONG_TURN[0], LONG_TURN[1], LONG_TURN[2]);
    assert LONG_TURN == [LONG_TURN[0], LONG_TURN[1], LONG_TURN[2]];
  }

  lemma TokensOfThird(a: Message, b: Message, c: Message)
    ensures TokensIn([a, b, c], {2}) == EstimateTokens(c)
  {
    assert [a, b, c][..2] == [a, b] && [a, b][..1] == [a] && [a][..0] == [];
    assert TokensIn([], {2}) == 0;
    assert TokensIn([a], {2}) == 0;
    assert TokensIn([a, b], {2}) == 0;
  }

  lemma LongTurnPositions()
    ensures FirstTurns(LONG_TURN, 1) == {2}
  {
    AssistantsOfThree(LONG_TURN[0], LONG_TURN[1], LONG_TURN[2]);
    assert LONG_TURN == [LONG_TURN[0], LONG_TURN[1], LONG_TURN[2]];
    assert LONG_TURN[..3] == LONG_TURN;
  }
}
