/** The plan for one request under any policy, and the model-written replacement of its summary. */
module ContextPlans {
  import opened Prelude
  import opened Messages
  import opened TurnRanges
  import opened Planning
  import opened TailWindows
  import opened Compaction

  datatype FailureKind =
    | CapabilityUnavailable
    | ProviderError
    | StructuredOutputParseError
    | SchemaValidationError
    | CompactedSpanMismatch

  datatype Plan = Plan(
    turn: nat,
    policy: PolicyMode,
    itemsBefore: nat,
    selection: Selection,
    selected: seq<Message>,
    metadata: Metadata,
    artifact: Option<Artifact>,
    summary: Option<Message>,
    modelRequested: bool,
    modelUsed: bool,
    failure: Option<FailureKind>)

  /** The span a backend claims to have summarised; `kindMatches` says whether its summary kind, once
      normalised, is the runtime's own. */
  datatype Span = Span(messages: seq<nat>, turns: seq<nat>, pinned: seq<nat>, kindMatches: bool)

  datatype ModelOutput = ModelOutput(bytes: nat, payload: nat, carried: nat, span: Span)

  /** What came of asking the compaction backend. */
  datatype Reply =
    | NoCapability
    | RequestRaised
    | NoStructuredOutput
    | SchemaInvalid
    | Answered(output: ModelOutput)

  function SelectionResult(ms: seq<Message>, policy: PolicyMode, limits: Limits, session: Option<Session>, turn: nat)
    : Result
  {
    match policy
    case FullHistory => FullHistoryResult(ms, limits)
    case TailWindow => TailWindowResult(ms, limits)
    case DeterministicCompaction | ModelBackedCompaction => DeterministicResult(ms, session, turn, limits)
  }

  function PlanFor(ms: seq<Message>, policy: PolicyMode, limits: Limits, session: Option<Session>, turn: nat): Plan {
    var r := SelectionResult(ms, policy, limits, session, turn);
    Plan(turn, policy, |ms|, r.selection.(policy := policy), r.selected, r.metadata, r.artifact, r.summary,
         policy == ModelBackedCompaction, false, None)
  }

  method PlanRequestContext(ms: seq<Message>, policy: PolicyMode, limits: Limits, session: Option<Session>, turn: nat)
    returns (plan: Plan)
    ensures plan == PlanFor(ms, policy, limits, session, turn)
  {
    var r;
    match policy {
      case FullHistory => r := FullHistoryResult(ms, limits);
      case TailWindow => r := SelectTailWindow(ms, limits);
      case DeterministicCompaction => r := SelectDeterministicCompaction(ms, session, turn, limits);
      case ModelBackedCompaction => r := SelectDeterministicCompaction(ms, session, turn, limits);
    }
    plan := Plan(turn, policy, |ms|, r.selection.(policy := policy), r.selected, r.metadata, r.artifact, r.summary,
      policy == ModelBackedCompaction, false, None);
  }

  /** The claimed span is exactly the one the deterministic plan compacts. */
  predicate SpanMatches(output: ModelOutput, plan: Plan) {
    && plan.artifact.Some?
    && output.span.messages == plan.artifact.value.compacted
    && output.span.pinned == plan.artifact.value.pinned
    && output.span.kindMatches
    && output.span.turns == plan.metadata.compactedTurns
  }

  function WithModelOutput(plan: Plan, output: ModelOutput): Plan {
    if plan.artifact.None? then plan else
    var slot := plan.artifact.value.slot.(refreshedAt := plan.turn, modelWritten := true);
    plan.(
      policy := ModelBackedCompaction,
      selection := plan.selection.(policy := ModelBackedCompaction),
      artifact := Some(plan.artifact.value.(policy := ModelBackedCompaction, slot := slot, carried := output.carried)),
      summary := Some(Message(System, output.bytes, output.payload)),
      modelRequested := true, modelUsed := true, failure := None)
  }

  function WithFallback(plan: Plan, failure: FailureKind): Plan {
    plan.(modelRequested := true, modelUsed := false, failure := Some(failure))
  }

  function AfterBackend(plan: Plan, policy: PolicyMode, reply: Reply): Plan {
    if policy != ModelBackedCompaction || plan.artifact.None? then plan else
    match reply
    case NoCapability => WithFallback(plan, CapabilityUnavailable)
    case RequestRaised => WithFallback(plan, ProviderError)
    case NoStructuredOutput => WithFallback(plan, StructuredOutputParseError)
    case SchemaInvalid => WithFallback(plan, SchemaValidationError)
    case Answered(output) =>
      if SpanMatches(output, plan) then WithModelOutput(plan, output) else WithFallback(plan, CompactedSpanMismatch)
  }

  /** The plan a turn materialises. */
  function FinalPlan(ms: seq<Message>, policy: PolicyMode, limits: Limits, session: Session, turn: nat, reply: Reply)
    : Plan
  {
    AfterBackend(PlanFor(ms, policy, limits, Some(session), turn), policy, reply)
  }

  /** A model summary is used exactly when the deterministic plan compacts and the backend answered with the
      runtime's own kind of summary for the very same messages, turns and pinned messages. Any other outcome
      of a requested compaction is recorded as the failure it was. */
  lemma ModelUsedExactly(ms: seq<Message>, policy: PolicyMode, limits: Limits, session: Session, turn: nat, reply: Reply)
    ensures var det := PlanFor(ms, policy, limits, Some(session), turn);
      var plan := FinalPlan(ms, policy, limits, session, turn, reply);
      var asked := policy == ModelBackedCompaction && det.artifact.Some?;
      && (plan.modelUsed <==>
            && asked && reply.Answered? && reply.output.span.kindMatches
            && reply.output.span.messages == det.artifact.value.compacted
            && reply.output.span.turns == det.metadata.compactedTurns
            && reply.output.span.pinned == det.artifact.value.pinned)
      && plan.failure == (if !asked || plan.modelUsed then None
                          else match reply
                               case NoCapability => Some(CapabilityUnavailable)
                               case RequestRaised => Some(ProviderError)
                               case NoStructuredOutput => Some(StructuredOutputParseError)
                               case SchemaInvalid => Some(SchemaValidationError)
                               case Answered(_) => Some(CompactedSpanMismatch))
      && (plan.modelRequested <==> policy == ModelBackedCompaction)
      && plan.turn == turn && plan.itemsBefore == |ms| && plan.policy == policy && plan.selection.policy == policy
  {
    hide DeterministicResult, TailWindowResult, FullHistoryResult;
  }

  /** The choice of what to compact never depends on the backend. A model summary changes the policy and the
      failure recorded, the summary message, and in the artifact who wrote the summary and when, and what it
      carries forward; summary and carried state are the backend's. Every index, range, token count, reason
      and flag is the deterministic plan's, and so are the messages the plan lists as selected. */
  lemma BackendKeepsSpan(ms: seq<Message>, limits: Limits, session: Session, turn: nat, reply: Reply)
    ensures var det := PlanFor(ms, DeterministicCompaction, limits, Some(session), turn);
      var plan := FinalPlan(ms, ModelBackedCompaction, limits, session, turn, reply);
      && (plan.artifact.Some? <==> det.artifact.Some?)
      && (plan.summary.Some? <==> det.summary.Some?)
      && plan.selection.(policy := det.selection.policy) == det.selection
      && plan.metadata == det.metadata && plan.selected == det.selected
      && (plan.artifact.Some? ==>
            var a, d := plan.artifact.value, det.artifact.value;
            && a.(policy := d.policy, slot := d.slot, carried := d.carried) == d
            && a.slot.openedAt == d.slot.openedAt && a.slot.sources == d.slot.sources)
      && (!plan.modelUsed ==> plan.summary == det.summary && plan.artifact == det.artifact)
      && (plan.modelUsed ==>
            && reply.Answered? && plan.artifact.Some?
            && plan.summary == Some(Message(System, reply.output.bytes, reply.output.payload))
            && plan.artifact.value.carried == reply.output.carried && plan.artifact.value.slot.modelWritten
            && plan.artifact.value.slot.refreshedAt == turn)
  {
    hide DeterministicResult;
    PlanCompactsPrefix(ms, Some(session), turn, limits);
  }

  /** Under every policy the flags of a plan describe the messages it lists as selected. */
  lemma PlanFlags(ms: seq<Message>, policy: PolicyMode, limits: Limits, session: Session, turn: nat, reply: Reply)
    ensures var plan := FinalPlan(ms, policy, limits, session, turn, reply);
      && (plan.selection.budgetSatisfied <==> TokensAllow(plan.selected, limits))
      && plan.selection.overflow == TokenOverflow(plan.selected, limits)
  {
    hide DeterministicResult, Scan, Tokens, Pick;
    DeterministicFlags(ms, session, turn, limits);
    OverflowAndTarget(ms, limits);
    OverflowAndTarget(TailWindowResult(ms, limits).selected, limits);
  }

  /** A final plan compacts turns 1 to k, or (outside the tail window) keeps every message. */
  lemma FinalPlanShape(ms: seq<Message>, policy: PolicyMode, limits: Limits, session: Session, turn: nat, reply: Reply)
    ensures var plan := FinalPlan(ms, policy, limits, session, turn, reply);
      var k := |plan.metadata.compactedTurns|;
      && (k > 0 <==> plan.artifact.Some?) && (k > 0 <==> plan.summary.Some?)
      && (k > 0 ==>
            && (policy == DeterministicCompaction || policy == ModelBackedCompaction)
            && k <= Assistants(ms)
            && plan.artifact.value.compacted == IndicesIn(|ms|, FirstTurns(ms, k))
            && plan.summary.value.role == System)
      && (k == 0 && policy != TailWindow ==> plan.selection.included == Range(|ms|))
  {
    var plan := FinalPlan(ms, policy, limits, session, turn, reply);
    if policy == DeterministicCompaction || policy == ModelBackedCompaction {
      PlanCompactsPrefix(ms, Some(session), turn, limits);
    }
  }

  /** The token flags of a plan that uses a model summary still describe the deterministic request; the
      request sent weighs that much with one summary's tokens exchanged for the other's. */
  lemma FlagsDescribeDeterministicPlan(ms: seq<Message>, limits: Limits, session: Session, turn: nat, reply: Reply)
    requires FinalPlan(ms, ModelBackedCompaction, limits, session, turn, reply).modelUsed
    ensures var det := PlanFor(ms, DeterministicCompaction, limits, Some(session), turn);
      var plan := FinalPlan(ms, ModelBackedCompaction, limits, session, turn, reply);
      && det.summary.Some? && plan.summary.Some?
      && (plan.selection.budgetSatisfied <==> TokensAllow(det.selected, limits))
      && plan.selection.overflow == TokenOverflow(det.selected, limits)
      && TotalTokens(Replaced(ms, FirstTurns(ms, |plan.metadata.compactedTurns|), plan.summary.value), limits)
           == TotalTokens(det.selected, limits) - EstimateTokens(det.summary.value) + EstimateTokens(plan.summary.value)
  {
    var r := DeterministicResult(ms, Some(session), turn, limits);
    PlanCompactsPrefix(ms, Some(session), turn, limits);
    DeterministicFlags(ms, session, turn, limits);
    SummariesExchange(ms, CompactedTurnCount(r),
                      FinalPlan(ms, ModelBackedCompaction, limits, session, turn, reply).summary.value, r.summary.value);
  }

  lemma DeterministicFlags(ms: seq<Message>, session: Session, turn: nat, limits: Limits)
    ensures var r := DeterministicResult(ms, Some(session), turn, limits);
      && (r.selection.budgetSatisfied <==> TokensAllow(r.selected, limits))
      && r.selection.overflow == TokenOverflow(r.selected, limits)
  {
    var k := DeterministicShape(ms, Some(session), turn, limits);
    OverflowAndTarget(DeterministicResult(ms, Some(session), turn, limits).selected, limits);
  }

  lemma SummariesExchange(ms: seq<Message>, k: nat, a: Message, b: Message)
    requires 1 <= k <= Assistants(ms)
    ensures Tokens(Replaced(ms, FirstTurns(ms, k), a)) - EstimateTokens(a)
         == Tokens(Replaced(ms, FirstTurns(ms, k), b)) - EstimateTokens(b)
  {
    TurnRangesMeaning(ms);
    CoveredNonempty(ms, k);
    assert Hit(FirstTurns(ms, k), |ms|) by {
      var first :| first in FirstTurns(ms, k);
    }
    TokensReplaced(ms, FirstTurns(ms, k), a);
    TokensReplaced(ms, FirstTurns(ms, k), b);
  }
}
