/** What a context policy decides for one request, and the budget arithmetic behind it. */
module Planning {
  import opened Prelude
  import opened Messages
  import opened TurnRanges

  datatype PolicyMode = FullHistory | TailWindow | DeterministicCompaction | ModelBackedCompaction

  datatype Limits = Limits(
    maxMessages: Option<int>, maxTokens: Option<int>, toolReserve: int, responseReserve: int)

  datatype Consideration =
    | FullHistoryPolicy
    | TailWindowWithoutLimits
    | TailWindowLimitExceeded
    | TailWindowLimitNotTriggered
    | WithinLimits
    | MissingSessionStateForCompaction
    | CandidateSearch
    | MessageLimitExceeded
    | TokenBudgetExceeded
    | MessageAndTokenLimitExceeded

  datatype SkipReason =
    | AllMessagesRetained
    | MissingSessionState
    | NoTurnRangesAvailable
    | CandidateTurnsPreserved

  datatype CompactionReason =
    | TailWindowTruncation
    | PinnedTokenOverflow
    | DeterministicTurnCompaction
    | TokenBudgetUnsatisfied

  datatype Selection = Selection(
    policy: PolicyMode,
    included: seq<nat>,
    omittedCount: nat,
    compactedCount: nat,
    applied: bool,
    reason: Option<CompactionReason>,
    selectedTokens: nat,
    omittedTokens: nat,
    budgetSatisfied: bool,
    overflow: nat)

  datatype SummarySlot = SummarySlot(
    openedAt: nat, sources: seq<nat>, refreshedAt: nat, modelWritten: bool)

  datatype Artifact = Artifact(
    policy: PolicyMode,
    turn: nat,
    pinned: seq<nat>,
    compacted: seq<nat>,
    retained: seq<nat>,
    ranges: seq<TurnRange>,
    slot: SummarySlot,
    carried: nat,
    reason: Consideration,
    tokensBefore: nat,
    tokensAfter: nat,
    target: Option<int>,
    budgetSatisfied: bool,
    overflowReason: Option<CompactionReason>)

  datatype Metadata = Metadata(
    considered: bool,
    why: Consideration,
    skip: Option<SkipReason>,
    messageOverflow: bool,
    tokenOverflow: bool,
    pinned: seq<nat>,
    preservedFrom: Option<int>,
    candidateTurns: seq<nat>,
    compactedTurns: seq<nat>)

  datatype Result = Result(
    selected: seq<Message>,
    selection: Selection,
    artifact: Option<Artifact>,
    summary: Option<Message>,
    metadata: Metadata)

  function TotalTokens(ms: seq<Message>, limits: Limits): int {
    Tokens(ms) + limits.toolReserve + limits.responseReserve
  }

  predicate CountAllows(ms: seq<Message>, limits: Limits) {
    limits.maxMessages.None? || |ms| <= limits.maxMessages.value
  }

  predicate TokensAllow(ms: seq<Message>, limits: Limits) {
    limits.maxTokens.None? || TotalTokens(ms, limits) <= limits.maxTokens.value
  }

  predicate Fits(ms: seq<Message>, limits: Limits) {
    CountAllows(ms, limits) && TokensAllow(ms, limits)
  }

  function TokenOverflow(ms: seq<Message>, limits: Limits): nat {
    if limits.maxTokens.None? then 0 else Max(TotalTokens(ms, limits) - limits.maxTokens.value, 0)
  }

  /** What the reserves leave for messages, never below zero. */
  function TokenTarget(limits: Limits): Option<int> {
    if limits.maxTokens.None? then None
    else Some(Max(limits.maxTokens.value - limits.toolReserve - limits.responseReserve, 0))
  }

  predicate MessageOverflow(ms: seq<Message>, limits: Limits) { !CountAllows(ms, limits) }

  function BuildSelection(ms: seq<Message>, selected: seq<Message>, policy: PolicyMode, limits: Limits,
                          included: seq<nat>, applied: bool, reason: Option<CompactionReason>,
                          compactedCount: nat): Selection {
    var overflow := TokenOverflow(selected, limits);
    Selection(policy, included, Max(|ms| - |included|, 0), compactedCount, applied, reason, Tokens(selected),
              Tokens(Pick(ms, IndicesIn(|ms|, Below(|ms|) - ToSet(included)))), overflow == 0, overflow)
  }

  /** Every message is kept. */
  function Untouched(ms: seq<Message>, policy: PolicyMode, limits: Limits, metadata: Metadata): Result {
    Result(ms, BuildSelection(ms, ms, policy, limits, Range(|ms|), false, None, 0), None, None, metadata)
  }

  function FullHistoryResult(ms: seq<Message>, limits: Limits): Result {
    Untouched(ms, FullHistory, limits, Metadata(false, FullHistoryPolicy, None, false, false, [], None, [], []))
  }

  /** The messages, sent beside the reserves, exceed the token limit. */
  predicate Overweight(ms: seq<Message>, limits: Limits) {
    limits.maxTokens.Some? && Tokens(ms) > limits.maxTokens.value - limits.toolReserve - limits.responseReserve
  }

  /** What the limits ask of a request. */
  ghost predicate RespectsLimits(ms: seq<Message>, limits: Limits) {
    && (limits.maxMessages.Some? ==> |ms| <= limits.maxMessages.value)
    && !Overweight(ms, limits)
  }

  /** The overflow a selection reports is zero exactly when the request fits, and exactly when its
      estimate is within the clamped target unless the reserves alone exceed the limit and the request
      is empty. */
  lemma OverflowAndTarget(ms: seq<Message>, limits: Limits)
    ensures TokenOverflow(ms, limits) == 0 <==> TokensAllow(ms, limits)
    ensures limits.maxTokens.Some? ==>
      ((TokenOverflow(ms, limits) == 0 <==> Tokens(ms) <= TokenTarget(limits).value) <==>
       (ms != [] || limits.toolReserve + limits.responseReserve <= limits.maxTokens.value))
  {
    if ms != [] {
      assert Tokens(ms) >= 1;
    }
  }
}
