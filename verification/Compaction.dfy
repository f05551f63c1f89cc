/** Deterministic compaction: whole old turns give way to one SYSTEM summary. */
module Compaction {
  import opened Prelude
  import opened Messages
  import opened TurnRanges
  import opened Planning

  /** The text a session renders for compacted turns, and the state it carries forward. */
  datatype Rendering = Rendering(bytes: nat, payload: nat, carried: nat)

  /** What the planner reads of the session: the opening turn of the active pending issue, the last
      successful validation turn, and how it renders a summary. */
  datatype Session = Session(
    issueOpenedAt: Option<int>, lastValidation: Option<int>, render: seq<TurnRange> -> Rendering)

  function PreserveFromTurn(session: Session): Option<int> {
    match (session.issueOpenedAt, session.lastValidation)
    case (None, v) => v
    case (i, None) => i
    case (Some(i), Some(v)) => Some(Min(i, v))
  }

  /** Turn `t` is older than the opening of the active issue and than the last successful validation. */
  predicate MayGo(session: Session, t: int) {
    && (session.issueOpenedAt.Some? ==> t < session.issueOpenedAt.value)
    && (session.lastValidation.Some? ==> t < session.lastValidation.value)
  }

  lemma PreservesExactly(session: Session, t: int)
    ensures (PreserveFromTurn(session).Some? ==> t < PreserveFromTurn(session).value) <==> MayGo(session, t)
  {
  }

  predicate IsCandidate(r: TurnRange, preserve: Option<int>) {
    preserve.None? || r.turn < preserve.value
  }

  function Candidates(ranges: seq<TurnRange>, preserve: Option<int>): seq<TurnRange> {
    if ranges == [] then [] else
    var r := ranges[|ranges| - 1];
    Candidates(ranges[..|ranges| - 1], preserve) + (if IsCandidate(r, preserve) then [r] else [])
  }

  function TurnsOf(ranges: seq<TurnRange>): seq<nat> { seq(|ranges|, j requires 0 <= j < |ranges| => ranges[j].turn) }

  function SummaryMessage(session: Session, ranges: seq<TurnRange>): Message {
    var text := session.render(ranges);
    Message(System, text.bytes, text.payload)
  }

  /** The request once the turns in `ranges` are replaced by their summary. */
  function Compacted(ms: seq<Message>, session: Session, ranges: seq<TurnRange>): seq<Message> {
    Replaced(ms, Covered(ranges), SummaryMessage(session, ranges))
  }

  /** The first count from `c` on whose compaction fits, or all candidates when none does. */
  function ChosenFrom(ms: seq<Message>, session: Session, candidates: seq<TurnRange>, limits: Limits, c: nat): nat
    requires c <= |candidates|
    decreases |candidates| - c
  {
    if c == |candidates| || Fits(Compacted(ms, session, candidates[..c]), limits) then c
    else ChosenFrom(ms, session, candidates, limits, c + 1)
  }

  function OverflowReason(selected: seq<Message>, pinned: seq<nat>, limits: Limits): Option<CompactionReason> {
    if TokensAllow(selected, limits) then None
    else if |selected| <= |pinned| then Some(PinnedTokenOverflow)
    else Some(TokenBudgetUnsatisfied)
  }

  function ArtifactReason(ms: seq<Message>, limits: Limits): Consideration {
    if MessageOverflow(ms, limits) && !TokensAllow(ms, limits) then MessageAndTokenLimitExceeded
    else if !TokensAllow(ms, limits) then TokenBudgetExceeded
    else MessageLimitExceeded
  }

  function SlotFor(ranges: seq<TurnRange>, compacted: seq<nat>, turn: nat): SummarySlot
    requires ranges != []
  {
    SummarySlot(ranges[0].turn, compacted, turn, false)
  }

  /** The result of compacting exactly `ranges`. */
  function CompactedResult(ms: seq<Message>, session: Session, turn: nat, limits: Limits,
                           candidates: seq<TurnRange>, ranges: seq<TurnRange>): Result
    requires ranges != []
  {
    var covered := Covered(ranges);
    var pinned := IndicesIn(|ms|, PinnedSet(ms));
    var compacted := IndicesIn(|ms|, covered);
    var retained := IndicesIn(|ms|, Below(|ms|) - covered);
    var selected := Compacted(ms, session, ranges);
    var overflowReason := OverflowReason(selected, pinned, limits);
    var artifact := Artifact(DeterministicCompaction, turn, pinned, compacted, retained, ranges,
      SlotFor(ranges, compacted, turn), session.render(ranges).carried, ArtifactReason(ms, limits),
      Tokens(ms), Tokens(selected), TokenTarget(limits), TokensAllow(selected, limits), overflowReason);
    var reason := if overflowReason.Some? then overflowReason else Some(DeterministicTurnCompaction);
    Result(selected,
           BuildSelection(ms, selected, DeterministicCompaction, limits, retained, true, reason, |covered|),
           Some(artifact), Some(SummaryMessage(session, ranges)),
           Metadata(true, ArtifactReason(ms, limits), None, MessageOverflow(ms, limits), !TokensAllow(ms, limits),
                    pinned, PreserveFromTurn(session), TurnsOf(candidates), TurnsOf(ranges)))
  }

  function DeterministicResult(ms: seq<Message>, session: Option<Session>, turn: nat, limits: Limits): Result {
    var messageOverflow, tokenOverflow := MessageOverflow(ms, limits), !TokensAllow(ms, limits);
    var pinned := IndicesIn(|ms|, PinnedSet(ms));
    if Fits(ms, limits) then
      Untouched(ms, DeterministicCompaction, limits,
                Metadata(false, WithinLimits, None, messageOverflow, tokenOverflow, [], None, [], []))
    else if session.None? then
      Untouched(ms, DeterministicCompaction, limits,
                Metadata(true, MissingSessionStateForCompaction, Some(MissingSessionState), messageOverflow,
                         tokenOverflow, [], None, [], []))
    else if TurnRangesOf(ms) == [] then
      Untouched(ms, DeterministicCompaction, limits,
                Metadata(true, CandidateSearch, Some(NoTurnRangesAvailable), messageOverflow, tokenOverflow,
                         pinned, None, [], []))
    else
      var preserve := PreserveFromTurn(session.value);
      var candidates := Candidates(TurnRangesOf(ms), preserve);
      if candidates == [] then
        Untouched(ms, DeterministicCompaction, limits,
                  Metadata(true, CandidateSearch, Some(CandidateTurnsPreserved), messageOverflow, tokenOverflow,
                           pinned, preserve, [], []))
      else
        var c := ChosenFrom(ms, session.value, candidates, limits, 1);
        ChosenBounds(ms, session.value, candidates, limits, 1);
        CompactedResult(ms, session.value, turn, limits, candidates, candidates[..c])
  }

  method SelectDeterministicCompaction(ms: seq<Message>, session: Option<Session>, turn: nat, limits: Limits)
    returns (r: Result)
    ensures r == DeterministicResult(ms, session, turn, limits)
  {
    var fits := Fits(ms, limits);
    var messageOverflow, tokenOverflow := MessageOverflow(ms, limits), !TokensAllow(ms, limits);
    if session.None? || fits {
      return Untouched(ms, DeterministicCompaction, limits,
        Metadata(!fits, if fits then WithinLimits else MissingSessionStateForCompaction,
          if fits then None else Some(MissingSessionState), messageOverflow, tokenOverflow, [], None, [], []));
    }
    var pinned := IndicesIn(|ms|, PinnedSet(ms));
    var ranges := BuildTurnRanges(ms);
    if ranges == [] {
      return Untouched(ms, DeterministicCompaction, limits,
        Metadata(true, CandidateSearch, Some(NoTurnRangesAvailable), messageOverflow, tokenOverflow,
          pinned, None, [], []));
    }
    var preserve := PreserveFromTurn(session.value);
    var candidates := Candidates(ranges, preserve);
    if candidates == [] {
      return Untouched(ms, DeterministicCompaction, limits,
        Metadata(true, CandidateSearch, Some(CandidateTurnsPreserved), messageOverflow, tokenOverflow,
          pinned, preserve, [], []));
    }
    var chosen := SearchCandidates(ms, session.value, candidates, limits);
    r := CompactedResult(ms, session.value, turn, limits, candidates, chosen);
  }

  /** The candidate loop: adds one turn at a time and stops at the first request that fits. */
  method SearchCandidates(ms: seq<Message>, session: Session, candidates: seq<TurnRange>, limits: Limits)
    returns (chosen: seq<TurnRange>)
    requires candidates != []
    ensures 1 <= ChosenFrom(ms, session, candidates, limits, 1) <= |candidates|
    ensures chosen == candidates[..ChosenFrom(ms, session, candidates, limits, 1)]
  {
    ChosenBounds(ms, session, candidates, limits, 1);
    chosen := [];
    var covered: set<nat> := {};
    var k := 0;
    while k < |candidates|
      invariant 0 <= k <= |candidates|
      invariant chosen == candidates[..k] && covered == Covered(chosen)
      invariant k < |candidates| ==>
        ChosenFrom(ms, session, candidates, limits, 1) == ChosenFrom(ms, session, candidates, limits, k + 1)
      invariant k == |candidates| ==> ChosenFrom(ms, session, candidates, limits, 1) == k
    {
      var before := chosen;
      chosen := chosen + [candidates[k]];
      assert chosen[..|chosen| - 1] == before;
      covered := covered + ToSet(candidates[k].indices);
      var summary := SummaryMessage(session, chosen);
      var selected := Replaced(ms, covered, summary);
      assert chosen == candidates[..k + 1];
      if Fits(selected, limits) {
        return;
      }
      k := k + 1;
    }
  }

  lemma {:induction false} ChosenBounds(ms: seq<Message>, session: Session, candidates: seq<TurnRange>, limits: Limits,
                                        c: nat)
    requires c <= |candidates|
    ensures c <= ChosenFrom(ms, session, candidates, limits, c) <= |candidates|
    decreases |candidates| - c
  {
    if c < |candidates| {
      ChosenBounds(ms, session, candidates, limits, c + 1);
    }
  }

  /** The least number of oldest candidate turns whose replacement fits is taken, or all of them. */
  lemma {:induction false} ChosenIsLeast(ms: seq<Message>, session: Session, candidates: seq<TurnRange>, limits: Limits,
                                         c: nat)
    requires c <= |candidates|
    ensures var n := ChosenFrom(ms, session, candidates, limits, c);
      && c <= n <= |candidates|
      && (forall d :: c <= d < n ==> !Fits(Compacted(ms, session, candidates[..d]), limits))
      && (n == |candidates| || Fits(Compacted(ms, session, candidates[..n]), limits))
    decreases |candidates| - c
  {
    if c < |candidates| && !Fits(Compacted(ms, session, candidates[..c]), limits) {
      ChosenIsLeast(ms, session, candidates, limits, c + 1);
    }
  }

  /** Turn numbers ascend from 1, so the candidates are a prefix of the ranges. */
  lemma {:induction false} CandidatesArePrefix(ms: seq<Message>, preserve: Option<int>, n: nat)
    requires n <= |TurnRangesOf(ms)|
    ensures var k := if preserve.None? then n else Min(n, Max(preserve.value - 1, 0));
      Candidates(TurnRangesOf(ms)[..n], preserve) == TurnRangesOf(ms)[..k]
  {
    var ranges := TurnRangesOf(ms);
    if n > 0 {
      CandidatesArePrefix(ms, preserve, n - 1);
      TurnNumber(ms, n - 1);
      assert ranges[..n][..n - 1] == ranges[..n - 1];
    }
  }

  lemma TurnNumber(ms: seq<Message>, j: nat)
    requires j < |TurnRangesOf(ms)|
    ensures TurnRangesOf(ms)[j].turn == j + 1
  {
    TurnRangesMeaning(ms);
    assert IsTurn(ms, TurnRangesOf(ms)[j], j + 1);
  }

  /** How many turns the planner compacts, 0 when it leaves the request alone. */
  function CompactedTurnCount(r: Result): nat { |r.metadata.compactedTurns| }

  /** The plan either leaves the request alone or compacts a prefix of its turns. */
  lemma DeterministicShape(ms: seq<Message>, session: Option<Session>, turn: nat, limits: Limits)
    returns (k: nat)
    ensures k <= |TurnRangesOf(ms)|
    ensures var r := DeterministicResult(ms, session, turn, limits);
      if k == 0 then
        r == Untouched(ms, DeterministicCompaction, limits, r.metadata) && r.metadata.compactedTurns == []
      else
        && session.Some? && !Fits(ms, limits)
        && (PreserveFromTurn(session.value).Some? ==> k < PreserveFromTurn(session.value).value)
        && r == CompactedResult(ms, session.value, turn, limits,
                                Candidates(TurnRangesOf(ms), PreserveFromTurn(session.value)), TurnRangesOf(ms)[..k])
        && 1 <= |Candidates(TurnRangesOf(ms), PreserveFromTurn(session.value))|
        && k == ChosenFrom(ms, session.value, Candidates(TurnRangesOf(ms), PreserveFromTurn(session.value)), limits, 1)
  {
    hide BuildSelection, Compacted, Tokens, Pick, Covered;
    k := 0;
    var r := DeterministicResult(ms, session, turn, limits);
    if r.artifact.Some? {
      var ranges := TurnRangesOf(ms);
      var preserve := PreserveFromTurn(session.value);
      var candidates := Candidates(ranges, preserve);
      assert ranges[..|ranges|] == ranges;
      CandidatesArePrefix(ms, preserve, |ranges|);
      ChosenBounds(ms, session.value, candidates, limits, 1);
      k := ChosenFrom(ms, session.value, candidates, limits, 1);
      assert candidates[..k] == ranges[..k];
    }
  }

  lemma TurnsOfPrefix(ms: seq<Message>, k: nat)
    requires k <= |TurnRangesOf(ms)|
    ensures TurnsOf(TurnRangesOf(ms)[..k]) == seq(k, j => j + 1)
  {
    forall j | 0 <= j < k ensures TurnsOf(TurnRangesOf(ms)[..k])[j] == j + 1 {
      TurnNumber(ms, j);
    }
  }

  /** The plan `r` replaces turns 1 to `k` of the request by its summary, and nothing else. */
  ghost predicate Compacts(ms: seq<Message>, r: Result, k: nat) {
    && 1 <= k <= Assistants(ms)
    && r.artifact.Some? && r.summary.Some? && r.summary.value.role == System
    && r.metadata.compactedTurns == seq(k, j => j + 1)
    && r.artifact.value.compacted == IndicesIn(|ms|, FirstTurns(ms, k))
    && r.artifact.value.retained == IndicesIn(|ms|, Below(|ms|) - FirstTurns(ms, k))
    && r.artifact.value.pinned == IndicesIn(|ms|, PinnedSet(ms))
    && r.selection.included == r.artifact.value.retained
    && r.selected == Replaced(ms, FirstTurns(ms, k), r.summary.value)
  }

  /** The plan leaves every message in place. */
  ghost predicate KeepsAll(ms: seq<Message>, r: Result) {
    && r.artifact.None? && r.summary.None? && r.selected == ms
    && r.selection.included == Range(|ms|) && r.metadata.compactedTurns == []
  }

  /** A deterministic plan keeps everything or compacts turns 1 to k, all of them before the turn that
      must be preserved; it compacts only a request that breaks a limit. */
  lemma PlanCompactsPrefix(ms: seq<Message>, session: Option<Session>, turn: nat, limits: Limits)
    ensures var r := DeterministicResult(ms, session, turn, limits);
      var k := CompactedTurnCount(r);
      if k == 0 then KeepsAll(ms, r) else
        && Compacts(ms, r, k) && !RespectsLimits(ms, limits) && session.Some? && MayGo(session.value, k)
  {
    var k := DeterministicShape(ms, session, turn, limits);
    if k > 0 {
      PreservesExactly(session.value, k);
      TurnRangesMeaning(ms);
      CoveredMeaning(ms, k);
      TurnsOfPrefix(ms, k);
    }
  }

  /** Which turns a plan compacts, in terms of the limits and the session. It compacts something exactly if
      the request breaks a limit and its first turn may go. Only turns that may go are compacted, and no
      fewer of them would have been enough; when even the result breaks a limit, all that may go have gone. */
  lemma CompactsExactly(ms: seq<Message>, session: Session, turn: nat, limits: Limits)
    ensures var r := DeterministicResult(ms, Some(session), turn, limits);
      var k, ranges := CompactedTurnCount(r), TurnRangesOf(ms);
      && (k > 0 <==> !RespectsLimits(ms, limits) && Assistants(ms) > 0 && MayGo(session, 1))
      && k <= |ranges| == Assistants(ms)
      && (forall t :: 1 <= t <= k ==> MayGo(session, t))
      && (forall d :: 1 <= d < k ==> !RespectsLimits(Compacted(ms, session, ranges[..d]), limits))
      && (k > 0 && !RespectsLimits(r.selected, limits) ==>
            forall t :: 1 <= t <= Assistants(ms) && MayGo(session, t) ==> t <= k)
  {
    hide DeterministicResult, Compacted, RespectsLimits, Fits, Candidates, MayGo, PreserveFromTurn, ChosenFrom;
    var ranges := TurnRangesOf(ms);
    var k := TakenCount(ms, session, turn, limits);
    var n := CandidateCount(ms, session);
    TurnRangesMeaning(ms);
    forall xs {:trigger RespectsLimits(xs, limits)} ensures RespectsLimits(xs, limits) <==> Fits(xs, limits) {
      FitsExactly(xs, limits);
    }
    if n > 0 {
      var candidates := Candidates(ranges, PreserveFromTurn(session));
      ChosenIsLeast(ms, session, candidates, limits, 1);
      forall d | 1 <= d <= n ensures candidates[..d] == ranges[..d] {
      }
      if k > 0 {
        SelectedWhen(ms, session, turn, limits, k);
      }
    }
  }

  lemma FitsExactly(ms: seq<Message>, limits: Limits)
    ensures RespectsLimits(ms, limits) <==> Fits(ms, limits)
  {
  }

  lemma SelectedWhen(ms: seq<Message>, session: Session, turn: nat, limits: Limits, k: nat)
    requires k == CompactedTurnCount(DeterministicResult(ms, Some(session), turn, limits)) > 0
    ensures k <= |TurnRangesOf(ms)|
    ensures DeterministicResult(ms, Some(session), turn, limits).selected
         == Compacted(ms, session, TurnRangesOf(ms)[..k])
  {
    var n := DeterministicShape(ms, Some(session), turn, limits);
    TurnsOfPrefix(ms, n);
  }

  /** The candidates are the begun turns that may go, counted from the first. */
  lemma CandidateCount(ms: seq<Message>, session: Session) returns (n: nat)
    ensures n <= |TurnRangesOf(ms)|
    ensures Candidates(TurnRangesOf(ms), PreserveFromTurn(session)) == TurnRangesOf(ms)[..n]
    ensures forall t :: 1 <= t <= |TurnRangesOf(ms)| ==> (t <= n <==> MayGo(session, t))
  {
    var ranges, preserve := TurnRangesOf(ms), PreserveFromTurn(session);
    assert ranges[..|ranges|] == ranges;
    CandidatesArePrefix(ms, preserve, |ranges|);
    n := |Candidates(ranges, preserve)|;
    forall t | 1 <= t <= |ranges| ensures t <= n <==> MayGo(session, t) {
      PreservesExactly(session, t);
    }
  }

  /** How many turns a deterministic plan compacts. */
  lemma TakenCount(ms: seq<Message>, session: Session, turn: nat, limits: Limits) returns (k: nat)
    ensures k == CompactedTurnCount(DeterministicResult(ms, Some(session), turn, limits))
    ensures var candidates := Candidates(TurnRangesOf(ms), PreserveFromTurn(session));
      k == if Fits(ms, limits) || candidates == [] then 0 else ChosenFrom(ms, session, candidates, limits, 1)
    ensures k <= |Candidates(TurnRangesOf(ms), PreserveFromTurn(session))|
  {
    var candidates := Candidates(TurnRangesOf(ms), PreserveFromTurn(session));
    k := DeterministicShape(ms, Some(session), turn, limits);
    if k > 0 {
      TurnsOfPrefix(ms, k);
      ChosenBounds(ms, session, candidates, limits, 1);
    } else if !Fits(ms, limits) && candidates != [] {
      var n := CandidateCount(ms, session);
    }
  }

  /** What a plan says of its own decision: why compaction was considered or skipped, and which turns were
      candidates. */
  lemma DecisionRecorded(ms: seq<Message>, session: Option<Session>, turn: nat, limits: Limits)
    ensures var r := DeterministicResult(ms, session, turn, limits);
      var d, k := r.metadata, CompactedTurnCount(r);
      var tooMany := limits.maxMessages.Some? && |ms| > limits.maxMessages.value;
      var tooLong := Overweight(ms, limits);
      && d.messageOverflow == tooMany && d.tokenOverflow == tooLong && d.considered == (tooMany || tooLong)
      && d.skip == (if k > 0 || !d.considered then None
                    else if session.None? then Some(MissingSessionState)
                    else if Assistants(ms) == 0 then Some(NoTurnRangesAvailable) else Some(CandidateTurnsPreserved))
      && d.why == (if !d.considered then WithinLimits
                   else if session.None? then MissingSessionStateForCompaction
                   else if k == 0 then CandidateSearch
                   else if tooMany && tooLong then MessageAndTokenLimitExceeded
                   else if tooLong then TokenBudgetExceeded else MessageLimitExceeded)
      && (d.considered && session.Some? && Assistants(ms) > 0 ==>
            && (forall t: nat :: t in d.candidateTurns <==> 1 <= t <= Assistants(ms) && MayGo(session.value, t))
            && (forall t :: (d.preservedFrom.Some? ==> t < d.preservedFrom.value) <==> MayGo(session.value, t)))
  {
    hide Tokens, Compacted, Candidates, ChosenFrom, MayGo, PreserveFromTurn, BuildSelection;
    var k := DeterministicShape(ms, session, turn, limits);
    TurnsOfPrefix(ms, k);
    TurnRangesMeaning(ms);
    if session.Some? {
      CandidatesRecorded(ms, session.value);
    }
  }

  lemma CandidatesRecorded(ms: seq<Message>, session: Session)
    ensures var candidates := Candidates(TurnRangesOf(ms), PreserveFromTurn(session));
      forall t: nat :: t in TurnsOf(candidates) <==> 1 <= t <= Assistants(ms) && MayGo(session, t)
    ensures forall t :: (PreserveFromTurn(session).Some? ==> t < PreserveFromTurn(session).value) <==> MayGo(session, t)
  {
    var n := CandidateCount(ms, session);
    TurnsOfPrefix(ms, n);
    TurnRangesMeaning(ms);
    forall t {:trigger MayGo(session, t)}
      ensures (PreserveFromTurn(session).Some? ==> t < PreserveFromTurn(session).value) <==> MayGo(session, t)
    {
      PreservesExactly(session, t);
    }
    hide MayGo, PreserveFromTurn;
    forall t: nat ensures t in TurnsOf(TurnRangesOf(ms)[..n]) <==> 1 <= t <= Assistants(ms) && MayGo(session, t) {
      assert 1 <= t <= n ==> seq(n, j => j + 1)[t - 1] == t;
    }
  }

  /** What a compacting plan says of the compaction: the summary and the carried state are those rendered for
      exactly the turns compacted, and the sizes are those of the request before and after. */
  lemma ArtifactRecorded(ms: seq<Message>, session: Session, turn: nat, limits: Limits)
    requires CompactedTurnCount(DeterministicResult(ms, Some(session), turn, limits)) > 0
    ensures var r := DeterministicResult(ms, Some(session), turn, limits);
      var k := CompactedTurnCount(r);
      && k <= |TurnRangesOf(ms)| && r.artifact.Some? && r.summary.Some?
      && var a, ranges := r.artifact.value, TurnRangesOf(ms)[..k];
      && var text := session.render(ranges);
      && r.summary.value == Message(System, text.bytes, text.payload) && a.carried == text.carried
      && a.turn == turn && a.ranges == ranges && a.slot == SummarySlot(1, a.compacted, turn, false)
      && a.reason == r.metadata.why && a.tokensBefore == Tokens(ms) && a.tokensAfter == Tokens(r.selected)
      && (a.budgetSatisfied <==> !Overweight(r.selected, limits))
      && a.target == (if limits.maxTokens.None? then None
                      else Some(Max(limits.maxTokens.value - limits.toolReserve - limits.responseReserve, 0)))
      && r.selection.applied
      && r.selection.reason == Some(if a.budgetSatisfied then DeterministicTurnCompaction else TokenBudgetUnsatisfied)
  {
    hide DeterministicResult, CompactedResult, Tokens, Candidates, ChosenFrom, Compacted, Compacts;
    var k := DeterministicShape(ms, Some(session), turn, limits);
    TurnsOfPrefix(ms, k);
    TurnNumber(ms, 0);
    ResultRecorded(ms, session, turn, limits, Candidates(TurnRangesOf(ms), PreserveFromTurn(session)),
                   TurnRangesOf(ms)[..k]);
    CompactionSize(ms, session, turn, limits);
  }

  lemma ResultRecorded(ms: seq<Message>, session: Session, turn: nat, limits: Limits, candidates: seq<TurnRange>,
                       ranges: seq<TurnRange>)
    requires ranges != [] && ranges[0].turn == 1
    ensures var r := CompactedResult(ms, session, turn, limits, candidates, ranges);
      && r.artifact.Some? && r.summary.Some?
      && var a, text := r.artifact.value, session.render(ranges);
      && r.metadata.compactedTurns == TurnsOf(ranges)
      && r.summary.value == Message(System, text.bytes, text.payload) && a.carried == text.carried
      && a.turn == turn && a.ranges == ranges && a.slot == SummarySlot(1, a.compacted, turn, false)
      && a.reason == r.metadata.why && a.tokensBefore == Tokens(ms) && a.tokensAfter == Tokens(r.selected)
      && (a.budgetSatisfied <==> !Overweight(r.selected, limits))
      && a.target == (if limits.maxTokens.None? then None
                      else Some(Max(limits.maxTokens.value - limits.toolReserve - limits.responseReserve, 0)))
      && (a.budgetSatisfied <==> TokensAllow(r.selected, limits))
      && r.selection.applied
      && r.selection.reason == (if a.overflowReason.Some? then a.overflowReason else Some(DeterministicTurnCompaction))
      && (a.overflowReason == None || a.overflowReason == Some(PinnedTokenOverflow)
          || a.overflowReason == Some(TokenBudgetUnsatisfied))
  {
    hide Tokens, Compacted, BuildSelection, Pick, IndicesIn, Covered;
    SelectionFields(ms, Compacted(ms, session, ranges), limits);
  }

  lemma SelectionFields(ms: seq<Message>, selected: seq<Message>, limits: Limits)
    ensures forall policy, included, applied, reason, count
      {:trigger BuildSelection(ms, selected, policy, limits, included, applied, reason, count)} ::
      var s := BuildSelection(ms, selected, policy, limits, included, applied, reason, count);
      s.applied == applied && s.reason == reason
  {
  }

  lemma ReplacedTurnsSize(ms: seq<Message>, k: nat, mark: Message)
    requires 1 <= k <= |TurnRangesOf(ms)|
    ensures var c := |FirstTurns(ms, k)|;
      && c >= 1 && |Replaced(ms, FirstTurns(ms, k), mark)| == |ms| - c + 1
      && |IndicesIn(|ms|, FirstTurns(ms, k))| == c
      && |IndicesIn(|ms|, PinnedSet(ms))| < |ms| - c + 1
  {
    var covered := FirstTurns(ms, k);
    CoveredNonempty(ms, k);
    assert Hit(covered, |ms|) by {
      var first :| first in covered;
    }
    ReplacedLength(ms, covered, mark);
    assert covered * Below(|ms|) == covered;
    IndicesInCount(|ms|, covered);
    IndicesInCount(|ms|, PinnedSet(ms));
    assert PinnedSet(ms) * Below(|ms|) == PinnedSet(ms);
    PinnedAndCovered(ms, k);
  }

  /** A compaction leaves n - c + 1 messages, which always exceeds the pinned ones, so no overflow is
      ever blamed on the pinned messages alone. */
  lemma CompactionSize(ms: seq<Message>, session: Session, turn: nat, limits: Limits)
    requires DeterministicResult(ms, Some(session), turn, limits).artifact.Some?
    ensures var r := DeterministicResult(ms, Some(session), turn, limits);
      var c := |r.artifact.value.compacted|;
      && c >= 1 && |r.selected| == |ms| - c + 1
      && |r.artifact.value.pinned| < |r.selected|
      && r.selection.compactedCount == c
      && r.artifact.value.overflowReason != Some(PinnedTokenOverflow)
      && (r.artifact.value.overflowReason.None? <==> TokensAllow(r.selected, limits))
  {
    var k := DeterministicShape(ms, Some(session), turn, limits);
    CoveredMeaning(ms, k);
    ReplacedTurnsSize(ms, k, SummaryMessage(session, TurnRangesOf(ms)[..k]));
  }

  lemma BelowSize(n: nat)
    ensures |Below(n)| == n
  {
  }

  lemma PinnedAndCovered(ms: seq<Message>, k: nat)
    ensures |PinnedSet(ms)| + |FirstTurns(ms, k)| <= |ms|
  {
    var both := PinnedSet(ms) + FirstTurns(ms, k);
    assert PinnedSet(ms) !! FirstTurns(ms, k);
    assert both <= Below(|ms|);
    assert |both| == |PinnedSet(ms)| + |FirstTurns(ms, k)|;
    assert Below(|ms|) == both + (Below(|ms|) - both);
    BelowSize(|ms|);
  }

  /** Tokens are conserved: what the request weighs after compaction, plus what was omitted, is what it
      weighed before, plus the summary. */
  lemma CompactionTokens(ms: seq<Message>, session: Session, turn: nat, limits: Limits)
    requires DeterministicResult(ms, Some(session), turn, limits).artifact.Some?
    ensures var r := DeterministicResult(ms, Some(session), turn, limits);
      && r.artifact.value.tokensAfter + r.selection.omittedTokens
           == r.artifact.value.tokensBefore + EstimateTokens(r.summary.value)
      && r.selection.selectedTokens == r.artifact.value.tokensAfter
      && (r.selection.overflow == 0 <==> r.artifact.value.budgetSatisfied)
  {
    hide DeterministicResult, Candidates, ChosenFrom, Fits, Tokens, Pick;
    var r := DeterministicResult(ms, Some(session), turn, limits);
    var k := DeterministicShape(ms, Some(session), turn, limits);
    PlanCompactsPrefix(ms, Some(session), turn, limits);
    TurnRangesMeaning(ms);
    CoveredNonempty(ms, k);
    TokensReplaced(ms, FirstTurns(ms, k), r.summary.value);
    assert Hit(FirstTurns(ms, k), |ms|) by {
      var first :| first in FirstTurns(ms, k);
    }
    OmittedTokens(ms, FirstTurns(ms, k));
  }

  lemma OmittedTokens(ms: seq<Message>, covered: set<nat>)
    requires covered <= Below(|ms|)
    ensures Tokens(Pick(ms, IndicesIn(|ms|, Below(|ms|) - ToSet(IndicesIn(|ms|, Below(|ms|) - covered)))))
         == TokensIn(ms, covered)
  {
    IndicesInMembers(|ms|, Below(|ms|) - covered);
    assert Below(|ms|) - ToSet(IndicesIn(|ms|, Below(|ms|) - covered)) == covered;
    TokensPick(ms, covered, |ms|);
    assert ms[..|ms|] == ms;
  }
}
