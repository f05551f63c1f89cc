/** The evolution audit: how each request history grows out of the previous request. */
module Evolution {
  import opened Prelude
  import opened Sorting
  import opened Messages
  import opened RetainedHistory
  import opened RequestContext
  import opened Replay
  import opened Lineage

  datatype EvolutionIssue =
    | NotReplayed(error: ReplayError)
    | InitialMismatch
    | ShorterThanPrevious
    | PrefixLost
    | SuffixDiffers

  datatype TransitionKind = InitialSnapshot | InitialCompaction | AppendOnly | ReplacementCompaction

  datatype Transition = Transition(
    previous: Option<nat>,
    turn: nat,
    kind: TransitionKind,
    previousCount: nat,
    preCount: nat,
    selectedCount: nat,
    appendedEntries: seq<nat>,
    appendedIndices: seq<nat>,
    snapshotEntries: seq<nat>,
    prefixOk: bool,
    suffixOk: bool,
    issues: seq<EvolutionIssue>)

  datatype EvolutionReport = EvolutionReport(ok: bool, transitions: seq<Transition>)

  /** `xs` from `lo` to `hi`, where positions beyond the end are cut off. */
  function Slice<T>(xs: seq<T>, lo: nat, hi: nat): seq<T> {
    if lo < Min(hi, |xs|) then xs[lo..Min(hi, |xs|)] else []
  }

  function SourcesIn(entries: seq<Entry>): seq<Entry> {
    if entries == [] then [] else
    var e := entries[|entries| - 1];
    SourcesIn(entries[..|entries| - 1]) + (if e.kind.SourceMessage? then [e] else [])
  }

  function Payloads(entries: seq<Entry>): seq<Message> {
    if entries == [] then [] else
    var e := entries[|entries| - 1];
    Payloads(entries[..|entries| - 1]) + (if MessageOf(e).Some? then [MessageOf(e).value] else [])
  }

  function IdsOf(entries: seq<Entry>): seq<nat> {
    seq(|entries|, i requires 0 <= i < |entries| => entries[i].id)
  }

  function SourceIndicesIn(entries: seq<Entry>): seq<nat> {
    if entries == [] then [] else
    var e := entries[|entries| - 1];
    SourceIndicesIn(entries[..|entries| - 1]) + (if e.sourceIndex.Some? then [e.sourceIndex.value] else [])
  }

  function Or<T>(outcome: Outcome<T>, default: T): T { if outcome.Done? then outcome.value else default }

  function Failures<T>(outcome: Outcome<T>): seq<EvolutionIssue> {
    if outcome.Done? then [] else [NotReplayed(outcome.error)]
  }

  function Raised(condition: bool, issue: EvolutionIssue): seq<EvolutionIssue> { if condition then [issue] else [] }

  /** The source entries logged since the previous snapshot, or since the start. */
  function AppendedSources(previous: Option<RequestEntry>, e: RequestEntry, log: seq<Entry>): seq<Entry> {
    SourcesIn(Slice(log, if previous.Some? then previous.value.retainedAfter else 0, e.retainedBefore))
  }

  predicate Prefixed(previous: seq<Message>, current: seq<Message>) { |previous| <= |current| && previous <= current }

  /** The messages of `current` after those of `previous`, none if it is shorter. */
  function Appended(previous: seq<Message>, current: seq<Message>): seq<Message> {
    if |current| < |previous| then [] else current[|previous|..]
  }

  function InitialIssues(payloads: seq<Message>, pre: seq<Message>): seq<EvolutionIssue> {
    Raised(|payloads| != |pre|, InitialMismatch)
  }

  function CarryIssues(previous: seq<Message>, pre: seq<Message>, payloads: seq<Message>): seq<EvolutionIssue> {
    Raised(|pre| < |previous|, ShorterThanPrevious)
      + Raised(|pre| >= |previous| && !Prefixed(previous, pre), PrefixLost)
      + Raised(Appended(previous, pre) != payloads, SuffixDiffers)
  }

  function KindOf(previous: Option<RequestEntry>, e: RequestEntry): TransitionKind {
    if previous.None? then (if e.active then InitialCompaction else InitialSnapshot)
    else if e.active then ReplacementCompaction else AppendOnly
  }

  function TransitionOf(previous: Option<RequestEntry>, e: RequestEntry, index: seq<Entry>, log: seq<Entry>): Transition {
    var selection, replay := SelectedMessages(e.selectedEntries, index), PreCompaction(e, index);
    var pre, appended := Or(replay, []), AppendedSources(previous, e, log);
    var payloads := Payloads(appended);
    var earlier := if previous.None? then Done([]) else SelectedMessages(previous.value.selectedEntries, index);
    var snapshot := Slice(log, e.retainedBefore, e.retainedAfter);
    Transition(
      if previous.None? then None else Some(previous.value.turn), e.turn, KindOf(previous, e),
      |Or(earlier, [])|, |pre|, |Or(selection, [])|, IdsOf(appended), SourceIndicesIn(appended), IdsOf(snapshot),
      if previous.None? then |payloads| == |pre| else Prefixed(Or(earlier, []), pre),
      if previous.None? then |payloads| == |pre| && pre == payloads else Appended(Or(earlier, []), pre) == payloads,
      Failures(selection) + Failures(replay) + Failures(earlier)
        + (if previous.None? then InitialIssues(payloads, pre) else CarryIssues(Or(earlier, []), pre, payloads)))
  }

  function TransitionsOf(entries: seq<RequestEntry>, index: seq<Entry>, log: seq<Entry>): seq<Transition> {
    if entries == [] then [] else
    var n := |entries| - 1;
    TransitionsOf(entries[..n], index, log)
      + [TransitionOf(if n == 0 then None else Some(entries[n - 1]), entries[n], index, log)]
  }

  predicate AllTransitionsOk(transitions: seq<Transition>) {
    forall j :: 0 <= j < |transitions| ==> transitions[j].issues == []
  }

  function EvolutionReportOf(entries: seq<RequestEntry>, log: seq<Entry>): EvolutionReport {
    var transitions := TransitionsOf(SortBy(entries, TurnKey), BuildIndex(log), log);
    EvolutionReport(AllTransitionsOk(transitions), transitions)
  }

  method CollectSourceEntries(entries: seq<Entry>) returns (sources: seq<Entry>, payloads: seq<Message>)
    ensures sources == SourcesIn(entries) && payloads == Payloads(SourcesIn(entries))
  {
    sources, payloads := [], [];
    for i := 0 to |entries|
      invariant sources == SourcesIn(entries[..i]) && payloads == Payloads(SourcesIn(entries[..i]))
    {
      assert entries[..i + 1][..i] == entries[..i];
      if entries[i].kind.SourceMessage? {
        ghost var before := sources;
        sources := sources + [entries[i]];
        assert sources[..|sources| - 1] == before;
        if MessageOf(entries[i]).Some? {
          payloads := payloads + [MessageOf(entries[i]).value];
        }
      }
    }
    assert entries[..|entries|] == entries;
  }

  method CheckInitial(payloads: seq<Message>, pre: seq<Message>)
    returns (prefixOk: bool, suffixOk: bool, issues: seq<EvolutionIssue>)
    ensures prefixOk == (|payloads| == |pre|) && suffixOk == (|payloads| == |pre| && pre == payloads)
    ensures issues == InitialIssues(payloads, pre)
  {
    prefixOk, suffixOk, issues := false, false, [];
    if |payloads| != |pre| {
      issues := issues + [InitialMismatch];
    } else {
      prefixOk := true;
      suffixOk := pre == payloads;
    }
  }

  method CheckCarryOver(previous: seq<Message>, pre: seq<Message>, payloads: seq<Message>)
    returns (prefixOk: bool, suffixOk: bool, issues: seq<EvolutionIssue>)
    ensures prefixOk == Prefixed(previous, pre) && suffixOk == (Appended(previous, pre) == payloads)
    ensures issues == CarryIssues(previous, pre, payloads)
  {
    prefixOk, issues := false, [];
    var appended: seq<Message> := [];
    if |pre| < |previous| {
      issues := issues + [ShorterThanPrevious];
    } else {
      prefixOk := pre[..|previous|] == previous;
      if !prefixOk {
        issues := issues + [PrefixLost];
      }
      appended := pre[|previous|..];
    }
    suffixOk := appended == payloads;
    if !suffixOk {
      issues := issues + [SuffixDiffers];
    }
  }

  method CheckTransition(previous: Option<RequestEntry>, e: RequestEntry, index: seq<Entry>, log: seq<Entry>)
    returns (transition: Transition)
    ensures transition == TransitionOf(previous, e, index, log)
  {
    hide PreCompaction, SelectedMessages, Slice, SourcesIn, Payloads, CarryIssues, InitialIssues, Prefixed, Appended;
    var selection := ReconstructSelected(e, index);
    var replay := ReconstructPreCompaction(e, index);
    var issues: seq<EvolutionIssue> := Failures(selection) + Failures(replay);
    var pre := Or(replay, []);
    var snapshot := Slice(log, e.retainedBefore, e.retainedAfter);
    var sources, payloads :=
      CollectSourceEntries(Slice(log, if previous.Some? then previous.value.retainedAfter else 0, e.retainedBefore));
    var earlier: Outcome<seq<Message>> := Done([]);
    var prefixOk, suffixOk, more;
    if previous.None? {
      prefixOk, suffixOk, more := CheckInitial(payloads, pre);
    } else {
      earlier := ReconstructSelected(previous.value, index);
      issues := issues + Failures(earlier);
      prefixOk, suffixOk, more := CheckCarryOver(Or(earlier, []), pre, payloads);
    }
    issues := issues + more;
    transition := Transition(if previous.None? then None else Some(previous.value.turn), e.turn, KindOf(previous, e),
      |Or(earlier, [])|, |pre|, |Or(selection, [])|, IdsOf(sources), SourceIndicesIn(sources), IdsOf(snapshot),
      prefixOk, suffixOk, issues);
  }

  method BuildEvolutionReport(entries: seq<RequestEntry>, log: seq<Entry>) returns (report: EvolutionReport)
    ensures report == EvolutionReportOf(entries, log)
  {
    hide TransitionOf, SortBy;
    var index := BuildIndex(log);
    var ordered := SortBy(entries, TurnKey);
    var transitions: seq<Transition> := [];
    for i := 0 to |ordered|
      invariant transitions == TransitionsOf(ordered[..i], index, log)
    {
      assert ordered[..i + 1][..i] == ordered[..i];
      var previous := if i > 0 then Some(ordered[i - 1]) else None;
      var transition := CheckTransition(previous, ordered[i], index, log);
      transitions := transitions + [transition];
    }
    assert ordered[..|ordered|] == ordered;
    report := EvolutionReport(AllTransitionsOk(transitions), transitions);
  }
}
