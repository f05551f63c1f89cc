/** The two views of a run, the trajectory and the request, and the steps that change them. */
module History {
  import opened Prelude
  import opened Messages
  import opened Planning
  import opened ContextPlans
  import opened RetainedHistory

  datatype Item =
    | SourceItem(index: nat, message: Message, entry: nat)
    | ReplacementItem(record: nat, message: Message, entry: nat)

  datatype Record = Record(
    id: nat,
    turn: nat,
    reason: Consideration,
    sourceEntries: seq<nat>,
    sourceIndices: seq<nat>,
    summaryEntry: nat,
    carriedEntry: nat,
    artifactEntry: nat,
    slot: nat,
    carried: nat,
    rendered: Message)

  datatype State = State(source: seq<Item>, request: seq<Item>, records: seq<Record>, log: seq<Entry>)

  const EMPTY := State([], [], [], [])

  function MessagesOf(items: seq<Item>): (ms: seq<Message>)
    ensures |ms| == |items| && forall i :: 0 <= i < |items| ==> ms[i] == items[i].message
  {
    seq(|items|, i requires 0 <= i < |items| => items[i].message)
  }

  function EntriesOf(items: seq<Item>): (ids: seq<nat>)
    ensures |ids| == |items| && forall i :: 0 <= i < |items| ==> ids[i] == items[i].entry
  {
    seq(|items|, i requires 0 <= i < |items| => items[i].entry)
  }

  /** The trajectory indices of the items that have one. */
  function IndicesOf(items: seq<Item>): seq<nat> {
    if items == [] then [] else
    var last := items[|items| - 1];
    IndicesOf(items[..|items| - 1]) + (if last.SourceItem? then [last.index] else [])
  }

  function AppendSource(s: State, m: Message, turn: nat): State {
    var item := SourceItem(|s.source|, m, |s.log| + 1);
    State(s.source + [item], s.request + [item], s.records,
          s.log + [Entry(|s.log| + 1, turn, SourceMessage, Some(|s.source|), MessageMeta(m))])
  }

  /** Every trajectory message not yet seen enters both views and the log, in order. */
  function Synced(s: State, trajectory: seq<Message>, turn: nat): State
    decreases |trajectory| - |s.source|
  {
    if |s.source| >= |trajectory| then s
    else Synced(AppendSource(s, trajectory[|s.source|], turn), trajectory, turn)
  }

  /** The items one compaction covers. */
  function CompactedItems(s: State, artifact: Artifact): seq<Item> { Pick(s.request, artifact.compacted) }

  function SummaryItem(r: Record): Item { ReplacementItem(r.id, r.rendered, r.summaryEntry) }

  function RecordFor(s: State, artifact: Artifact, summary: Message, turn: nat): Record {
    var items, next := CompactedItems(s, artifact), |s.log| + 1;
    Record(|s.records| + 1, turn, artifact.reason, EntriesOf(items), IndicesOf(items), next, next + 1, next + 2,
           artifact.turn, artifact.carried, summary)
  }

  function SummaryEntryFor(r: Record): Entry {
    Entry(r.summaryEntry, r.turn, ReplacementSummary, None,
          SummaryMeta(r.id, r.sourceEntries, r.sourceIndices, r.slot, r.rendered))
  }

  function CarriedEntryFor(r: Record): Entry {
    Entry(r.carriedEntry, r.turn, CarryForwardState, None, CarryMeta(r.id, r.carried))
  }

  function ArtifactEntryFor(r: Record): Entry {
    Entry(r.artifactEntry, r.turn, HistoryControl, None, ControlMeta(CompactionArtifact))
  }

  /** One replacement: three log entries, one record, and the request rebuilt around the summary. */
  function Replace(s: State, artifact: Artifact, summary: Message, turn: nat): State {
    var r := RecordFor(s, artifact, summary, turn);
    State(s.source, Replaced(s.request, ToSet(artifact.compacted), SummaryItem(r)), s.records + [r],
          s.log + [SummaryEntryFor(r), CarriedEntryFor(r), ArtifactEntryFor(r)])
  }

  predicate Replaces(plan: Plan) { plan.artifact.Some? && plan.summary.Some? }

  /** The state after a plan's replacement, if it has one, before the selection is logged. */
  function AfterReplacement(s: State, plan: Plan, turn: nat): State {
    if Replaces(plan) then Replace(s, plan.artifact.value, plan.summary.value, turn) else s
  }

  function Materialised(s: State, plan: Plan, turn: nat): State {
    var after := AfterReplacement(s, plan, turn);
    after.(log := after.log +
                  [Entry(|after.log| + 1, turn, HistoryControl, None, ControlMeta(ContextSelectionPlan))])
  }

  /** The items the model is sent. */
  function SelectedItems(s: State, plan: Plan, turn: nat): seq<Item> {
    if Replaces(plan) then AfterReplacement(s, plan, turn).request else Pick(s.request, plan.selection.included)
  }

  /** The source items left out of a request. */
  function OmittedItems(source: seq<Item>, selected: seq<nat>): seq<Item> {
    if source == [] then [] else
    var last := source[|source| - 1];
    OmittedItems(source[..|source| - 1], selected)
      + (if last.SourceItem? && last.index in selected then [] else [last])
  }

  datatype Snapshot = Snapshot(
    selected: seq<Item>,
    selection: Selection,
    plan: Plan,
    record: Option<Record>,
    selectionEntry: nat,
    omittedEntries: seq<nat>,
    retainedBefore: nat,
    retainedAfter: nat,
    itemsBefore: nat,
    active: bool)

  function SnapshotSelection(source: seq<Item>, selected: seq<Item>, plan: Plan): Selection {
    plan.selection.(
      included := IndicesOf(selected),
      omittedCount := Max(|source| - |IndicesOf(selected)|, 0),
      selectedTokens := Tokens(MessagesOf(selected)),
      omittedTokens := Tokens(MessagesOf(OmittedItems(source, IndicesOf(selected)))))
  }

  predicate HasReplacement(items: seq<Item>) {
    exists i :: 0 <= i < |items| && items[i].ReplacementItem?
  }

  function SnapshotOf(s: State, plan: Plan, turn: nat): Snapshot {
    var after := AfterReplacement(s, plan, turn);
    var selected := SelectedItems(s, plan, turn);
    Snapshot(selected, SnapshotSelection(s.source, selected, plan), plan,
             if Replaces(plan) then Some(RecordFor(s, plan.artifact.value, plan.summary.value, turn)) else None,
             |after.log| + 1, EntriesOf(OmittedItems(s.source, IndicesOf(selected))),
             |s.log|, |after.log| + 1, |s.request|, HasReplacement(selected))
  }
}
