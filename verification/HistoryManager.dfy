/** The manager object that owns the request-visible history, proved against the state functions. */
module HistoryManager {
  import opened Prelude
  import opened Messages
  import opened Planning
  import opened Compaction
  import opened ContextPlans
  import opened RetainedHistory
  import opened History

  class RuntimeHistoryManager {
    const writer: RetainedHistoryWriter
    var sourceItems: seq<Item>
    var requestItems: seq<Item>
    var replacementHistory: seq<Record>
    var retainedEntryIds: seq<nat>

    ghost predicate Valid()
      reads this, writer
    {
      writer.Valid() && retainedEntryIds == Ordinals(|writer.log|)
    }

    ghost function Contents(): State
      reads this, writer
    {
      State(sourceItems, requestItems, replacementHistory, writer.log)
    }

    constructor (writer: RetainedHistoryWriter)
      requires writer.Valid() && writer.log == []
      ensures this.writer == writer && Valid() && Contents() == EMPTY
    {
      this.writer := writer;
      sourceItems, requestItems, replacementHistory, retainedEntryIds := [], [], [], [];
    }

    method SyncSourceMessages(trajectory: seq<Message>, turn: nat)
      requires Valid()
      modifies this, writer
      ensures Valid() && Contents() == Synced(old(Contents()), trajectory, turn)
    {
      while |sourceItems| < |trajectory|
        invariant Valid()
        invariant Synced(Contents(), trajectory, turn) == Synced(old(Contents()), trajectory, turn)
        decreases |trajectory| - |sourceItems|
      {
        var index := |sourceItems|;
        var entry := writer.AppendSourceMessage(turn, index, trajectory[index]);
        retainedEntryIds := retainedEntryIds + [entry.id];
        var item := SourceItem(index, trajectory[index], entry.id);
        sourceItems := sourceItems + [item];
        requestItems := requestItems + [item];
      }
    }

    method BuildContextPlan(policy: PolicyMode, limits: Limits, session: Session, turn: nat) returns (plan: Plan)
      ensures plan == PlanFor(MessagesOf(requestItems), policy, limits, Some(session), turn)
    {
      plan := PlanRequestContext(MessagesOf(requestItems), policy, limits, Some(session), turn);
    }

    /** Logs the replacement and rebuilds the request, putting the summary at the first compacted
        position. */
    method ApplyCompactionReplacement(artifact: Artifact, summary: Message, turn: nat) returns (record: Record)
      requires Valid()
      modifies this, writer
      ensures Valid() && Contents() == Replace(old(Contents()), artifact, summary, turn)
      ensures record == RecordFor(old(Contents()), artifact, summary, turn)
    {
      hide Replaced, Hit, Pick, IndicesOf, WellNumbered;
      var compacted := Pick(requestItems, artifact.compacted);
      var id := |replacementHistory| + 1;
      var summaryEntry := writer.AppendReplacementSummary(
        turn, summary, id, EntriesOf(compacted), IndicesOf(compacted), artifact.turn);
      var item := ReplacementItem(id, summary, summaryEntry.id);
      var carriedEntry := writer.AppendCarriedForwardState(turn, id, artifact.carried);
      var artifactEntry := writer.AppendHistoryControl(turn, CompactionArtifact);
      retainedEntryIds := retainedEntryIds + [summaryEntry.id, carriedEntry.id, artifactEntry.id];
      record := Record(id, turn, artifact.reason, EntriesOf(compacted), IndicesOf(compacted), summaryEntry.id,
        carriedEntry.id, artifactEntry.id, artifact.turn, artifact.carried, summary);

      var covered := ToSet(artifact.compacted);
      var rebuilt: seq<Item> := [];
      var inserted := false;
      RebuildSteps(requestItems, covered, item);
      for index := 0 to |requestItems|
        invariant rebuilt == Replaced(requestItems[..index], covered, item)
        invariant inserted == Hit(covered, index)
      {
        assert Rebuilds(requestItems, index, covered, item);
        if index in covered {
          if !inserted {
            rebuilt := rebuilt + [item];
            inserted := true;
          }
          continue;
        }
        rebuilt := rebuilt + [requestItems[index]];
      }
      assert requestItems[..|requestItems|] == requestItems;
      requestItems := rebuilt;
      replacementHistory := replacementHistory + [record];
    }

    method SnapshotFromPlan(plan: Plan, turn: nat) returns (snapshot: Snapshot)
      requires Valid()
      modifies this, writer
      ensures Valid() && Contents() == Materialised(old(Contents()), plan, turn)
      ensures snapshot == SnapshotOf(old(Contents()), plan, turn)
    {
      hide Replaced, Hit, Pick, IndicesOf, OmittedItems, EntriesOf, RecordFor, WellNumbered, Tokens, HasReplacement;
      var itemsBefore := |requestItems|;
      var retainedBefore := |retainedEntryIds|;
      var selected := Pick(requestItems, plan.selection.included);
      var record := None;
      if plan.artifact.Some? && plan.summary.Some? {
        var r := ApplyCompactionReplacement(plan.artifact.value, plan.summary.value, turn);
        record := Some(r);
        selected := requestItems;
      }
      var entry := writer.AppendHistoryControl(turn, ContextSelectionPlan);
      retainedEntryIds := retainedEntryIds + [entry.id];
      snapshot := Snapshot(selected, SnapshotSelection(sourceItems, selected, plan), plan, record, entry.id,
        EntriesOf(OmittedItems(sourceItems, IndicesOf(selected))), retainedBefore, |retainedEntryIds|, itemsBefore,
        HasReplacement(selected));
    }
  }

  /** Position `n` of the request has been rebuilt as the replacement says. */
  ghost predicate Rebuilds(items: seq<Item>, n: nat, covered: set<nat>, mark: Item)
    requires n < |items|
  {
    && Replaced(items[..n + 1], covered, mark)
       == Replaced(items[..n], covered, mark)
          + (if n !in covered then [items[n]] else if Hit(covered, n) then [] else [mark])
    && (Hit(covered, n + 1) <==> Hit(covered, n) || n in covered)
  }

  lemma RebuildSteps(items: seq<Item>, covered: set<nat>, mark: Item)
    ensures Replaced([], covered, mark) == [] && !Hit(covered, 0) && items[..0] == []
    ensures forall n :: 0 <= n < |items| ==> Rebuilds(items, n, covered, mark)
  {
    forall n | 0 <= n < |items| ensures Rebuilds(items, n, covered, mark) {
      ReplacedStep(items, n, covered, mark);
    }
  }
}
