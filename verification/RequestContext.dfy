/** The append-only log of what each turn's request selected. */
module RequestContext {
  import opened Prelude
  import opened Planning
  import opened ContextPlans
  import opened History

  datatype RequestEntry = RequestEntry(
    id: nat,
    turn: nat,
    policy: PolicyMode,
    messageCount: nat,
    sourceIndices: seq<nat>,
    selectedEntries: seq<nat>,
    omittedEntries: seq<nat>,
    selectionEntry: nat,
    summaryEntry: Option<nat>,
    carriedEntry: Option<nat>,
    record: Option<nat>,
    active: bool,
    retainedBefore: nat,
    retainedAfter: nat,
    itemsBefore: nat,
    itemsAfter: nat,
    selection: Selection,
    modelUsed: bool,
    failure: Option<FailureKind>)

  function EntryFor(ordinal: nat, turn: nat, snapshot: Snapshot): RequestEntry {
    var record := snapshot.record;
    RequestEntry(ordinal, turn, snapshot.selection.policy, |snapshot.selected|, IndicesOf(snapshot.selected),
                 EntriesOf(snapshot.selected), snapshot.omittedEntries, snapshot.selectionEntry,
                 if record.Some? then Some(record.value.summaryEntry) else None,
                 if record.Some? then Some(record.value.carriedEntry) else None,
                 if record.Some? then Some(record.value.id) else None,
                 snapshot.active, snapshot.retainedBefore, snapshot.retainedAfter, snapshot.itemsBefore,
                 |snapshot.selected|, snapshot.selection, snapshot.plan.modelUsed, snapshot.plan.failure)
  }

  class RequestContextWriter {
    var log: seq<RequestEntry>
    var nextOrdinal: nat
    var totalEntries: nat
    var lastEntry: Option<nat>

    ghost predicate Valid()
      reads this
    {
      && (forall i :: 0 <= i < |log| ==> log[i].id == i + 1)
      && nextOrdinal == |log| + 1
      && totalEntries == |log|
      && lastEntry == (if log == [] then None else Some(|log|))
    }

    constructor ()
      ensures Valid() && log == []
    {
      log, nextOrdinal, totalEntries, lastEntry := [], 1, 0, None;
    }

    method AppendSnapshot(turn: nat, snapshot: Snapshot) returns (entry: RequestEntry)
      requires Valid()
      modifies this
      ensures Valid()
      ensures entry == EntryFor(|old(log)| + 1, turn, snapshot)
      ensures log == old(log) + [entry]
    {
      var ordinal := nextOrdinal;
      nextOrdinal := nextOrdinal + 1;
      entry := EntryFor(ordinal, turn, snapshot);
      log := log + [entry];
      totalEntries := totalEntries + 1;
      lastEntry := Some(entry.id);
    }
  }
}
