/** The append-only retained-history log. Entry ids are modelled by their ordinals. */
module RetainedHistory {
  import opened Prelude
  import opened Messages

  datatype SourceKind = SourceMessage | ReplacementSummary | CarryForwardState | HistoryControl

  datatype ControlKind = ContextSelectionPlan | CompactionArtifact

  datatype Meta =
    | MessageMeta(message: Message)
    | SummaryMeta(record: nat, entries: seq<nat>, indices: seq<nat>, slot: nat, rendered: Message)
    | CarryMeta(carriedRecord: nat, carried: nat)
    | ControlMeta(control: ControlKind)

  datatype Entry = Entry(id: nat, turn: nat, kind: SourceKind, sourceIndex: Option<nat>, meta: Meta)

  /** The message an entry can be replayed to, if it carries one. */
  function MessageOf(e: Entry): Option<Message> {
    match e.meta
    case MessageMeta(m) => Some(m)
    case SummaryMeta(_, _, _, _, m) => Some(m)
    case _ => None
  }

  function RecordOf(e: Entry): Option<nat> {
    match e.meta
    case SummaryMeta(r, _, _, _, _) => Some(r)
    case CarryMeta(r, _) => Some(r)
    case _ => None
  }

  function SourceEntriesOf(e: Entry): seq<nat> { if e.meta.SummaryMeta? then e.meta.entries else [] }

  function SourceIndicesOf(e: Entry): seq<nat> { if e.meta.SummaryMeta? then e.meta.indices else [] }

  predicate IsCompactionArtifact(e: Entry) {
    e.kind.HistoryControl? && e.meta.ControlMeta? && e.meta.control.CompactionArtifact?
  }

  function CountKind(log: seq<Entry>, kind: SourceKind): nat {
    if log == [] then 0 else
    CountKind(log[..|log| - 1], kind) + (if log[|log| - 1].kind == kind then 1 else 0)
  }

  /** Entry `i` bears ordinal `i + 1`. */
  ghost predicate WellNumbered(log: seq<Entry>) {
    forall i :: 0 <= i < |log| ==> log[i].id == i + 1
  }

  function Ordinals(n: nat): seq<nat> { seq(n, i => i + 1) }

  /** The lookup table the replay code builds: one entry per id, in order of first appearance. */
  function BuildIndex(entries: seq<Entry>): seq<Entry> {
    if entries == [] then [] else
    Insert(BuildIndex(entries[..|entries| - 1]), entries[|entries| - 1])
  }

  function Insert(index: seq<Entry>, e: Entry): seq<Entry> {
    if index == [] then [e]
    else if index[0].id == e.id then [e] + index[1..]
    else [index[0]] + Insert(index[1..], e)
  }

  function Lookup(index: seq<Entry>, id: nat): Option<Entry> {
    if index == [] then None
    else if index[0].id == id then Some(index[0])
    else Lookup(index[1..], id)
  }

  lemma {:induction false} InsertFresh(index: seq<Entry>, e: Entry)
    requires forall i :: 0 <= i < |index| ==> index[i].id != e.id
    ensures Insert(index, e) == index + [e]
  {
    if index != [] {
      InsertFresh(index[1..], e);
    }
  }

  /** A well-numbered log is its own index. */
  lemma {:induction false} IndexOfLog(log: seq<Entry>)
    requires WellNumbered(log)
    ensures BuildIndex(log) == log
  {
    if log != [] {
      IndexOfLog(log[..|log| - 1]);
      InsertFresh(log[..|log| - 1], log[|log| - 1]);
    }
  }

  lemma {:induction false} LookupFirst(index: seq<Entry>, id: nat, k: nat)
    requires k < |index| && index[k].id == id
    requires forall i :: 0 <= i < k ==> index[i].id != id
    ensures Lookup(index, id) == Some(index[k])
  {
    if k > 0 {
      LookupFirst(index[1..], id, k - 1);
    }
  }

  lemma LookupInLog(log: seq<Entry>, id: nat)
    requires WellNumbered(log) && 1 <= id <= |log|
    ensures Lookup(log, id) == Some(log[id - 1])
  {
    LookupFirst(log, id, id - 1);
  }

  class RetainedHistoryWriter {
    var log: seq<Entry>
    var nextOrdinal: nat
    var totalEntries: nat
    var countsByKind: map<SourceKind, nat>
    var lastEntry: Option<nat>

    ghost predicate Valid()
      reads this
    {
      && WellNumbered(log)
      && nextOrdinal == |log| + 1
      && totalEntries == |log|
      && (forall kind :: kind in countsByKind ==> countsByKind[kind] == CountKind(log, kind))
      && (forall kind :: kind !in countsByKind ==> CountKind(log, kind) == 0)
      && lastEntry == (if log == [] then None else Some(|log|))
    }

    constructor ()
      ensures Valid() && log == []
    {
      log, nextOrdinal, totalEntries, countsByKind, lastEntry := [], 1, 0, map[], None;
    }

    method Append(turn: nat, kind: SourceKind, sourceIndex: Option<nat>, meta: Meta) returns (entry: Entry)
      requires Valid()
      modifies this
      ensures Valid()
      ensures entry == Entry(|old(log)| + 1, turn, kind, sourceIndex, meta)
      ensures log == old(log) + [entry]
    {
      var ordinal := nextOrdinal;
      nextOrdinal := nextOrdinal + 1;
      entry := Entry(ordinal, turn, kind, sourceIndex, meta);
      ghost var before := log;
      log := log + [entry];
      assert log[..|log| - 1] == before;
      totalEntries := totalEntries + 1;
      lastEntry := Some(entry.id);
      countsByKind := countsByKind[kind := (if kind in countsByKind then countsByKind[kind] else 0) + 1];
    }

    method AppendSourceMessage(turn: nat, sourceIndex: nat, message: Message) returns (entry: Entry)
      requires Valid()
      modifies this
      ensures Valid()
      ensures entry == Entry(|old(log)| + 1, turn, SourceMessage, Some(sourceIndex), MessageMeta(message))
      ensures log == old(log) + [entry]
    {
      entry := Append(turn, SourceMessage, Some(sourceIndex), MessageMeta(message));
    }

    method AppendReplacementSummary(turn: nat, message: Message, record: nat, entries: seq<nat>, indices: seq<nat>,
                                    slot: nat) returns (entry: Entry)
      requires Valid()
      modifies this
      ensures Valid()
      ensures entry == Entry(|old(log)| + 1, turn, ReplacementSummary, None,
                             SummaryMeta(record, entries, indices, slot, message))
      ensures log == old(log) + [entry]
    {
      entry := Append(turn, ReplacementSummary, None, SummaryMeta(record, entries, indices, slot, message));
    }

    method AppendCarriedForwardState(turn: nat, record: nat, carried: nat) returns (entry: Entry)
      requires Valid()
      modifies this
      ensures Valid()
      ensures entry == Entry(|old(log)| + 1, turn, CarryForwardState, None, CarryMeta(record, carried))
      ensures log == old(log) + [entry]
    {
      entry := Append(turn, CarryForwardState, None, CarryMeta(record, carried));
    }

    method AppendHistoryControl(turn: nat, control: ControlKind) returns (entry: Entry)
      requires Valid()
      modifies this
      ensures Valid()
      ensures entry == Entry(|old(log)| + 1, turn, HistoryControl, None, ControlMeta(control))
      ensures log == old(log) + [entry]
    {
      entry := Append(turn, HistoryControl, None, ControlMeta(control));
    }
  }
}
