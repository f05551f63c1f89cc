/** Replaying a turn's request from the retained-history log. */
module Replay {
  import opened Prelude
  import opened Sorting
  import opened Messages
  import opened RetainedHistory
  import opened RequestContext

  datatype ReplayError =
    | MissingEntry(id: nat)
    | NotReplayable(id: nat)
    | MissingSummaryId
    | SourceLengthMismatch
    | NoTrajectoryIndex(id: nat)
    | NoSources
    | Misaligned

  datatype Outcome<+T> = Done(value: T) | Failed(error: ReplayError)

  type Keyed = (nat, Message)

  function KeyOf(pair: Keyed): nat { pair.0 }

  function Identity(n: nat): nat { n }

  function Unkeyed(pairs: seq<Keyed>): (ms: seq<Message>)
    ensures |ms| == |pairs| && forall i :: 0 <= i < |pairs| ==> ms[i] == pairs[i].1
  {
    seq(|pairs|, i requires 0 <= i < |pairs| => pairs[i].1)
  }

  function Fetch(index: seq<Entry>, id: nat): Outcome<Message> {
    match Lookup(index, id)
    case None => Failed(MissingEntry(id))
    case Some(e) => if MessageOf(e).Some? then Done(MessageOf(e).value) else Failed(NotReplayable(id))
  }

  /** The messages of the entries in `ids`, or the first failure. */
  function SelectedMessages(ids: seq<nat>, index: seq<Entry>): Outcome<seq<Message>> {
    if ids == [] then Done([]) else
    match SelectedMessages(ids[..|ids| - 1], index)
    case Failed(e) => Failed(e)
    case Done(ms) =>
      match Fetch(index, ids[|ids| - 1])
      case Failed(e) => Failed(e)
      case Done(m) => Done(ms + [m])
  }

  lemma {:induction false} SelectedFailureSticks(ids: seq<nat>, n: nat, index: seq<Entry>)
    requires n <= |ids| && SelectedMessages(ids[..n], index).Failed?
    ensures SelectedMessages(ids, index) == SelectedMessages(ids[..n], index)
  {
    if n < |ids| {
      assert ids[..|ids| - 1][..n] == ids[..n];
      SelectedFailureSticks(ids[..|ids| - 1], n, index);
    } else {
      assert ids[..n] == ids;
    }
  }

  method ReconstructSelected(entry: RequestEntry, index: seq<Entry>) returns (r: Outcome<seq<Message>>)
    ensures r == SelectedMessages(entry.selectedEntries, index)
  {
    var ids := entry.selectedEntries;
    var messages: seq<Message> := [];
    for i := 0 to |ids|
      invariant SelectedMessages(ids[..i], index) == Done(messages)
    {
      assert ids[..i + 1][..i] == ids[..i];
      var found := Lookup(index, ids[i]);
      if found.None? {
        SelectedFailureSticks(ids, i + 1, index);
        return Failed(MissingEntry(ids[i]));
      }
      var message := MessageOf(found.value);
      if message.None? {
        SelectedFailureSticks(ids, i + 1, index);
        return Failed(NotReplayable(ids[i]));
      }
      messages := messages + [message.value];
    }
    assert ids[..|ids|] == ids;
    r := Done(messages);
  }

  function FetchIndexed(index: seq<Entry>, id: nat): Outcome<Keyed> {
    match Lookup(index, id)
    case None => Failed(MissingEntry(id))
    case Some(e) =>
      if e.sourceIndex.None? then Failed(NoTrajectoryIndex(id))
      else if MessageOf(e).None? then Failed(NotReplayable(id))
      else Done((e.sourceIndex.value, MessageOf(e).value))
  }

  /** The selected messages other than the summary, keyed by trajectory index. */
  function RetainedPairs(ids: seq<nat>, summary: nat, index: seq<Entry>): Outcome<seq<Keyed>> {
    if ids == [] then Done([]) else
    var id := ids[|ids| - 1];
    match RetainedPairs(ids[..|ids| - 1], summary, index)
    case Failed(e) => Failed(e)
    case Done(pairs) =>
      if id == summary then Done(pairs) else
      match FetchIndexed(index, id)
      case Failed(e) => Failed(e)
      case Done(pair) => Done(pairs + [pair])
  }

  /** The compacted messages, keyed by the indices the summary lists beside them. */
  function SourcePairs(ids: seq<nat>, indices: seq<nat>, index: seq<Entry>): Outcome<seq<Keyed>>
    requires |ids| == |indices|
  {
    if ids == [] then Done([]) else
    var n := |ids| - 1;
    match SourcePairs(ids[..n], indices[..n], index)
    case Failed(e) => Failed(e)
    case Done(pairs) =>
      match Fetch(index, ids[n])
      case Failed(e) => Failed(e)
      case Done(m) => Done(pairs + [(indices[n], m)])
  }

  function PairsWithSummary(ids: seq<nat>, summary: Entry, summaryId: nat, index: seq<Entry>): Outcome<seq<Keyed>> {
    if |SourceEntriesOf(summary)| != |SourceIndicesOf(summary)| then Failed(SourceLengthMismatch) else
    match RetainedPairs(ids, summaryId, index)
    case Failed(e) => Failed(e)
    case Done(retained) =>
      match SourcePairs(SourceEntriesOf(summary), SourceIndicesOf(summary), index)
      case Failed(e) => Failed(e)
      case Done(sources) => Done(retained + sources)
  }

  /** The request history before this turn's compaction, as the replay code rebuilds it. */
  function PreCompaction(entry: RequestEntry, index: seq<Entry>): Outcome<seq<Message>> {
    if !entry.active then SelectedMessages(entry.selectedEntries, index)
    else if entry.summaryEntry.None? then Failed(MissingSummaryId)
    else
      match Lookup(index, entry.summaryEntry.value)
      case None => Failed(MissingEntry(entry.summaryEntry.value))
      case Some(summary) =>
        match PairsWithSummary(entry.selectedEntries, summary, entry.summaryEntry.value, index)
        case Failed(e) => Failed(e)
        case Done(pairs) => Done(Unkeyed(SortBy(pairs, KeyOf)))
  }

  lemma {:induction false} RetainedFailureSticks(ids: seq<nat>, n: nat, summary: nat, index: seq<Entry>)
    requires n <= |ids| && RetainedPairs(ids[..n], summary, index).Failed?
    ensures RetainedPairs(ids, summary, index) == RetainedPairs(ids[..n], summary, index)
  {
    if n < |ids| {
      assert ids[..|ids| - 1][..n] == ids[..n];
      RetainedFailureSticks(ids[..|ids| - 1], n, summary, index);
    } else {
      assert ids[..n] == ids;
    }
  }

  lemma {:induction false} SourceFailureSticks(ids: seq<nat>, indices: seq<nat>, n: nat, index: seq<Entry>)
    requires |ids| == |indices| && n <= |ids| && SourcePairs(ids[..n], indices[..n], index).Failed?
    ensures SourcePairs(ids, indices, index) == SourcePairs(ids[..n], indices[..n], index)
  {
    if n < |ids| {
      assert ids[..|ids| - 1][..n] == ids[..n] && indices[..|ids| - 1][..n] == indices[..n];
      SourceFailureSticks(ids[..|ids| - 1], indices[..|ids| - 1], n, index);
    } else {
      assert ids[..n] == ids && indices[..n] == indices;
    }
  }

  method CollectRetained(ids: seq<nat>, summary: nat, index: seq<Entry>) returns (r: Outcome<seq<Keyed>>)
    ensures r == RetainedPairs(ids, summary, index)
  {
    var pairs: seq<Keyed> := [];
    for i := 0 to |ids|
      invariant RetainedPairs(ids[..i], summary, index) == Done(pairs)
    {
      assert ids[..i + 1][..i] == ids[..i];
      if ids[i] == summary {
        continue;
      }
      var pair := FetchIndexed(index, ids[i]);
      if pair.Failed? {
        RetainedFailureSticks(ids, i + 1, summary, index);
        return Failed(pair.error);
      }
      pairs := pairs + [pair.value];
    }
    assert ids[..|ids|] == ids;
    r := Done(pairs);
  }

  method CollectSources(ids: seq<nat>, indices: seq<nat>, index: seq<Entry>) returns (r: Outcome<seq<Keyed>>)
    requires |ids| == |indices|
    ensures r == SourcePairs(ids, indices, index)
  {
    var pairs: seq<Keyed> := [];
    for i := 0 to |ids|
      invariant SourcePairs(ids[..i], indices[..i], index) == Done(pairs)
    {
      assert ids[..i + 1][..i] == ids[..i] && indices[..i + 1][..i] == indices[..i];
      var message := Fetch(index, ids[i]);
      if message.Failed? {
        SourceFailureSticks(ids, indices, i + 1, index);
        return Failed(message.error);
      }
      pairs := pairs + [(indices[i], message.value)];
    }
    assert ids[..|ids|] == ids && indices[..|ids|] == indices;
    r := Done(pairs);
  }

  method ReconstructPreCompaction(entry: RequestEntry, index: seq<Entry>) returns (r: Outcome<seq<Message>>)
    ensures r == PreCompaction(entry, index)
  {
    if !entry.active {
      r := ReconstructSelected(entry, index);
      return;
    }
    if entry.summaryEntry.None? {
      return Failed(MissingSummaryId);
    }
    var summary := Lookup(index, entry.summaryEntry.value);
    if summary.None? {
      return Failed(MissingEntry(entry.summaryEntry.value));
    }
    var ids, indices := SourceEntriesOf(summary.value), SourceIndicesOf(summary.value);
    if |ids| != |indices| {
      return Failed(SourceLengthMismatch);
    }
    var retained := CollectRetained(entry.selectedEntries, entry.summaryEntry.value, index);
    if retained.Failed? {
      return Failed(retained.error);
    }
    var sources := CollectSources(ids, indices, index);
    if sources.Failed? {
      return Failed(sources.error);
    }
    r := Done(Unkeyed(SortBy(retained.value + sources.value, KeyOf)));
  }

  /** The trajectory indices of the entries of the table that `wanted` names, in table order. */
  function WantedIndices(index: seq<Entry>, wanted: set<nat>): seq<nat> {
    if index == [] then [] else
    var e := index[|index| - 1];
    WantedIndices(index[..|index| - 1], wanted)
      + (if e.id in wanted && e.sourceIndex.Some? then [e.sourceIndex.value] else [])
  }

  /** Pairs `indices` with `ms` and puts `mark` where the first compacted index stood. */
  function Reinserted(indices: seq<nat>, ms: seq<Message>, compacted: set<nat>, mark: Message): seq<Message>
    requires |indices| == |ms|
  {
    if ms == [] then [] else
    var n := |ms| - 1;
    var rest := Reinserted(indices[..n], ms[..n], compacted, mark);
    if indices[n] !in compacted then rest + [ms[n]]
    else if exists i :: 0 <= i < n && indices[i] in compacted then rest else rest + [mark]
  }

  /** The post-compaction request, rebuilt from the pre-compaction one. */
  function PostCompaction(entry: RequestEntry, index: seq<Entry>): Outcome<seq<Message>> {
    if !entry.active then SelectedMessages(entry.selectedEntries, index)
    else if entry.summaryEntry.None? then Failed(MissingSummaryId)
    else
      var summaryId := entry.summaryEntry.value;
      match Lookup(index, summaryId)
      case None => Failed(MissingEntry(summaryId))
      case Some(summary) =>
        if MessageOf(summary).None? then Failed(NotReplayable(summaryId))
        else if SourceIndicesOf(summary) == [] then Failed(NoSources)
        else
          match PreCompaction(entry, index)
          case Failed(e) => Failed(e)
          case Done(pre) =>
            var wanted := ToSet(SourceEntriesOf(summary)) + (ToSet(entry.selectedEntries) - {summaryId});
            var indices := SortBy(WantedIndices(index, wanted), Identity);
            if |indices| != |pre| then Failed(Misaligned)
            else Done(Reinserted(indices, pre, ToSet(SourceIndicesOf(summary)), MessageOf(summary).value))
  }

  method ReconstructPostCompaction(entry: RequestEntry, index: seq<Entry>) returns (r: Outcome<seq<Message>>)
    ensures r == PostCompaction(entry, index)
  {
    if !entry.active {
      r := ReconstructSelected(entry, index);
      return;
    }
    if entry.summaryEntry.None? {
      return Failed(MissingSummaryId);
    }
    var summaryId := entry.summaryEntry.value;
    var found := Lookup(index, summaryId);
    if found.None? {
      return Failed(MissingEntry(summaryId));
    }
    var summary := found.value;
    if MessageOf(summary).None? {
      return Failed(NotReplayable(summaryId));
    }
    if SourceIndicesOf(summary) == [] {
      return Failed(NoSources);
    }
    var compacted := ToSet(SourceIndicesOf(summary));
    var pre := ReconstructPreCompaction(entry, index);
    if pre.Failed? {
      return Failed(pre.error);
    }
    var wanted := ToSet(SourceEntriesOf(summary)) + (ToSet(entry.selectedEntries) - {summaryId});
    var indices := SortBy(WantedIndices(index, wanted), Identity);
    var messages := pre.value;
    if |indices| != |messages| {
      return Failed(Misaligned);
    }
    var post := ReinsertSummary(indices, messages, compacted, MessageOf(summary).value);
    r := Done(post);
  }

  method ReinsertSummary(indices: seq<nat>, messages: seq<Message>, compacted: set<nat>, summary: Message)
    returns (post: seq<Message>)
    requires |indices| == |messages|
    ensures post == Reinserted(indices, messages, compacted, summary)
  {
    post := [];
    var inserted := false;
    for i := 0 to |messages|
      invariant post == Reinserted(indices[..i], messages[..i], compacted, summary)
      invariant inserted == exists j :: 0 <= j < i && indices[j] in compacted
    {
      assert indices[..i + 1][..i] == indices[..i] && messages[..i + 1][..i] == messages[..i];
      if indices[i] in compacted {
        if !inserted {
          post := post + [summary];
          inserted := true;
        }
        continue;
      }
      post := post + [messages[i]];
    }
    assert indices[..|indices|] == indices && messages[..|messages|] == messages;
  }
}
