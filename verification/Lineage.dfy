/** The lineage report: each replacement record checked across the artifacts that mention it. */
module Lineage {
  import opened Prelude
  import opened Sorting
  import opened RetainedHistory
  import opened RequestContext

  datatype LineageIssue =
    | NoSummaryEntry
    | SummaryKind(kind: SourceKind)
    | SummaryRecord
    | NoCarriedEntry
    | CarriedKind(kind: SourceKind)
    | CarriedRecord
    | NoArtifact
    | AmbiguousArtifact
    | MissingSource(id: nat)
    | SourceKindOf(id: nat)
    | SummaryUnselected
    | CarriedIncluded

  datatype LineageRecord = LineageRecord(
    record: nat,
    turn: nat,
    request: nat,
    summary: Option<nat>,
    carried: Option<nat>,
    artifact: Option<nat>,
    sources: seq<nat>,
    indices: seq<nat>,
    issues: seq<LineageIssue>)

  datatype LineageReport = LineageReport(ok: bool, records: seq<LineageRecord>)

  function TurnKey(e: RequestEntry): nat { e.turn }

  function Noted(condition: bool, issue: LineageIssue): seq<LineageIssue> { if condition then [issue] else [] }

  function Find(index: seq<Entry>, id: Option<nat>): Option<Entry> {
    if id.Some? then Lookup(index, id.value) else None
  }

  /** The compaction artifacts logged for `turn`. */
  function ArtifactEntries(log: seq<Entry>, turn: nat): seq<Entry> {
    if log == [] then [] else
    var e := log[|log| - 1];
    ArtifactEntries(log[..|log| - 1], turn) + (if e.turn == turn && IsCompactionArtifact(e) then [e] else [])
  }

  function SourcesNamed(summary: Option<Entry>): seq<nat> {
    if summary.Some? then SourceEntriesOf(summary.value) else []
  }

  function IndicesNamed(summary: Option<Entry>): seq<nat> {
    if summary.Some? then SourceIndicesOf(summary.value) else []
  }

  function SummaryLineage(summary: Option<Entry>, record: Option<nat>): seq<LineageIssue> {
    match summary
    case None => [NoSummaryEntry]
    case Some(s) =>
      Noted(s.kind != ReplacementSummary, SummaryKind(s.kind)) + Noted(RecordOf(s) != record, SummaryRecord)
  }

  function CarriedLineage(carried: Option<Entry>, record: Option<nat>): seq<LineageIssue> {
    match carried
    case None => [NoCarriedEntry]
    case Some(c) =>
      Noted(c.kind != CarryForwardState, CarriedKind(c.kind)) + Noted(RecordOf(c) != record, CarriedRecord)
  }

  function ArtifactLineage(artifacts: seq<Entry>): seq<LineageIssue> {
    Noted(|artifacts| == 0, NoArtifact) + Noted(|artifacts| > 1, AmbiguousArtifact)
  }

  function SourceLineage(ids: seq<nat>, index: seq<Entry>): seq<LineageIssue> {
    if ids == [] then [] else
    var id := ids[|ids| - 1];
    SourceLineage(ids[..|ids| - 1], index) +
      match Lookup(index, id)
      case None => [MissingSource(id)]
      case Some(e) => Noted(e.kind != SourceMessage, SourceKindOf(id))
  }

  function SelectionLineage(e: RequestEntry): seq<LineageIssue> {
    Noted(e.summaryEntry.None? || e.summaryEntry.value !in e.selectedEntries, SummaryUnselected)
      + Noted(e.carriedEntry.Some? && e.carriedEntry.value in e.selectedEntries, CarriedIncluded)
  }

  function LineageIssues(e: RequestEntry, index: seq<Entry>, log: seq<Entry>): seq<LineageIssue> {
    var summary := Find(index, e.summaryEntry);
    SummaryLineage(summary, e.record)
      + CarriedLineage(Find(index, e.carriedEntry), e.record)
      + ArtifactLineage(ArtifactEntries(log, e.turn))
      + SourceLineage(SourcesNamed(summary), index)
      + SelectionLineage(e)
  }

  /** Only turns that made a replacement are reported on. */
  predicate HasRecord(e: RequestEntry) { e.active && e.record.Some? }

  function LineageRecordOf(e: RequestEntry, index: seq<Entry>, log: seq<Entry>): LineageRecord
    requires HasRecord(e)
  {
    var summary, artifacts := Find(index, e.summaryEntry), ArtifactEntries(log, e.turn);
    LineageRecord(e.record.value, e.turn, e.id, e.summaryEntry, e.carriedEntry,
                  if |artifacts| == 1 then Some(artifacts[0].id) else None,
                  SourcesNamed(summary), IndicesNamed(summary), LineageIssues(e, index, log))
  }

  function LineageRecords(entries: seq<RequestEntry>, index: seq<Entry>, log: seq<Entry>): seq<LineageRecord> {
    if entries == [] then [] else
    var e := entries[|entries| - 1];
    LineageRecords(entries[..|entries| - 1], index, log)
      + (if HasRecord(e) then [LineageRecordOf(e, index, log)] else [])
  }

  predicate AllClean(records: seq<LineageRecord>) {
    forall j :: 0 <= j < |records| ==> records[j].issues == []
  }

  function LineageReportOf(entries: seq<RequestEntry>, log: seq<Entry>): LineageReport {
    var records := LineageRecords(SortBy(entries, TurnKey), BuildIndex(log), log);
    LineageReport(AllClean(records), records)
  }

  method CollectArtifacts(log: seq<Entry>, turn: nat) returns (artifacts: seq<Entry>)
    ensures artifacts == ArtifactEntries(log, turn)
  {
    artifacts := [];
    for i := 0 to |log|
      invariant artifacts == ArtifactEntries(log[..i], turn)
    {
      assert log[..i + 1][..i] == log[..i];
      if log[i].turn == turn && IsCompactionArtifact(log[i]) {
        artifacts := artifacts + [log[i]];
      }
    }
    assert log[..|log|] == log;
  }

  method CheckSources(ids: seq<nat>, index: seq<Entry>) returns (issues: seq<LineageIssue>)
    ensures issues == SourceLineage(ids, index)
  {
    issues := [];
    for i := 0 to |ids|
      invariant issues == SourceLineage(ids[..i], index)
    {
      assert ids[..i + 1][..i] == ids[..i];
      var found := Lookup(index, ids[i]);
      if found.None? {
        issues := issues + [MissingSource(ids[i])];
        continue;
      }
      if found.value.kind != SourceMessage {
        issues := issues + [SourceKindOf(ids[i])];
      }
    }
    assert ids[..|ids|] == ids;
  }

  method CheckRecord(e: RequestEntry, index: seq<Entry>, log: seq<Entry>) returns (record: LineageRecord)
    requires HasRecord(e)
    ensures record == LineageRecordOf(e, index, log)
  {
    hide Lookup, ArtifactEntries, SummaryLineage, CarriedLineage, SourceLineage, SourcesNamed, IndicesNamed;
    var summary, carried := Find(index, e.summaryEntry), Find(index, e.carriedEntry);
    var issues := SummaryLineage(summary, e.record) + CarriedLineage(carried, e.record);
    var artifacts := CollectArtifacts(log, e.turn);
    var artifact: Option<nat> := None;
    if |artifacts| == 1 {
      artifact := Some(artifacts[0].id);
    } else if |artifacts| == 0 {
      issues := issues + [NoArtifact];
    } else {
      issues := issues + [AmbiguousArtifact];
    }
    var sources := CheckSources(SourcesNamed(summary), index);
    issues := issues + sources + SelectionLineage(e);
    record := LineageRecord(e.record.value, e.turn, e.id, e.summaryEntry, e.carriedEntry, artifact,
      SourcesNamed(summary), IndicesNamed(summary), issues);
  }

  method BuildLineageReport(entries: seq<RequestEntry>, log: seq<Entry>) returns (report: LineageReport)
    ensures report == LineageReportOf(entries, log)
  {
    hide LineageRecordOf, SortBy;
    var index := BuildIndex(log);
    var ordered := SortBy(entries, TurnKey);
    var records: seq<LineageRecord> := [];
    for i := 0 to |ordered|
      invariant records == LineageRecords(ordered[..i], index, log)
    {
      assert ordered[..i + 1][..i] == ordered[..i];
      if !ordered[i].active || ordered[i].record.None? {
        continue;
      }
      var record := CheckRecord(ordered[i], index, log);
      records := records + [record];
    }
    assert ordered[..|ordered|] == ordered;
    report := LineageReport(AllClean(records), records);
  }
}
