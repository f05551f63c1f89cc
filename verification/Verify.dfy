/** The per-turn consistency check of a request entry against the retained-history log. */
module Verify {
  import opened Prelude
  import opened RetainedHistory
  import opened RequestContext
  import opened Replay

  datatype Issue =
    | MissingSelected(id: nat)
    | MissingOmitted(id: nat)
    | ReplayFailed(error: ReplayError)
    | CountMismatch
    | NoSummaryId
    | NoCarriedId
    | NoRecordId
    | MissingSummary
    | WrongSummaryKind
    | SourcesNotOmitted
    | WrongSummaryRecord
    | MissingCarried
    | WrongCarriedKind
    | WrongCarriedRecord
    | SummaryNotSelected
    | CarriedSelected
    | PreCountMismatch
    | NotRebuilt
    | StraySummaryId
    | StrayCarriedId
    | StrayRecordId

  datatype Report = Report(turn: nat, ok: bool, rebuilt: nat, rebuiltBefore: nat, issues: seq<Issue>)

  function When(condition: bool, issue: Issue): seq<Issue> { if condition then [issue] else [] }

  function MissingIssues(ids: seq<nat>, index: seq<Entry>, selected: bool): seq<Issue> {
    if ids == [] then [] else
    var id := ids[|ids| - 1];
    MissingIssues(ids[..|ids| - 1], index, selected)
      + When(Lookup(index, id).None?, if selected then MissingSelected(id) else MissingOmitted(id))
  }

  function Missing(e: RequestEntry, index: seq<Entry>): seq<Issue> {
    MissingIssues(e.selectedEntries, index, true) + MissingIssues(e.omittedEntries, index, false)
  }

  function RebuiltCount(e: RequestEntry, index: seq<Entry>): nat {
    if Missing(e, index) != [] then 0 else
    match SelectedMessages(e.selectedEntries, index)
    case Failed(_) => 0
    case Done(ms) => |ms|
  }

  /** Do the selected and omitted entries exist, and do the selected ones replay to the right count? */
  function BasicIssues(e: RequestEntry, index: seq<Entry>): seq<Issue> {
    if Missing(e, index) != [] then Missing(e, index) else
    match SelectedMessages(e.selectedEntries, index)
    case Failed(error) => [ReplayFailed(error)]
    case Done(ms) => When(|ms| != 0 && |ms| != e.messageCount, CountMismatch)
  }

  function SummaryIssues(e: RequestEntry, index: seq<Entry>): seq<Issue> {
    if e.summaryEntry.None? then [] else
    match Lookup(index, e.summaryEntry.value)
    case None => [MissingSummary]
    case Some(s) =>
      When(s.kind != ReplacementSummary, WrongSummaryKind)
        + When(SourceEntriesOf(s) != e.omittedEntries, SourcesNotOmitted)
        + When(RecordOf(s) != e.record, WrongSummaryRecord)
  }

  function CarriedIssues(e: RequestEntry, index: seq<Entry>): seq<Issue> {
    if e.carriedEntry.None? then [] else
    match Lookup(index, e.carriedEntry.value)
    case None => [MissingCarried]
    case Some(c) =>
      When(c.kind != CarryForwardState, WrongCarriedKind) + When(RecordOf(c) != e.record, WrongCarriedRecord)
  }

  function MembershipIssues(e: RequestEntry): seq<Issue> {
    When(e.summaryEntry.Some? && e.summaryEntry.value !in e.selectedEntries, SummaryNotSelected)
      + When(e.carriedEntry.Some? && e.carriedEntry.value in e.selectedEntries, CarriedSelected)
  }

  function ActiveIssues(e: RequestEntry, index: seq<Entry>): seq<Issue> {
    When(e.summaryEntry.None?, NoSummaryId) + When(e.carriedEntry.None?, NoCarriedId)
      + When(e.record.None?, NoRecordId) + SummaryIssues(e, index) + CarriedIssues(e, index) + MembershipIssues(e)
  }

  /** Can the compaction be undone, and redone to the selected messages? */
  function DeepIssues(e: RequestEntry, index: seq<Entry>): seq<Issue> {
    match PreCompaction(e, index)
    case Failed(error) => [ReplayFailed(error)]
    case Done(pre) =>
      When(|pre| != e.itemsBefore, PreCountMismatch) +
      match PostCompaction(e, index)
      case Failed(error) => [ReplayFailed(error)]
      case Done(post) =>
        match SelectedMessages(e.selectedEntries, index)
        case Failed(error) => [ReplayFailed(error)]
        case Done(selected) => When(post != selected, NotRebuilt)
  }

  function InactiveIssues(e: RequestEntry): seq<Issue> {
    When(e.summaryEntry.Some?, StraySummaryId) + When(e.carriedEntry.Some?, StrayCarriedId)
      + When(e.record.Some?, StrayRecordId)
  }

  function IssuesOf(e: RequestEntry, index: seq<Entry>): seq<Issue> {
    if !e.active then BasicIssues(e, index) + InactiveIssues(e) else
    var shallow := BasicIssues(e, index) + ActiveIssues(e, index);
    if shallow != [] then shallow else DeepIssues(e, index)
  }

  function RebuiltBefore(e: RequestEntry, index: seq<Entry>): nat {
    if e.active && BasicIssues(e, index) + ActiveIssues(e, index) == [] && PreCompaction(e, index).Done?
    then |PreCompaction(e, index).value| else 0
  }

  function ReportOf(e: RequestEntry, index: seq<Entry>): Report {
    Report(e.turn, IssuesOf(e, index) == [], RebuiltCount(e, index), RebuiltBefore(e, index), IssuesOf(e, index))
  }

  method CheckPresence(e: RequestEntry, index: seq<Entry>) returns (issues: seq<Issue>)
    ensures issues == Missing(e, index)
  {
    issues := [];
    for i := 0 to |e.selectedEntries|
      invariant issues == MissingIssues(e.selectedEntries[..i], index, true)
    {
      assert e.selectedEntries[..i + 1][..i] == e.selectedEntries[..i];
      if Lookup(index, e.selectedEntries[i]).None? {
        issues := issues + [MissingSelected(e.selectedEntries[i])];
      }
    }
    assert e.selectedEntries[..|e.selectedEntries|] == e.selectedEntries;
    for i := 0 to |e.omittedEntries|
      invariant issues
             == MissingIssues(e.selectedEntries, index, true) + MissingIssues(e.omittedEntries[..i], index, false)
    {
      assert e.omittedEntries[..i + 1][..i] == e.omittedEntries[..i];
      if Lookup(index, e.omittedEntries[i]).None? {
        issues := issues + [MissingOmitted(e.omittedEntries[i])];
      }
    }
    assert e.omittedEntries[..|e.omittedEntries|] == e.omittedEntries;
  }

  method CheckSummary(e: RequestEntry, index: seq<Entry>) returns (issues: seq<Issue>)
    ensures issues == SummaryIssues(e, index)
  {
    hide Lookup, SourceEntriesOf, RecordOf;
    issues := [];
    var summary := if e.summaryEntry.Some? then Lookup(index, e.summaryEntry.value) else None;
    if summary.None? && e.summaryEntry.Some? {
      issues := issues + [MissingSummary];
    } else if summary.Some? {
      if summary.value.kind != ReplacementSummary { issues := issues + [WrongSummaryKind]; }
      if SourceEntriesOf(summary.value) != e.omittedEntries { issues := issues + [SourcesNotOmitted]; }
      if RecordOf(summary.value) != e.record { issues := issues + [WrongSummaryRecord]; }
    }
  }

  method CheckCarried(e: RequestEntry, index: seq<Entry>) returns (issues: seq<Issue>)
    ensures issues == CarriedIssues(e, index)
  {
    hide Lookup, RecordOf;
    issues := [];
    var carried := if e.carriedEntry.Some? then Lookup(index, e.carriedEntry.value) else None;
    if carried.None? && e.carriedEntry.Some? {
      issues := issues + [MissingCarried];
    } else if carried.Some? {
      if carried.value.kind != CarryForwardState { issues := issues + [WrongCarriedKind]; }
      if RecordOf(carried.value) != e.record { issues := issues + [WrongCarriedRecord]; }
    }
  }

  method CheckMembership(e: RequestEntry) returns (issues: seq<Issue>)
    ensures issues == MembershipIssues(e)
  {
    issues := [];
    if e.summaryEntry.Some? {
      if e.summaryEntry.value !in e.selectedEntries { issues := issues + [SummaryNotSelected]; }
    }
    if e.carriedEntry.Some? {
      if e.carriedEntry.value in e.selectedEntries { issues := issues + [CarriedSelected]; }
    }
  }

  method CheckNames(e: RequestEntry) returns (issues: seq<Issue>)
    ensures issues == When(e.summaryEntry.None?, NoSummaryId) + When(e.carriedEntry.None?, NoCarriedId)
                        + When(e.record.None?, NoRecordId)
  {
    issues := [];
    if e.summaryEntry.None? { issues := issues + [NoSummaryId]; }
    if e.carriedEntry.None? { issues := issues + [NoCarriedId]; }
    if e.record.None? { issues := issues + [NoRecordId]; }
  }

  method CheckStrays(e: RequestEntry) returns (issues: seq<Issue>)
    ensures issues == InactiveIssues(e)
  {
    issues := [];
    if e.summaryEntry.Some? { issues := issues + [StraySummaryId]; }
    if e.carriedEntry.Some? { issues := issues + [StrayCarriedId]; }
    if e.record.Some? { issues := issues + [StrayRecordId]; }
  }

  method CheckActive(e: RequestEntry, index: seq<Entry>) returns (issues: seq<Issue>)
    ensures issues == ActiveIssues(e, index)
  {
    hide SummaryIssues, CarriedIssues, MembershipIssues, When;
    issues := CheckNames(e);
    var summary := CheckSummary(e, index);
    var carried := CheckCarried(e, index);
    var membership := CheckMembership(e);
    issues := issues + summary + carried + membership;
  }

  method CheckBasics(e: RequestEntry, index: seq<Entry>) returns (issues: seq<Issue>, rebuilt: nat)
    ensures issues == BasicIssues(e, index) && rebuilt == RebuiltCount(e, index)
  {
    hide Missing, SelectedMessages;
    issues := CheckPresence(e, index);
    rebuilt := 0;
    if issues == [] {
      var selected := ReconstructSelected(e, index);
      if selected.Done? {
        rebuilt := |selected.value|;
      } else {
        issues := issues + [ReplayFailed(selected.error)];
      }
    }
    if rebuilt != 0 && rebuilt != e.messageCount {
      issues := issues + [CountMismatch];
    }
  }

  method CheckReplay(e: RequestEntry, index: seq<Entry>) returns (issues: seq<Issue>, before: nat)
    ensures issues == DeepIssues(e, index)
    ensures before == if PreCompaction(e, index).Done? then |PreCompaction(e, index).value| else 0
  {
    hide PreCompaction, PostCompaction, SelectedMessages;
    issues, before := [], 0;
    var pre := ReconstructPreCompaction(e, index);
    if pre.Failed? {
      issues := [ReplayFailed(pre.error)];
      return;
    }
    before := |pre.value|;
    if before != e.itemsBefore {
      issues := issues + [PreCountMismatch];
    }
    var post := ReconstructPostCompaction(e, index);
    if post.Failed? {
      issues := issues + [ReplayFailed(post.error)];
      return;
    }
    var selected := ReconstructSelected(e, index);
    if selected.Failed? {
      issues := issues + [ReplayFailed(selected.error)];
      return;
    }
    if post.value != selected.value {
      issues := issues + [NotRebuilt];
    }
  }

  method VerifyRequestContextEntry(e: RequestEntry, index: seq<Entry>) returns (report: Report)
    ensures report == ReportOf(e, index)
  {
    hide BasicIssues, ActiveIssues, DeepIssues, InactiveIssues, PreCompaction, RebuiltCount;
    var issues, rebuilt := CheckBasics(e, index);
    var before := 0;
    if e.active {
      var active := CheckActive(e, index);
      issues := issues + active;
      if issues == [] {
        var deep, count := CheckReplay(e, index);
        issues, before := deep, count;
      }
    } else {
      var strays := CheckStrays(e);
      issues := issues + strays;
    }
    report := Report(e.turn, issues == [], rebuilt, before, issues);
  }
}
