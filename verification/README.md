# Verification of the agent runtime's history, recovery and audit code

This project models, in Dafny, four parts of the repository and proves properties of the models.

**Request history and its audit.** A run keeps two views: the trajectory and the request the model sees. Each turn
synchronises new messages, plans a selection under one of four policies, and may replace whole old turns by one
SYSTEM summary; a retained-history log and one request-context entry per turn record what happened. The planner is in
`Planning`, `TurnRanges`, `TailWindows`, `Compaction` and `ContextPlans`; the writers and the manager are the classes of
`RetainedHistory`, `RequestContext` and `HistoryManager`, proved against the state functions of `History`. The central
result is a closed form (`HistoryView`): after any number of compactions the request is the trajectory with each
covered turn either gone or, at its record's first ASSISTANT message, replaced by that record's summary.
`HistoryInvariant` and `HistoryRun` prove it for every reachable state of every run; `Conservation`,
`RequestContents`, `WindowTurns`, `CompactedTurns` and `BackendRuns` draw the consequences. `Replay`, `Verify`, `Lineage` and
`Evolution` model the code that reads the log back, and `ReplayRuns`, `FirstCompaction`, `TurnEntries`, `VerifyRuns`,
`LineageRuns` and `EvolutionRuns` prove exactly which turns of which runs each of them accepts; `AuditExactness` says
what each of them accepts on any entries and any log.

**Recovery and stop policy.** `Recovery` and `Stopping` model the mutable recovery state and `should_stop`; `Gates`
relates the places that compute the completion gate; `AgentLoop` is the runner's loop with a log of tool results; and
`AgentRuns`, `LastValidation`, `AgentBudgets`, `FinishTurns` and `EvidenceLimits` prove what whole runs guarantee and
what they do not; `LogCounts`, `ProgressRuns`, `StopReasons`, `AttemptRuns` and `RevisionRuns` read counters and stop
reasons off the log of tool calls.
`Parser` is the response interpretation the parse-error rules rely on, `PendingLedger` the session's issue ledger.

**Pipelined training.** `AsyncTraining` is the loop that overlaps generation with training, with its event trace.

**Two validators.** `TreeDigest` is the byte stream hashed for a reference tree; `RunsRetention` the matching of
deletion authorizations with index entries.

## Conventions

A message is a role, the byte length the token estimate measures, and a payload that stands for everything else.
Entry ids are their ordinals. The text of summaries and the carried-forward state are an uninterpreted function of the
compacted ranges; the session, the backend's replies and the tool results are inputs, so every statement about runs
holds for all of them. A run's trajectory grows as the runner grows it: the two prompts, then per turn one ASSISTANT
message, its TOOL results and at most one USER repair message. In a run, `cuts` lists for each record the last turn it
covers. A theorem "against any continuation of the log" covers in particular the final synchronisation after the loop.

Where a property one might expect is false of the code, the exact condition is proved over all inputs or runs, and a
concrete run shows the failure:

- every turn can be replayed, verified and accepted by the evolution audit: `CompactionReplayExactly`, `VerifyExactly`,
  `TransitionOkExactly`, with `SecondCompactionIsRejected`;
- a turn to be preserved is never compacted: `ProtectedTurnTakenExactly`, with `ProtectedTurnCanBeTaken`;
- a TOOL message follows its ASSISTANT message: `ToolsFollowTheirAssistant` outside the tail window,
  `WindowRespectsTurnsExactly` under it, with `TailWindowSplitsTurns`;
- the recorded budget flags describe the request sent: `FlagsRightExactly`, with `FlagsCanMislead`;
- a completed run mutates nothing after its last successful validation: `MutationAfterValidationExactly`, with
  `SameTurnMutationCompletes`;
- the last validation of a completed run passed: `LastValidationPassedExactly`, with
  `OvertakenValidationFailureCompletes`, `ParseErrorOvertakesValidation` and `RefusedValidationCompletes`;
- an agent that only finishes is stopped by the deferral budget: `FinishOnlyEndsExactly`, with
  `UncorrectedParseErrorRunsOn`;
- a finish is carried out whenever it ends the run: `HandlerAgreesWithStop`, with `MalformedFinishCompletes`.

`docs/compaction_contract.md` (lines 47-48) says that the tail window pins the leading system/user context and that
deterministic compaction starts from the tail-window boundary. The code pins every SYSTEM and USER message and plans
compaction over the whole request; the model follows the code.

## Model

| member | source | states |
|---|---|---|
| `TurnRanges.BuildTurnRanges` | pycodeagent/agent/compaction.py:907-948 | the one-pass loop builds exactly the ranges of `TurnRangesOf`, whose meaning the next row gives |
| `TurnRanges.TurnRangesMeaning` | pycodeagent/agent/compaction.py:907-936 | there is one range per ASSISTANT message, numbered from 1, and range j holds exactly the ASSISTANT and TOOL positions of turn j in order; SYSTEM and USER messages never enter a range |
| `TurnRanges.CoveredMeaning` | pycodeagent/agent/compaction.py:907-936 | the first c ranges together cover turns 1 to c whole and nothing else |
| `Planning.OverflowAndTarget` | pycodeagent/agent/compaction.py:1104-1142 | overflow is 0 exactly when the budget test passes; and exactly when the estimate is within the clamped target, unless the reserves alone exceed the limit and the request is empty |
| `Messages.EstimateExactly` | pycodeagent/agent/turn_state.py:1143-1159 | the estimate of a message is the least number, at least one, of groups of four bytes that holds its text |
| `TailWindows.SelectTailWindow` | pycodeagent/agent/compaction.py:443-557 | the newest-to-oldest scan, with its count and token tests, computes the window of `TailWindowResult` |
| `TailWindows.TailWindowOptimal` | pycodeagent/agent/compaction.py:483-509 | of all sets of unpinned messages that respect both limits, the kept set is the one greatest in newest-to-oldest lexicographic order, and a nonempty choice respects the limits itself |
| `TailWindows.TailWindowMaximal` | pycodeagent/agent/compaction.py:487-508 | adding any omitted message to the window breaks a limit |
| `TailWindows.TailWindowIncludes` | pycodeagent/agent/compaction.py:510-531 | what is included is every pinned message and the kept ones, in order, and selected plus omitted tokens are the tokens of the request |
| `TailWindows.TailWindowTakesExactly` | pycodeagent/agent/compaction.py:487-508 | a message that is not pinned is kept if and only if, with the newer ones kept, it respects both limits |
| `TailWindows.KeptByCount` | pycodeagent/agent/compaction.py:487-508 | under a message limit alone it is kept if and only if fewer unpinned messages are newer than there is room for |
| `TailWindows.WindowRecorded` | pycodeagent/agent/compaction.py:453-557 | what a window says of itself: whether anything was omitted, how much, and why, pinned overflow included |
| `WindowTurns.WindowRespectsTurnsExactly` | pycodeagent/agent/compaction.py:487-531 | over every tail-window run, every TOOL message sent comes after the ASSISTANT message of its own turn if and only if no turn of the trajectory is split |
| `WindowTurns.SplitsExactly` | pycodeagent/agent/compaction.py:487-508 | a window has a TOOL message of a turn without its ASSISTANT message if and only if, scanning from the newest, the one still fits and the other does not |
| `WindowTurns.CountSplitsExactly` | pycodeagent/agent/compaction.py:487-508 | under a message limit alone: if and only if the room lies between the numbers of unpinned messages newer than the one and the other |
| `WindowTurns.TailWindowSplitsTurns` | pycodeagent/agent/compaction.py:487-508 | a concrete request whose one turn is split |
| `Compaction.SelectDeterministicCompaction` | pycodeagent/agent/compaction.py:560-850 | the planner, with every skip branch, computes `DeterministicResult` |
| `Compaction.SearchCandidates` | pycodeagent/agent/compaction.py:701-745 | the candidate loop stops at the first number of oldest turns whose compaction fits, or takes all candidates |
| `Compaction.PlanCompactsPrefix` | pycodeagent/agent/compaction.py:651-787 | a plan keeps every message, or replaces turns 1 to k of a request that breaks a limit by one SYSTEM summary at the place of the first of them, turn k being older than the active issue and the last successful validation |
| `Compaction.CompactsExactly` | pycodeagent/agent/compaction.py:651-745 | which turns go, in the fields of the limits and the session: something is compacted if and only if the request breaks a limit and turn 1 is begun and older than both the opening of the active issue and the last successful validation; only such turns go, no fewer would do, and if even the result breaks a limit all of them have gone |
| `Compaction.DecisionRecorded` | pycodeagent/agent/compaction.py:571-694 | why compaction was considered or skipped, which limits were broken, and that the candidates are the begun turns that may go |
| `Compaction.ArtifactRecorded` | pycodeagent/agent/compaction.py:697-812 | summary and carried state are those rendered for exactly the turns compacted; turn, ranges, slot, sizes, target and reasons are those of the request before and after |
| `Compaction.CandidatesArePrefix` | pycodeagent/agent/compaction.py:651-655 | the candidates are the ranges numbered below the preserved turn |
| `Compaction.CompactionSize` | pycodeagent/agent/compaction.py:774-787 | c covered messages leave n - c + 1, always more than the pinned ones, so the reason pinned_token_overflow cannot occur here |
| `Compaction.CompactionTokens` | pycodeagent/agent/compaction.py:853-904 | tokens after plus tokens omitted are tokens before plus the summary; overflow is 0 exactly when the artifact reports the budget as met |
| `ContextPlans.PlanRequestContext` | pycodeagent/agent/compaction.py:137-217 | dispatch over the four policies |
| `ContextPlans.ModelUsedExactly` | pycodeagent/agent/runner.py:953-1162 | a model summary is used if and only if the policy asks for it, the deterministic plan compacts, and the backend answered with the runtime's kind of summary for the very same messages, turns and pinned messages; any other outcome is recorded as the failure it was |
| `ContextPlans.BackendKeepsSpan` | pycodeagent/agent/compaction.py:236-330 | whatever the backend does, selection, metadata, the messages listed as selected, and every artifact field but policy, summary slot and carried state are those of the deterministic plan; with a model summary, summary and carried state are the backend's, without one they too are the plan's |
| `ContextPlans.FlagsDescribeDeterministicPlan` | pycodeagent/agent/history_manager.py:500-520 | with a model summary the budget flags still describe the deterministic request, and the request sent weighs that much with one summary exchanged for the other |
| `BackendRuns.FlagsRightExactly` | pycodeagent/agent/history_manager.py:500-520 | in every turn under every policy the recorded budget flag is right for the request sent if and only if the exchange of summaries does not carry it across the limit, and the recorded overflow if and only if it changes no weight or stays within the limit |
| `BackendRuns.FlagsCanMislead` | pycodeagent/agent/history_manager.py:518-519 | a concrete plan reports its budget of 60 tokens as met while its request weighs 1002 |
| `RetainedHistory.RetainedHistoryWriter.constructor` | pycodeagent/agent/retained_history.py:182-195 | an empty log, well numbered |
| `RetainedHistory.RetainedHistoryWriter.Append` | pycodeagent/agent/retained_history.py:230-263 | appends one entry bearing the next ordinal and changes nothing logged before; ordinals, totals, per-kind counts and last id stay those of the log |
| `RetainedHistory.RetainedHistoryWriter.AppendSourceMessage` | pycodeagent/agent/retained_history.py:265-289 | appends exactly one source entry with its trajectory index and replayable message |
| `RetainedHistory.RetainedHistoryWriter.AppendReplacementSummary` | pycodeagent/agent/retained_history.py:291-317 | appends exactly one summary entry without trajectory index, naming its record and sources |
| `RetainedHistory.RetainedHistoryWriter.AppendCarriedForwardState` | pycodeagent/agent/retained_history.py:319-334 | appends exactly one carried-forward entry naming its record |
| `RetainedHistory.RetainedHistoryWriter.AppendHistoryControl` | pycodeagent/agent/retained_history.py:336-351 | appends exactly one control entry |
| `RetainedHistory.IndexOfLog` | pycodeagent/agent/history_replay.py:27-30 | the replay table of a well-numbered log is the log itself: no id overwrites another |
| `RetainedHistory.LookupInLog` | pycodeagent/agent/history_replay.py:27-30 | looking an id up in that table gives the entry appended with that ordinal |
| `RequestContext.RequestContextWriter.constructor` | pycodeagent/agent/request_context.py:224-237 | an empty log, well numbered |
| `RequestContext.RequestContextWriter.AppendSnapshot` | pycodeagent/agent/request_context.py:272-374 | appends one entry made of the snapshot under the next ordinal; earlier entries stay |
| `HistoryManager.RuntimeHistoryManager.constructor` | pycodeagent/agent/history_manager.py:89-122 | a manager starts with empty views |
| `HistoryManager.RuntimeHistoryManager.SyncSourceMessages` | pycodeagent/agent/history_manager.py:124-146 | every unseen trajectory message enters both views and the log, in order (`Synced`) |
| `HistoryManager.RuntimeHistoryManager.BuildContextPlan` | pycodeagent/agent/history_manager.py:148-171 | plans over the current request messages |
| `HistoryManager.RuntimeHistoryManager.ApplyCompactionReplacement` | pycodeagent/agent/history_manager.py:310-423 | logs summary, carried state and artifact, adds the record, and rebuilds the request with the summary at the first compacted position (`Replace`) |
| `HistoryManager.RuntimeHistoryManager.SnapshotFromPlan` | pycodeagent/agent/history_manager.py:204-308 | the snapshot and the whole new state after materialising a plan |
| `HistoryView.CompactFirstOfView` | pycodeagent/agent/history_manager.py:411-423 | one more compaction of a request that already went through any number of compactions gives the closed form for one more record |
| `HistoryView.SegmentOfView` | pycodeagent/agent/compaction.py:907-936 | what a compaction of the current request takes are exactly the next turns of the trajectory; a summary is never compacted again |
| `HistoryView.AssistantsOfView` | pycodeagent/agent/compaction.py:910-915 | the request has begun exactly the turns after the last compacted one |
| `HistoryView.ReplacementsOfView` | pycodeagent/agent/history_manager.py:411-423 | live summaries are the records' summaries, in order |
| `HistoryInvariant.SyncKeepsInvariant` | pycodeagent/agent/history_manager.py:124-146 | synchronising keeps: log numbering, log backing of items and records, and the request being the closed-form view |
| `HistoryInvariant.ReplaceKeepsInvariant` | pycodeagent/agent/history_manager.py:310-423 | a replacement keeps the same invariant, with one more record covering the next k turns |
| `HistoryInvariant.CompactionTakesNextTurns` | pycodeagent/agent/history_manager.py:321-345 | the items a compaction covers are the trajectory items of the next k run turns |
| `HistoryRun.RunTurn` | pycodeagent/agent/runner.py:188-260 | one pass of the loop up to the request refines the step function |
| `HistoryRun.RunTurns` | pycodeagent/agent/runner.py:127-260 | the loop over any number of turns, driving manager and both writers, refines `RunOf` |
| `HistoryRun.RunKeepsInvariant` | pycodeagent/agent/history_manager.py:89-423 | the invariant holds at every reachable state of every run under every policy |
| `HistoryRun.NoReplacements` | pycodeagent/agent/compaction.py:411-557 | full-history and tail-window runs never replace anything |
| `Conservation.RequestIndices` | pycodeagent/agent/history_manager.py:411-423 | the source indices in the request are exactly those whose turn has not been compacted, ascending |
| `Conservation.EachMessageInOnePlace` | pycodeagent/agent/history_manager.py:321-423 | in any state satisfying the invariant, a message is in the request or in exactly the record that covers its turn; SYSTEM and USER messages always stay |
| `Conservation.RunConservesMessages` | pycodeagent/agent/history_manager.py:124-423 | over every run: strictly increasing request indices, pinned messages kept, every other message in the request or in exactly one record exactly once, live summaries matching records one to one |
| `RequestContents.SentInOrder` | pycodeagent/agent/history_manager.py:204-308 | every request of every policy is drawn from the trajectory in order, each message at most once |
| `RequestContents.EveryRequestOpensWithPrompts` | pycodeagent/agent/runner.py:133-260 | every request of every run under every policy opens with the system and the task prompt, and its recorded source indices strictly increase |
| `RequestContents.ToolsFollowTheirAssistant` | pycodeagent/agent/compaction.py:907-936 | outside the tail window, every TOOL message of every request comes after the ASSISTANT message of its own run turn |
| `RequestContents.SelectionConservesTokens` | pycodeagent/agent/history_manager.py:495-515 | for any ordered draw from the trajectory: selected plus omitted tokens are the trajectory's plus those of the summaries drawn |
| `RequestContents.RequestConservesTokens` | pycodeagent/agent/history_manager.py:467-520 | in every turn of every run under every policy, recorded selected plus omitted tokens equal the trajectory plus the live summaries |
| `RequestContents.SentIsRequest` | pycodeagent/agent/history_manager.py:204-308 | outside the tail window what is sent is the whole request history the turn leaves behind |
| `CompactedTurns.CompactedTurnsArePrefix` | pycodeagent/agent/compaction.py:907-936 | at every reachable state the compacted turns are exactly 1 to m |
| `CompactedTurns.RelativeTurns` | pycodeagent/agent/compaction.py:910-915 | relative turn j of the request is run turn m + j |
| `CompactedTurns.FirstCompactionPreserves` | pycodeagent/agent/compaction.py:951-967 | while nothing has been compacted, a plan that takes turns 1 to k has k below the opening turn of the active issue and below the last successful validation turn |
| `CompactedTurns.ProtectedTurnTakenExactly` | pycodeagent/agent/compaction.py:651-655 | under a compaction policy, with m turns compacted before: a plan takes a run turn that may not go if and only if m >= 1, the request breaks a limit, its first turn is taken to be free, turn m + (turns begun) may not go, and compacting only the run turns that may go does not make it respect its limits |
| `CompactedTurns.ProtectedTurnCanBeTaken` | pycodeagent/agent/compaction.py:951-967 | a three-turn run in which the last validated turn, an ASSISTANT and a TOOL message, is compacted |
| `Replay.ReconstructSelected` | pycodeagent/agent/history_replay.py:50-65 | collects the messages of the selected entries, or stops at the first missing or message-less one |
| `Replay.CollectRetained` | pycodeagent/agent/history_replay.py:97-113 | the first collection loop, skipping the summary |
| `Replay.CollectSources` | pycodeagent/agent/history_replay.py:115-130 | the second collection loop, over the summary's sources |
| `Replay.ReconstructPreCompaction` | pycodeagent/agent/history_replay.py:68-133 | the whole function with every failure, ending in the sort by trajectory index |
| `Replay.ReinsertSummary` | pycodeagent/agent/history_replay.py:186-196 | the loop with the inserted flag puts the summary where the first compacted index stood |
| `Replay.ReconstructPostCompaction` | pycodeagent/agent/history_replay.py:136-196 | the whole function with every failure |
| `Sorting.SortByArranges` | pycodeagent/agent/history_replay.py:132-133 | sorting by distinct keys gives a permutation in strictly increasing key order |
| `ReplayRuns.RunGrows` | pycodeagent/agent/retained_history.py:230-263 | over a run, log, records, request entries and cuts are only ever appended to |
| `ReplayRuns.ReplayRoundTrip` | pycodeagent/agent/history_replay.py:50-65 | for every turn of every run under every policy, replaying its entry against the final log or any continuation of it yields exactly the messages sent |
| `FirstCompaction.FirstCompactionInverts` | pycodeagent/agent/history_replay.py:68-133 | after the first compaction, pre-compaction replay gives back the whole trajectory |
| `FirstCompaction.FirstCompactionRebuilds` | pycodeagent/agent/history_replay.py:136-196 | putting the summary back rebuilds the request that was sent |
| `FirstCompaction.LaterCompactionFails` | pycodeagent/agent/history_replay.py:104-107 | from the second compaction on, both reconstructions fail at the first summary of the run, which has no trajectory index |
| `TurnEntries.EntryOfTurn` | pycodeagent/agent/request_context.py:272-374 | what each turn's entry records: selection, omission, counts, log positions, and the record made in that turn, if any |
| `TurnEntries.EntryTellsPlan` | pycodeagent/agent/request_context.py:272-374 | policy, failure, selection and reason of each entry are those of its plan; the record of a compacting turn carries the plan's reason, carried state, slot and summary, and so do its log entries |
| `TurnEntries.CompactionReplayExactly` | pycodeagent/agent/history_replay.py:68-196 | over every run: both reconstructions succeed if and only if no summary is live or the turn made the run's first compaction. With no summary live both give the messages sent; after the first compaction the trajectory and the messages sent. A turn that shows a summary and made none fails for naming no summary, any later compaction at the run's first summary |
| `Verify.VerifyRequestContextEntry` | pycodeagent/agent/history_verify.py:29-186 | the whole report, every check in the order of the source, computes `ReportOf`, whose verdict on runs is `VerifyExactly` |
| `AuditExactness.ReportExactly` | pycodeagent/agent/history_verify.py:29-186 | on any entry and any log, verification succeeds if and only if the log bears the entry out: every id present, the counts right, summary and carried state of the right kind and record, the omitted ids its sources, and the compaction undone and redone to the messages selected |
| `AuditExactness.SelectedExactly` | pycodeagent/agent/history_replay.py:50-65 | on any log, selected messages are replayed if and only if every id stands for an entry with a message, and they are those messages in order |
| `AuditExactness.UndoneExactly` | pycodeagent/agent/history_replay.py:68-133 | on any log, a compaction can be undone if and only if its summary is there with an index for each source, the sources have messages, and the other selected entries have messages and trajectory indices |
| `AuditExactness.RedoneExactly` | pycodeagent/agent/history_replay.py:136-196 | and redone if and only if, besides, the summary has a message and sources and the indexed entries are as many as the messages undone |
| `AuditExactness.LookupExactly` | pycodeagent/agent/history_replay.py:27-30 | in any log, an id stands for the last entry that bears it |
| `VerifyRuns.OmittedAreCompacted` | pycodeagent/agent/history_verify.py:84-90 | what a request omits are exactly the turns compacted so far, in order |
| `VerifyRuns.FirstCompactionVerifies` | pycodeagent/agent/history_verify.py:57-163 | the first compaction passes every check, omitted ids equalling the summary's sources in order |
| `VerifyRuns.VerifyExactly` | pycodeagent/agent/history_verify.py:29-186 | a turn of a run verifies if and only if no summary is live or it made the first compaction; the reported counts are the recorded ones |
| `Lineage.BuildLineageReport` | pycodeagent/agent/history_lineage.py:55-170 | the loop over the entries in turn order computes `LineageReportOf`, whose verdict on runs is `LineageIsClean` |
| `AuditExactness.LineageExactly` | pycodeagent/agent/history_lineage.py:55-170 | on any entries and any log, the lineage report is ok if and only if every replacement has its summary, its carried state, exactly one artifact in its turn and source entries only as sources, rightly named and selected |
| `LineageRuns.FinalSyncCloses` | pycodeagent/agent/runner.py:727-730 | the log after the final synchronisation is a well-numbered continuation that adds source entries only, so every theorem about continuations applies to it |
| `LineageRuns.ArtifactsOfRun` | pycodeagent/agent/history_manager.py:374-382 | the log of a run holds exactly one compaction artifact for each turn that compacted and none for any other |
| `LineageRuns.TurnLineage` | pycodeagent/agent/history_lineage.py:65-163 | the lineage of each compacting turn is clean and names its record's entries and sources |
| `LineageRuns.LineageIsClean` | pycodeagent/agent/history_lineage.py:55-170 | for every run, any number of turns and compactions, the report is ok and lists every record once, in order |
| `Evolution.BuildEvolutionReport` | pycodeagent/agent/history_evolution.py:59-252 | the loop over the entries in turn order computes `EvolutionReportOf`, whose verdict on runs is `EvolutionOkExactly` |
| `AuditExactness.EvolutionExactly` | pycodeagent/agent/history_evolution.py:59-252 | on any entries and any log, the evolution report is ok if and only if in turn order each request replays and is the previous one followed by what was logged since; for the first, only the number of messages is compared |
| `AuditExactness.TransitionTells` | pycodeagent/agent/history_evolution.py:66-234 | the kind, sizes and entries of a transition; its two flags settle whether it is accepted once everything replays, the second one only from the second turn on |
| `EvolutionRuns.AppendedInTurn` | pycodeagent/agent/history_evolution.py:173-188 | between two snapshots the log gains exactly the messages of the new turn |
| `EvolutionRuns.TransitionOkExactly` | pycodeagent/agent/history_evolution.py:66-234 | outside the tail window, the transition into a turn is accepted if and only if nothing was compacted in the turns before it |
| `EvolutionRuns.EvolutionOkExactly` | pycodeagent/agent/history_evolution.py:59-252 | the audit of a whole run succeeds if and only if no turn before the last compacted anything |
| `EvolutionRuns.SecondCompactionIsRejected` | pycodeagent/agent/history_verify.py:29-186 | a three-turn run whose lineage is ok while its third turn cannot be replayed or verified and its evolution audit fails |
| `BackendRuns.UnusedBackendChangesNothing` | pycodeagent/agent/runner.py:953-1125 | a model-backed run that uses no model summary sends, turn by turn, what the deterministic run sends and reaches the same state |
| `BackendRuns.FailingBackendMatchesDeterministic` | pycodeagent/agent/compaction.py:303-330 | in particular when the backend never answers |
| `BackendRuns.ManagerSendsPlan` | pycodeagent/agent/history_manager.py:411-423 | without a model summary the manager's rebuilt list is the planner's |
| `BackendRuns.ManagerSendsModelSummary` | pycodeagent/agent/history_manager.py:411-423 | with a model summary what is sent differs from the planner's list in one place, the first compacted position, where the model's summary stands |
| `Recovery.RuntimeRecoveryState.constructor` | pycodeagent/agent/recovery.py:222-256 | the state a run starts in |
| `Recovery.RuntimeRecoveryState.RefreshCompletionEvidence` | pycodeagent/agent/recovery.py:289-310 | evidence status and the pending flag derived from it |
| `Recovery.RuntimeRecoveryState.RefreshValidationPhase` | pycodeagent/agent/recovery.py:312-332 | the validation phase |
| `Recovery.RuntimeRecoveryState.CompletionGateStatus` | pycodeagent/agent/recovery.py:425-434 | the gate, refreshing evidence unless an issue is pending |
| `Recovery.RuntimeRecoveryState.ExpectedNextStep` | pycodeagent/agent/recovery.py:436-463 | the next step and what asking for it refreshes |
| `Recovery.RuntimeRecoveryState.RecordParseResult` | pycodeagent/agent/recovery.py:478-513 | parse errors, their streak, and clearing |
| `Recovery.RuntimeRecoveryState.RecordToolResult` | pycodeagent/agent/recovery.py:516-618 | the effect of one tool result, in every branch |
| `Recovery.RuntimeRecoveryState.AssessCompletionBlock` | pycodeagent/agent/recovery.py:690-849 | the assessment and the state it leaves; the late stale branch is shown dead |
| `Gates.StepMatchesGate` | pycodeagent/agent/recovery.py:425-463 | the expected step allows finishing if and only if the gate is open |
| `Gates.StepExactly` | pycodeagent/agent/recovery.py:436-463 | each expected step in terms of what is pending and what was done |
| `Gates.GateExactly` | pycodeagent/agent/recovery.py:425-434 | the gate in terms of what is pending and when the task was last validated and changed |
| `Gates.BlocksExactly` | pycodeagent/agent/recovery.py:690-849 | each block reason, in the same terms, and the step asked for instead |
| `Gates.CodeTellsFamily` | pycodeagent/agent/stopping.py:259-331 | the deferral code tells the family of the block |
| `Gates.FailuresExactly` | pycodeagent/agent/recovery.py:1077-1111 | which failing results are recovered from, and which kind of issue a failing validation opens |
| `Gates.AssessmentMatchesGate` | pycodeagent/agent/recovery.py:690-849 | blocked if and only if the gate is closed, a failure is uncorrected, or progress is missing; the block family tells which; a block despite an open gate is a progress gate |
| `Gates.LateStaleUnreachable` | pycodeagent/agent/recovery.py:803-820 | the second stale test is never reached |
| `Gates.PhaseMatchesEvidence` | pycodeagent/agent/recovery.py:289-332 | with no validation failure pending, phase validated if and only if required evidence is |
| `Gates.ReadingsAgree` | pycodeagent/agent/recovery.py:289-332 | reading the gates in any order never changes what they say |
| `Parser.InterpretNativeResponse` | pycodeagent/agent/parser.py:115-209 | errors if and only if some candidate is bad or calls were declared and none came, one per bad candidate, in order, saying what is wrong with it; calls are all candidates or none; accepted and rejected add up |
| `Stopping.ReportDecision` | pycodeagent/agent/stopping.py:396-490 | assembling a decision and what that refreshes |
| `Stopping.DeferCompletion` | pycodeagent/agent/stopping.py:259-331 | a blocked attempt is charged and may exhaust a budget |
| `Stopping.ShouldStop` | pycodeagent/agent/stopping.py:160-393 | the stop policy in its order of tests, with the state it leaves |
| `Stopping.FinishIsBlocked` | pycodeagent/agent/runner.py:2059-2085 | the runner's own check before the finish handler |
| `AgentLoop.RuntimeSessionState.NoteToolExecution` | pycodeagent/agent/turn_state.py:482-523 | tool counters, progress flags and the recent failure |
| `AgentLoop.RuntimeSessionState.NoteProtocolOrParseFailure` | pycodeagent/agent/turn_state.py:469-479 | the recent failure window |
| `AgentLoop.ExecuteCall` | pycodeagent/agent/runner.py:450-557 | one tool call: whether the handler runs and what is recorded |
| `AgentLoop.ExecuteTurn` | pycodeagent/agent/runner.py:403-578 | one turn from response to decision |
| `AgentLoop.RunAgentTask` | pycodeagent/agent/runner.py:147-725 | the whole loop, a client error included: status, turns taken, last decision and the log of tool results are those of `RunAgent` on the responses before the error |
| `AgentRuns.ToolFacts` | pycodeagent/agent/recovery.py:516-618 | only a successful validation moves the last success, only a mutation call the last mutation |
| `LogCounts.RunReadsLog` | pycodeagent/agent/recovery.py:334-401 | over every run: the dates of the last validation, failure, success and mutation and the number of failures are those of the log, and the validation counter of an issue opened by a failing validation is the number of failing validations of its kind in a row, opened in the turn the row began |
| `LogCounts.ResolvedExactly` | pycodeagent/agent/recovery.py:369-383 | a passing validation, counted as an attempt, moves the active issue to the last resolved one; nothing else does |
| `LogCounts.ToolSettles` | pycodeagent/agent/recovery.py:516-618 | what one tool result does to the pending issue and the open failure: cleared by a passing validation, or by another success if a retry was pending; corrected by any other success and by any mutation call; replaced by a failure that can be recovered from |
| `LogCounts.ResponseSettles` | pycodeagent/agent/recovery.py:478-513 | what a response does to them: parse errors without calls replace both, a response without errors clears a pending parse error and leaves its failure open |
| `LogCounts.OncePerTurn` | pycodeagent/agent/recovery.py:385-412 | revisions and deferrals count at most once a turn; progress before the turn of a failure does not correct it |
| `LogCounts.EvidenceReadsLog` | pycodeagent/agent/recovery.py:289-310 | the evidence status read off the log: missing without a passing validation, stale if a mutation was called in a turn after the last |
| `ProgressRuns.MeaningfulExactly` | pycodeagent/agent/turn_state.py:526-534 | progress is meaningful if and only if a mutation or a validation succeeded or two different tools were called; the gate applies beyond one success without it |
| `ProgressRuns.RecentExactly` | pycodeagent/agent/recovery.py:903-928 | a failure is recent in its own turn and the next two unless a tool succeeds; a blocked completion is none |
| `ProgressRuns.ResponseFailures` | pycodeagent/agent/runner.py:424-435 | a response with protocol errors, or with parse errors and no calls, is a recent failure of that kind |
| `StopReasons.ReasonsExactly` | pycodeagent/agent/stopping.py:160-393 | each reason the policy can give, and exactly when |
| `StopReasons.DecisionTells` | pycodeagent/agent/stopping.py:259-490 | code, block, step and gate of every decision, by its reason or why it goes on |
| `StopReasons.CachesAreFresh` | pycodeagent/agent/recovery.py:289-332 | the evidence status, the phase and the flag of a mutation to validate are those of the facts whenever a turn ends |
| `StopReasons.ValidationBudgetExactly` | pycodeagent/agent/recovery.py:654-687 | a run fails for the validation budget if and only if its log ends in more failing validations of one kind in a row than the budget allows |
| `StopReasons.ParseErrorStopExactly` | pycodeagent/agent/recovery.py:478-513 | a run ends in error if and only if its last two responses were parse errors and turns remain |
| `StopReasons.RunCountsParsing` | pycodeagent/agent/recovery.py:478-513 | the streak is the number of parse-error turns in a row, the total that of all errors |
| `StopReasons.LastTurnFails` | pycodeagent/agent/stopping.py:197-212 | a run that uses up its turns has failed, even if it finishes in the last |
| `AgentRuns.AcceptsExactly` | pycodeagent/agent/stopping.py:160-393 | completion is accepted if and only if no budget is exhausted, turns remain, nothing but finish is asked for, and the assessment does not block |
| `AgentRuns.CompletionIsSafe` | pycodeagent/agent/recovery.py:516-849 | a run that requires evidence ends completed only with no issue pending, a successful validation in some turn, and no mutation call in any later turn |
| `LastValidation.MutationAfterValidationExactly` | pycodeagent/agent/recovery.py:289-310 | in every completed run that requires evidence, a mutation call follows the last successful validation if and only if one follows it within that validation's own turn |
| `LastValidation.LastValidationPassedExactly` | pycodeagent/agent/recovery.py:516-618 | in every such run the last validation that left a trace passed if and only if no validation issue is open at the end; the last of all if and only if, besides, it is not an unrecoverable failure |
| `LastValidation.RunMirrors` | pycodeagent/agent/recovery.py:516-687 | over every run that requires evidence: an issue is open whenever the last traced validation failed, and otherwise only if evidence is missing or stale |
| `EvidenceLimits.SameTurnMutationCompletes` | pycodeagent/agent/recovery.py:300-303 | a run that mutates after validating in the same turn completes |
| `EvidenceLimits.OvertakenValidationFailureCompletes` | pycodeagent/agent/recovery.py:565-609 | a run whose most recent validation failed completes, because a tool failure replaced the pending failure and was cleared |
| `EvidenceLimits.ParseErrorOvertakesValidation` | pycodeagent/agent/recovery.py:478-513 | a run whose most recent validation failed completes, because a parse error replaced the pending failure and was cleared |
| `EvidenceLimits.RefusedValidationCompletes` | pycodeagent/agent/recovery.py:577-578 | a run whose last validation was refused by the command policy completes |
| `EvidenceLimits.UncorrectedParseErrorRunsOn` | pycodeagent/agent/recovery.py:768-792 | after an uncorrected parse error any number of completion attempts goes on until the turn limit |
| `AgentBudgets.JudgeBounds` | pycodeagent/agent/stopping.py:186-331 | whenever the policy lets the loop continue, every counter of the active issue is within its limit |
| `AgentBudgets.CountersStayBounded` | pycodeagent/agent/recovery.py:334-401 | over every run: within limits while running, once-a-turn counters never above limit + 1, and the loop never passes its last turn |
| `AgentBudgets.TwoParseErrorTurnsEnd` | pycodeagent/agent/recovery.py:478-513 | two consecutive parse-error turns end every run |
| `FinishTurns.HandlerAgreesWithStop` | pycodeagent/agent/runner.py:484-503 | in a turn of finish calls only, a finish is carried out if and only if its arguments map and the stop policy accepts; so the two disagree exactly when an unmapped finish ends the run |
| `FinishTurns.MalformedFinishCompletes` | pycodeagent/agent/runner.py:476-524 | a malformed finish call is not carried out and still ends the run as completed |
| `FinishTurns.FinishOnlyTurn` | pycodeagent/agent/stopping.py:274-393 | one finish-only turn: what is counted and what can end it |
| `FinishTurns.FinishOnlyStops` | pycodeagent/agent/recovery.py:621-687 | an agent with an active issue, or missing or stale evidence, that from then on only finishes stops once it has done so more often than the deferral limit |
| `FinishTurns.FinishOnlyNeverCompletes` | pycodeagent/agent/recovery.py:621-687 | on an evidence-required task, more finish-only turns from the start than the deferral limit stop the run, not completed |
| `AttemptRuns.AttemptTurn` | pycodeagent/agent/stopping.py:259-393 | a finish-only turn completes if nothing holds it back (a pending failure, evidence not in order, an uncorrected open or recent failure, no meaningful progress), fails for the deferral budget if it is counted and the limit reached, and goes on otherwise |
| `AttemptRuns.AttemptsExactly` | pycodeagent/agent/stopping.py:259-393 | after any number of such turns short of the turn limit: whether the run goes on, failed for the deferral budget, at which attempt, or completed |
| `AttemptRuns.FinishOnlyEndsExactly` | pycodeagent/agent/recovery.py:621-687 | from any point of any run, it goes on after any number of finish-only turns if and only if the turn limit is not reached, something holds it back, and, should attempts be counted, they are within the deferral limit |
| `RevisionRuns.RevisionBudgetExactly` | pycodeagent/agent/recovery.py:385-392 | an agent with an active issue that from then on only revises goes on if and only if turns remain and the revisions, one a turn, are within the budget; else that budget or the turn limit is the reason |
| `RevisionRuns.RevalidateExactly` | pycodeagent/agent/recovery.py:436-463 | over every run: while a validation failure is pending the step is to validate again if and only if a mutation tool was called in a turn after the last failing validation, else to revise |
| `PendingLedger.SessionLedger.SyncPendingIssueRecord` | pycodeagent/agent/turn_state.py:553-600 | one end-of-turn synchronisation of the ledger |
| `PendingLedger.LedgerIsRunLengths` | pycodeagent/agent/turn_state.py:553-600 | the records are exactly the maximal stretches of turns with one pending kind, in order, covering every such turn |
| `PendingLedger.OneRecordPerTurn` | pycodeagent/agent/turn_state.py:553-600 | no turn lies in two records |
| `AsyncTraining.TrainStep` | slime-main/train_async.py:36-55 | drain, launch the next rollout, train: keeps the protocol |
| `AsyncTraining.SyncWeights` | slime-main/train_async.py:71-75 | drains before the weights move |
| `AsyncTraining.Run` | slime-main/train_async.py:34-79 | every rollout is generated once and trained on once, in order; one generation at a time; no weight update while one is in flight; the batch of step r is min(r - start, ((r - 1) mod interval) + 1) steps old; critic-only steps train no actor; the weights are pushed after every rollout whose successor the interval divides, the last included, and at no other time |
| `AsyncTraining.AtMostOneInFlight` | slime-main/train_async.py:34-75 | at most one generation is ever outstanding |
| `AsyncTraining.AgeOfData` | slime-main/train_async.py:36-75 | the age formula, bounded by the interval |
| `AsyncTraining.PushesExactly` | slime-main/train_async.py:71-75 | the pushed weights, in order, are exactly those of r + 1 - start steps for each such r, and the last are those held |
| `TreeDigest.DigestReferenceTree` | pycodeagent/dev/codex_reference.py:151-211 | digest, count and placeholders of a supported tree; otherwise the first unsupported file in path order |
| `TreeDigest.StreamDecodes` | pycodeagent/dev/codex_reference.py:199-206 | two entry lists give the same byte stream if and only if they are equal, newlines in paths and targets included |
| `TreeDigest.TargetDecodes` | pycodeagent/dev/codex_reference.py:417-422 | a link target is recovered although it may contain newlines |
| `TreeDigest.StreamIdentifiesTree` | pycodeagent/dev/codex_reference.py:151-211 | two trees are hashed over the same bytes if and only if their normalised entries in path order are equal |
| `TreeDigest.RecordsExactly` | pycodeagent/dev/codex_reference.py:174-206 | the hashed list holds each unexcluded file that stands for no link with its size and the hash of its content, each link or placeholder with its target, and nothing else; and which placeholders are reported |
| `TreeDigest.DigestIdentifiesContents` | pycodeagent/dev/codex_reference.py:151-211 | two trees without a hash collision are hashed over the same bytes if and only if they agree path by path in contents and links, a placeholder counting as its link |
| `TreeDigest.SupportedWalk` | pycodeagent/dev/codex_reference.py:183-187 | a tree is supported if and only if every special file in it is excluded |
| `TreeDigest.BeforeMeans` | pycodeagent/dev/codex_reference.py:174-174 | paths are ordered as in a dictionary |
| `TreeDigest.DigitsAreDecimal` | pycodeagent/dev/codex_reference.py:202-205 | sizes are written in decimal without leading zeros |
| `TreeDigest.WalkOrderIrrelevant` | pycodeagent/dev/codex_reference.py:174-174 | the order in which the tree is walked does not matter |
| `TreeDigest.PlaceholderIsLink` | pycodeagent/dev/codex_reference.py:191-197 | a placeholder file and the link it stands for give the same record |
| `RunsRetention.SplitLines` | pycodeagent/dev/runs_retention.py:485-497 | header first and only, no unknown record |
| `RunsRetention.CheckEntries` | pycodeagent/dev/runs_retention.py:499-507 | every entry valid and every target new |
| `RunsRetention.CheckAuthorizations` | pycodeagent/dev/runs_retention.py:509-519 | every authorization valid and every id new; the table holds exactly them |
| `RunsRetention.CheckDeletions` | pycodeagent/dev/runs_retention.py:931-990 | every deletion is backed; the cited targets are collected per authorization |
| `RunsRetention.CheckTargets` | pycodeagent/dev/runs_retention.py:992-1004 | targets match exactly, and the lookup of the last loop cannot fail |
| `RunsRetention.LoadAndValidateIndex` | pycodeagent/dev/runs_retention.py:451-540 | accepts exactly the indexes that are acceptable by the declarative definition; a rejection names something that is wrong |
| `RunsRetention.AcceptableExactly` | pycodeagent/dev/runs_retention.py:451-540 | the same line by line, in the fields: one header first, each entry and authorization sound and new, each deletion safely covered by a line, each authorization naming exactly the targets marked under it |
| `RunsRetention.AuthorizationsDisjoint` | pycodeagent/dev/runs_retention.py:499-525 | target sets of different authorizations are disjoint |
| `RunsRetention.AuthorizationsCoverDeletions` | pycodeagent/dev/runs_retention.py:931-1004 | together they are exactly the delete-authorized entries |
| `RunsRetention.AuthorizedDeletionsAreSafe` | pycodeagent/dev/runs_retention.py:945-990 | each authorised target belongs to an entry of an eligible, non-permanent class whose retention and quarantine were over when the authorization was given, with both checksums, verified restore, scrub done and review complete where it applies |
| `RunsRetention.UnsafeDeletionIsRejected` | pycodeagent/dev/runs_retention.py:945-990 | an entry marked for deletion that fails any of these conditions for every authorization it could cite makes the index unacceptable, and no other does |

## Left out

- Runs without a retained-history or request-context writer: the manager then records no ids; every run here has both.
- `from_trajectory_messages`, `snapshot_for_request` and `select_request_messages`: wrappers around the modelled steps, the last one relabelling the policy of a result.
- Files, JSON, manifests, wall-clock filtering and the look-up methods of the writers: the logs are in-memory sequences.
- The fall-back of `retained_entry_to_message` to role and text fields: every source and summary entry the manager writes carries its message payload.
- Role counts, first and last included index, the reference-context pins and the item kinds of a snapshot: reporting fields computed from what is modelled.
- Rendering of summaries and of carried-forward state, normalisation of backend payloads, and prose in errors, details and stop decisions: uninterpreted or absent; error identities are kept.
- The runner's trace emission and the turn and session records it writes, at a client error too: they report on the modelled state.
- Evolution transitions of tail-window runs: a window is not a prefix of the next request, and nothing is promised there.
- Continue reasons, turn actions, turn outcomes and session budget snapshots: classifications of states and decisions that are modelled.
- Tool names are canonical names; exposed-to-canonical mapping, argument checking and the tools themselves are inputs (`mapped` and `outcome` of an invocation).
- Field-level checks of index records (key sets, types, time and path formats) are one flag per record, and the optional inventory coverage check is absent.
- SHA-256 is a parameter; file-system access, glob matching and lock-file handling of the reference tree are absent.
- Saving, evaluation and periodic actions of the training loop, and what training does to the weights beyond counting steps.
- The text-protocol parser, provider clients, configuration, CLI and the repackaging reports (`history_reconciliation.py`, `compaction_acceptance.py`): they would add only easy members.
