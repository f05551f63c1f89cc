/** Recovery policy: pending issues, validation evidence and per-issue budgets. */
module Recovery {
  import opened Prelude

  datatype PendingKind = ParseErrorPending | ToolFailurePending | ValidationFailurePending

  datatype Failure = ParseFailure | ProtocolFailure | ToolFailed | ValidationFailed

  datatype Evidence = NotRequired | Missing | Stale | Validated

  datatype Phase = Idle | MutatedUnvalidated | FailedValidation | ValidatedPhase

  datatype IssueKind =
    | CommandFailed
    | NonzeroExit
    | TimedOut
    | StaleEvidence
    | FinishWithoutValidation

  datatype ValidationIssue = ValidationIssue(
    kind: IssueKind, openedAt: nat, lastObserved: nat, validations: nat, revisions: nat, deferrals: nat)

  datatype Budgets = Budgets(validations: nat, revisions: nat, deferrals: nat)

  const DEFAULT_BUDGETS := Budgets(2, 2, 2)

  datatype Step = NoStep | Validate | Revise | Revalidate | RetryParseOrTool | FinishAllowed

  datatype Gate = Open | BlockedMissingValidation | BlockedPendingIssue

  datatype Family = NoFamily | PendingIssueFamily | EvidenceFamily | ProgressFamily

  datatype BlockReason =
    | UnresolvedValidationFailure
    | RecentRecoverableFailure
    | PostMutationValidationPending
    | NoCorrectiveProgress
    | MissingValidationEvidence
    | NoMeaningfulProgress

  /** A tool call, by its canonical name. */
  datatype Call = Call(name: string)

  datatype ToolResult = ToolResult(ok: bool, isError: bool, errorType: string, stage: string, hasExitCode: bool)

  const VALIDATION_TOOLS: set<string> := {"python_run"}
  const MUTATION_TOOLS: set<string> := {"write_file", "create_file", "apply_patch"}
  const FINISH := "finish"
  const UNRECOVERABLE_ERRORS: set<string> :=
    {"command_policy", "protected_path", "missing_context", "canonical_tool_lookup", "missing_canonical_tool"}
  const RECOVERABLE_ERRORS: set<string> :=
    {"unknown_tool", "schema_validation", "argument_mapping", "argument_mapping_unexpected", "execution", "timeout",
     "invalid_query", "empty_diff", "invalid_line_range", "patch_apply", "patch_unexpected", "invalid_module",
     "invalid_target", "already_exists", "not_found"}
  const RECOVERABLE_STAGES: set<string> := {"resolve_exposed_call", "validate_exposed_arguments", "map_arguments"}
  const MAX_PARSE_ERROR_TURNS := 2

  predicate IsFinish(call: Call) { call.name == FINISH }

  predicate IsValidation(call: Call) { call.name in VALIDATION_TOOLS }

  predicate IsMutation(call: Call) { call.name in MUTATION_TOOLS }

  predicate Succeeded(result: ToolResult) { result.ok && !result.isError }

  predicate IsRecoverable(call: Call, result: ToolResult) {
    && !Succeeded(result)
    && result.errorType !in UNRECOVERABLE_ERRORS
    && ((IsValidation(call) && result.hasExitCode)
        || result.errorType in RECOVERABLE_ERRORS || result.stage in RECOVERABLE_STAGES)
  }

  function IssueKindOf(result: ToolResult): IssueKind {
    if result.errorType == "timeout" then TimedOut
    else if result.hasExitCode then NonzeroExit
    else CommandFailed
  }

  datatype Recovery = Recovery(
    parseErrors: nat,
    streak: nat,
    pending: Option<PendingKind>,
    required: bool,
    evidence: Evidence,
    phase: Phase,
    lastSuccess: Option<nat>,
    lastAttempt: Option<nat>,
    lastFailure: Option<nat>,
    lastMutation: Option<nat>,
    failures: nat,
    active: Option<ValidationIssue>,
    resolved: Option<ValidationIssue>,
    budgets: Budgets,
    lastRevision: Option<nat>,
    lastDeferral: Option<nat>,
    failure: Option<Failure>,
    failureTurn: Option<nat>,
    corrective: bool,
    postMutation: bool,
    gateReason: Option<BlockReason>)

  function Initial(required: bool, budgets: Budgets): Recovery {
    Recovery(0, 0, None, required, NotRequired, Idle, None, None, None, None, 0, None, None, budgets, None, None, None,
             None, false, false, None)
  }

  predicate RetryPending(r: Recovery) { r.pending == Some(ParseErrorPending) || r.pending == Some(ToolFailurePending) }

  function ClearPending(r: Recovery): Recovery { r.(pending := None) }

  function EvidenceOf(r: Recovery): Evidence {
    if !r.required then NotRequired
    else if r.lastSuccess.None? then Missing
    else if r.lastMutation.Some? && r.lastMutation.value > r.lastSuccess.value then Stale
    else Validated
  }

  function RefreshEvidence(r: Recovery): Recovery {
    r.(evidence := EvidenceOf(r),
       postMutation := EvidenceOf(r) == Stale || (EvidenceOf(r) == Missing && r.lastMutation.Some?))
  }

  function PhaseOf(r: Recovery): Phase {
    if r.pending == Some(ValidationFailurePending) then FailedValidation
    else if r.lastMutation.None? && r.lastSuccess.None? then Idle
    else if r.lastSuccess.Some? && (r.lastMutation.None? || r.lastSuccess.value >= r.lastMutation.value)
    then ValidatedPhase
    else MutatedUnvalidated
  }

  function RefreshPhase(r: Recovery): Recovery { r.(phase := PhaseOf(r)) }

  function OpenOrUpdate(r: Recovery, kind: IssueKind, turn: nat, attempt: bool): Recovery {
    if r.active.None? || r.active.value.kind != kind then
      r.(active := Some(ValidationIssue(kind, turn, turn, if attempt then 1 else 0, 0, 0)))
    else
      var issue := r.active.value;
      r.(active := Some(issue.(lastObserved := turn,
                               validations := issue.validations + (if attempt then 1 else 0))))
  }

  function Resolve(r: Recovery, turn: nat): Recovery {
    if r.active.None? then r
    else r.(resolved := Some(r.active.value.(lastObserved := turn)), active := None)
  }

  function NoteRevision(r: Recovery, turn: nat): Recovery {
    if r.active.None? || r.lastRevision == Some(turn) then r
    else r.(active := Some(r.active.value.(revisions := r.active.value.revisions + 1, lastObserved := turn)),
            lastRevision := Some(turn))
  }

  function NoteDeferral(r: Recovery, turn: nat): Recovery {
    if r.active.None? || r.lastDeferral == Some(turn) then r
    else r.(active := Some(r.active.value.(deferrals := r.active.value.deferrals + 1, lastObserved := turn)),
            lastDeferral := Some(turn))
  }

  function NoteFailure(r: Recovery, kind: Failure, turn: nat): Recovery {
    r.(failure := Some(kind), failureTurn := Some(turn), corrective := false)
  }

  function NoteCorrective(r: Recovery, turn: nat): Recovery {
    if r.failure.Some? && (r.failureTurn.None? || turn >= r.failureTurn.value) then r.(corrective := true) else r
  }

  function ClearFailure(r: Recovery): Recovery { r.(failure := None, failureTurn := None, corrective := false) }

  function RecordParse(r: Recovery, errors: nat, hasCalls: bool, turn: nat): Recovery {
    var counted := r.(parseErrors := r.parseErrors + errors);
    if errors > 0 && !hasCalls then
      NoteFailure(counted.(streak := r.streak + 1), ParseFailure, turn).(pending := Some(ParseErrorPending))
    else
      var reset := counted.(streak := 0);
      if errors == 0 && r.pending == Some(ParseErrorPending) then ClearPending(reset) else reset
  }

  /** What any mutation call does, whether or not it succeeds. */
  function RecordMutation(r: Recovery, turn: nat): Recovery {
    NoteCorrective(NoteRevision(r, turn).(lastMutation := Some(turn), postMutation := r.required), turn)
  }

  function RecordValidated(r: Recovery, turn: nat): Recovery {
    var attempted := if r.active.None? then r else
      r.(active := Some(r.active.value.(validations := r.active.value.validations + 1, lastObserved := turn)));
    ClearFailure(Resolve(attempted.(lastAttempt := Some(turn), lastSuccess := Some(turn), postMutation := false), turn))
  }

  function RecordSuccess(r: Recovery, call: Call, turn: nat): Recovery {
    var noted :=
      if IsValidation(call) then RecordValidated(r, turn)
      else if RetryPending(r) then ClearFailure(r)
      else NoteCorrective(r, turn);
    var latest := RefreshPhase(RefreshEvidence(noted));
    if IsValidation(call) || RetryPending(latest) then RefreshPhase(ClearPending(latest)) else latest
  }

  function FailedValidationNoted(r: Recovery, result: ToolResult, turn: nat): Recovery {
    var attempted := r.(lastAttempt := Some(turn), lastFailure := Some(turn), failures := r.failures + 1);
    OpenOrUpdate(NoteFailure(attempted, ValidationFailed, turn).(pending := Some(ValidationFailurePending)),
                 IssueKindOf(result), turn, true)
  }

  function RecordFailure(r: Recovery, call: Call, result: ToolResult, turn: nat): Recovery {
    var noted :=
      if IsValidation(call) then FailedValidationNoted(r, result, turn)
      else NoteFailure(r, ToolFailed, turn).(pending := Some(ToolFailurePending));
    RefreshPhase(RefreshEvidence(noted))
  }

  function RecordTool(r: Recovery, call: Call, result: ToolResult, turn: nat): Recovery {
    if IsFinish(call) then r else
    var seen := if IsMutation(call) then RecordMutation(r, turn) else r;
    if Succeeded(result) then RecordSuccess(seen, call, turn)
    else if IsRecoverable(call, result) then RecordFailure(seen, call, result, turn)
    else seen
  }

  function EnsureIssue(r: Recovery, turn: nat): Recovery {
    if r.active.Some? then r.(active := Some(r.active.value.(lastObserved := turn))) else
    var latest := RefreshEvidence(r);
    match latest.evidence
    case NotRequired | Validated => latest
    case Stale => OpenOrUpdate(latest, StaleEvidence, turn, false)
    case Missing => OpenOrUpdate(latest, FinishWithoutValidation, turn, false)
  }

  datatype Budget = ValidationBudget | RevisionBudget | DeferralBudget

  function Exhausted(r: Recovery): Option<Budget> {
    if r.active.None? then None
    else if r.active.value.validations > r.budgets.validations then Some(ValidationBudget)
    else if r.active.value.revisions > r.budgets.revisions then Some(RevisionBudget)
    else if r.active.value.deferrals > r.budgets.deferrals then Some(DeferralBudget)
    else None
  }

  function GateOf(r: Recovery): Gate {
    if r.pending.Some? then BlockedPendingIssue
    else if EvidenceOf(r) == Missing || EvidenceOf(r) == Stale then BlockedMissingValidation
    else Open
  }

  /** Reading the gate refreshes the evidence unless an issue is pending. */
  function AfterGate(r: Recovery): Recovery { if r.pending.Some? then r else RefreshEvidence(r) }

  function StepOf(r: Recovery): Step {
    if RetryPending(r) then RetryParseOrTool
    else if !r.required && GateOf(r) == Open then FinishAllowed
    else
      match PhaseOf(r)
      case MutatedUnvalidated => Validate
      case FailedValidation =>
        if r.lastRevision.None? || r.lastFailure.None? || r.lastRevision.value <= r.lastFailure.value
        then Revise else Revalidate
      case _ => if GateOf(r) == Open then FinishAllowed else NoStep
  }

  function AfterStep(r: Recovery): Recovery {
    if RetryPending(r) then r else
    var gated := if r.required then r else AfterGate(r);
    if !r.required && GateOf(r) == Open then gated else
    var phased := RefreshPhase(gated);
    if phased.phase == MutatedUnvalidated || phased.phase == FailedValidation then phased else AfterGate(phased)
  }

  /** What the session tells the stop policy about progress. */
  datatype Policy = Policy(progress: bool, gateApplies: bool, recent: Option<Failure>)

  /** Which test of the completion assessment decides. */
  datatype Branch =
    | PendingValidation
    | PendingRetry
    | PendingMutation
    | Uncorrected
    | NoEvidence
    | LateStale
    | NoProgress
    | Unblocked

  function BranchOf(r: Recovery, policy: Policy): Branch {
    var latest := RefreshEvidence(r);
    var failing := if r.failure.Some? then r.failure else policy.recent;
    if r.pending == Some(ValidationFailurePending) then PendingValidation
    else if RetryPending(r) then PendingRetry
    else if latest.postMutation && (latest.evidence == Missing || latest.evidence == Stale) then PendingMutation
    else if failing.Some? && !r.corrective && latest.evidence == Validated then Uncorrected
    else if latest.evidence == Missing then NoEvidence
    else if latest.evidence == Stale then LateStale
    else if policy.gateApplies && !policy.progress then NoProgress
    else Unblocked
  }

  function ReasonOf(branch: Branch): Option<BlockReason> {
    match branch
    case PendingValidation => Some(UnresolvedValidationFailure)
    case PendingRetry => Some(RecentRecoverableFailure)
    case PendingMutation | LateStale => Some(PostMutationValidationPending)
    case Uncorrected => Some(NoCorrectiveProgress)
    case NoEvidence => Some(MissingValidationEvidence)
    case NoProgress => Some(NoMeaningfulProgress)
    case Unblocked => None
  }

  function FamilyOf(reason: Option<BlockReason>): Family {
    match reason
    case None => NoFamily
    case Some(UnresolvedValidationFailure) | Some(RecentRecoverableFailure) => PendingIssueFamily
    case Some(PostMutationValidationPending) | Some(MissingValidationEvidence) => EvidenceFamily
    case Some(NoCorrectiveProgress) | Some(NoMeaningfulProgress) => ProgressFamily
  }

  datatype Assessment = Assessment(blocked: bool, family: Family, reason: Option<BlockReason>, next: Option<Step>)

  function Assess(r: Recovery, policy: Policy): Assessment {
    var branch := BranchOf(r, policy);
    var reason := ReasonOf(branch);
    Assessment(reason.Some?, FamilyOf(reason), reason,
               match branch
               case PendingValidation | PendingRetry | Uncorrected => Some(StepOf(RefreshEvidence(r)))
               case PendingMutation | NoEvidence | LateStale => Some(Validate)
               case NoProgress => Some(RetryParseOrTool)
               case Unblocked => None)
  }

  function AfterAssess(r: Recovery, policy: Policy): Recovery {
    var branch := BranchOf(r, policy);
    var noted := RefreshEvidence(r).(gateReason := ReasonOf(branch));
    match branch
    case PendingValidation | PendingRetry | Uncorrected => AfterStep(noted)
    case _ => noted
  }

  /** The mutable recovery state of a run. */
  class RuntimeRecoveryState {
    var parseErrors: nat
    var streak: nat
    var pending: Option<PendingKind>
    const required: bool
    var evidence: Evidence
    var phase: Phase
    var lastSuccess: Option<nat>
    var lastAttempt: Option<nat>
    var lastFailure: Option<nat>
    var lastMutation: Option<nat>
    var failures: nat
    var active: Option<ValidationIssue>
    var resolved: Option<ValidationIssue>
    const budgets: Budgets
    var lastRevision: Option<nat>
    var lastDeferral: Option<nat>
    var failure: Option<Failure>
    var failureTurn: Option<nat>
    var corrective: bool
    var postMutation: bool
    var gateReason: Option<BlockReason>

    function Contents(): Recovery
      reads this
    {
      Recovery(parseErrors, streak, pending, required, evidence, phase, lastSuccess, lastAttempt, lastFailure,
               lastMutation, failures, active, resolved, budgets, lastRevision, lastDeferral, failure, failureTurn,
               corrective, postMutation, gateReason)
    }

    constructor (required: bool, budgets: Budgets)
      ensures Contents() == Initial(required, budgets)
    {
      this.required, this.budgets := required, budgets;
      parseErrors, streak, pending, evidence, phase := 0, 0, None, NotRequired, Idle;
      lastSuccess, lastAttempt, lastFailure, lastMutation, failures := None, None, None, None, 0;
      active, resolved, lastRevision, lastDeferral := None, None, None, None;
      failure, failureTurn, corrective, postMutation, gateReason := None, None, false, false, None;
    }

    method RefreshCompletionEvidence() returns (status: Evidence)
      modifies this
      ensures Contents() == RefreshEvidence(old(Contents())) && status == EvidenceOf(old(Contents()))
    {
      if !required {
        evidence, postMutation := NotRequired, false;
      } else if lastSuccess.None? {
        evidence, postMutation := Missing, lastMutation.Some?;
      } else if lastMutation.Some? && lastMutation.value > lastSuccess.value {
        evidence, postMutation := Stale, true;
      } else {
        evidence, postMutation := Validated, false;
      }
      status := evidence;
    }

    method RefreshValidationPhase() returns (result: Phase)
      modifies this
      ensures Contents() == RefreshPhase(old(Contents())) && result == PhaseOf(old(Contents()))
    {
      if pending == Some(ValidationFailurePending) {
        phase := FailedValidation;
      } else if lastMutation.None? && lastSuccess.None? {
        phase := Idle;
      } else if lastSuccess.Some? && (lastMutation.None? || lastSuccess.value >= lastMutation.value) {
        phase := ValidatedPhase;
      } else {
        phase := MutatedUnvalidated;
      }
      result := phase;
    }

    method OpenOrUpdateValidationIssue(kind: IssueKind, turn: nat, attempt: bool)
      modifies this
      ensures Contents() == OpenOrUpdate(old(Contents()), kind, turn, attempt)
    {
      if active.None? || active.value.kind != kind {
        active := Some(ValidationIssue(kind, turn, turn, if attempt then 1 else 0, 0, 0));
        return;
      }
      var issue := active.value.(lastObserved := turn);
      if attempt {
        issue := issue.(validations := issue.validations + 1);
      }
      active := Some(issue);
    }

    method ResolveActiveValidationIssue(turn: nat)
      modifies this
      ensures Contents() == Resolve(old(Contents()), turn)
    {
      if active.Some? {
        resolved := Some(active.value.(lastObserved := turn));
        active := None;
      }
    }

    method NoteRevisionAttempt(turn: nat)
      modifies this
      ensures Contents() == NoteRevision(old(Contents()), turn)
    {
      if active.None? || lastRevision == Some(turn) {
        return;
      }
      active := Some(active.value.(revisions := active.value.revisions + 1, lastObserved := turn));
      lastRevision := Some(turn);
    }

    method NoteFinishDeferral(turn: nat)
      modifies this
      ensures Contents() == NoteDeferral(old(Contents()), turn)
    {
      if active.None? || lastDeferral == Some(turn) {
        return;
      }
      active := Some(active.value.(deferrals := active.value.deferrals + 1, lastObserved := turn));
      lastDeferral := Some(turn);
    }

    method NoteActiveFailure(kind: Failure, turn: nat)
      modifies this
      ensures Contents() == NoteFailure(old(Contents()), kind, turn)
    {
      failure, failureTurn, corrective := Some(kind), Some(turn), false;
    }

    method NoteCorrectiveProgress(turn: nat)
      modifies this
      ensures Contents() == NoteCorrective(old(Contents()), turn)
    {
      if failure.None? {
        return;
      }
      if failureTurn.None? || turn >= failureTurn.value {
        corrective := true;
      }
    }

    method ClearActiveFailure()
      modifies this
      ensures Contents() == ClearFailure(old(Contents()))
    {
      failure, failureTurn, corrective := None, None, false;
    }

    method CompletionGateStatus() returns (gate: Gate)
      modifies this
      ensures Contents() == AfterGate(old(Contents())) && gate == GateOf(old(Contents()))
    {
      if pending.Some? {
        return BlockedPendingIssue;
      }
      var status := RefreshCompletionEvidence();
      gate := if status == Missing || status == Stale then BlockedMissingValidation else Open;
    }

    method ExpectedNextStep() returns (step: Step)
      modifies this
      ensures Contents() == AfterStep(old(Contents())) && step == StepOf(old(Contents()))
    {
      if pending == Some(ParseErrorPending) || pending == Some(ToolFailurePending) {
        return RetryParseOrTool;
      }
      if !required {
        var gate := CompletionGateStatus();
        if gate == Open {
          return FinishAllowed;
        }
      }
      var current := RefreshValidationPhase();
      if current == MutatedUnvalidated {
        return Validate;
      }
      if current == FailedValidation {
        if lastRevision.None? || lastFailure.None? || lastRevision.value <= lastFailure.value {
          return Revise;
        }
        return Revalidate;
      }
      var gate := CompletionGateStatus();
      step := if gate == Open then FinishAllowed else NoStep;
    }

    method RecordParseResult(errors: nat, hasCalls: bool, turn: nat) returns (recoverable: bool)
      modifies this
      ensures Contents() == RecordParse(old(Contents()), errors, hasCalls, turn)
      ensures recoverable <==> errors > 0 && !hasCalls && Contents().streak < MAX_PARSE_ERROR_TURNS
    {
      parseErrors := parseErrors + errors;
      if errors > 0 && !hasCalls {
        streak := streak + 1;
        NoteActiveFailure(ParseFailure, turn);
        pending := Some(ParseErrorPending);
        return streak < MAX_PARSE_ERROR_TURNS;
      }
      streak := 0;
      if errors == 0 && pending == Some(ParseErrorPending) {
        pending := None;
      }
      recoverable := false;
    }

    method ClearPendingIssue()
      modifies this
      ensures Contents() == ClearPending(old(Contents()))
    {
      pending := None;
    }

    method SetPendingIssue(kind: PendingKind)
      modifies this
      ensures Contents() == old(Contents()).(pending := Some(kind))
    {
      pending := Some(kind);
    }

    method RecordValidationSuccess(turn: nat)
      modifies this
      ensures Contents() == RecordValidated(old(Contents()), turn)
    {
      if active.Some? {
        active := Some(active.value.(validations := active.value.validations + 1, lastObserved := turn));
      }
      lastAttempt, lastSuccess, postMutation := Some(turn), Some(turn), false;
      ResolveActiveValidationIssue(turn);
      ClearActiveFailure();
    }

    method RecordToolSuccess(call: Call, turn: nat)
      modifies this
      ensures Contents() == RecordSuccess(old(Contents()), call, turn)
    {
      hide RecordValidated, ClearFailure, NoteCorrective, RefreshEvidence, RefreshPhase, ClearPending;
      if IsValidation(call) {
        RecordValidationSuccess(turn);
      } else if pending == Some(ParseErrorPending) || pending == Some(ToolFailurePending) {
        ClearActiveFailure();
      } else {
        NoteCorrectiveProgress(turn);
      }
      var status := RefreshCompletionEvidence();
      var current := RefreshValidationPhase();
      if IsValidation(call) || pending == Some(ParseErrorPending) || pending == Some(ToolFailurePending) {
        ClearPendingIssue();
        current := RefreshValidationPhase();
      }
    }

    method RecordValidationFailure(result: ToolResult, turn: nat)
      modifies this
      ensures Contents() == FailedValidationNoted(old(Contents()), result, turn)
    {
      hide NoteFailure, OpenOrUpdate;
      lastAttempt, lastFailure, failures := Some(turn), Some(turn), failures + 1;
      NoteActiveFailure(ValidationFailed, turn);
      SetPendingIssue(ValidationFailurePending);
      OpenOrUpdateValidationIssue(IssueKindOf(result), turn, true);
    }

    method RecordToolFailure(call: Call, result: ToolResult, turn: nat)
      modifies this
      ensures Contents() == RecordFailure(old(Contents()), call, result, turn)
    {
      hide FailedValidationNoted, RefreshEvidence, RefreshPhase, NoteFailure;
      if IsValidation(call) {
        RecordValidationFailure(result, turn);
      } else {
        NoteActiveFailure(ToolFailed, turn);
        SetPendingIssue(ToolFailurePending);
      }
      var status := RefreshCompletionEvidence();
      var current := RefreshValidationPhase();
    }

    method RecordToolResult(call: Call, result: ToolResult, turn: nat) returns (recoverable: bool)
      modifies this
      ensures Contents() == RecordTool(old(Contents()), call, result, turn)
      ensures recoverable <==> !IsFinish(call) && IsRecoverable(call, result)
    {
      hide RecordSuccess, RecordFailure, IsRecoverable;
      if IsFinish(call) {
        return false;
      }
      if IsMutation(call) {
        NoteRevisionAttempt(turn);
        lastMutation, postMutation := Some(turn), required;
        NoteCorrectiveProgress(turn);
      }
      recoverable := IsRecoverable(call, result);
      if Succeeded(result) {
        RecordToolSuccess(call, turn);
        SuccessIsNotRecoverable(call, result);
      } else if recoverable {
        RecordToolFailure(call, result, turn);
      }
    }

    method EnsureValidationIssue(turn: nat)
      modifies this
      ensures Contents() == EnsureIssue(old(Contents()), turn)
    {
      if active.Some? {
        active := Some(active.value.(lastObserved := turn));
        return;
      }
      var status := RefreshCompletionEvidence();
      if status == NotRequired || status == Validated {
        return;
      }
      if status == Stale {
        OpenOrUpdateValidationIssue(StaleEvidence, turn, false);
        return;
      }
      OpenOrUpdateValidationIssue(FinishWithoutValidation, turn, false);
    }

    /** Blocks completion for `reason` and reports the step the policy expects next. */
    method BlockWithStep(reason: BlockReason) returns (assessment: Assessment)
      modifies this
      ensures Contents() == AfterStep(old(Contents()).(gateReason := Some(reason)))
      ensures assessment == Assessment(true, FamilyOf(Some(reason)), Some(reason), Some(StepOf(old(Contents()))))
    {
      hide StepOf, AfterStep;
      StepIgnoresReason(Contents(), Some(reason));
      gateReason := Some(reason);
      var step := ExpectedNextStep();
      assessment := Assessment(true, FamilyOf(Some(reason)), Some(reason), Some(step));
    }

    method BlockAt(reason: BlockReason, step: Step) returns (assessment: Assessment)
      modifies this
      ensures Contents() == old(Contents()).(gateReason := Some(reason))
      ensures assessment == Assessment(true, FamilyOf(Some(reason)), Some(reason), Some(step))
    {
      gateReason := Some(reason);
      assessment := Assessment(true, FamilyOf(Some(reason)), Some(reason), Some(step));
    }

    method AssessCompletionBlock(policy: Policy) returns (assessment: Assessment)
      modifies this
      ensures Contents() == AfterAssess(old(Contents()), policy) && assessment == Assess(old(Contents()), policy)
    {
      hide StepOf, AfterStep;
      var status := RefreshCompletionEvidence();
      var failing := if failure.Some? then failure else policy.recent;
      if pending == Some(ValidationFailurePending) {
        assessment := BlockWithStep(UnresolvedValidationFailure);
      } else if pending == Some(ParseErrorPending) || pending == Some(ToolFailurePending) {
        assessment := BlockWithStep(RecentRecoverableFailure);
      } else if postMutation && (status == Missing || status == Stale) {
        assessment := BlockAt(PostMutationValidationPending, Validate);
      } else if failing.Some? && !corrective && status == Validated {
        assessment := BlockWithStep(NoCorrectiveProgress);
      } else if status == Missing {
        assessment := BlockAt(MissingValidationEvidence, Validate);
      } else if status == Stale {
        assert false; // stale evidence always leaves a mutation to validate, which was tested above
      } else if policy.gateApplies && !policy.progress {
        assessment := BlockAt(NoMeaningfulProgress, RetryParseOrTool);
      } else {
        gateReason := None;
        assessment := Assessment(false, NoFamily, None, None);
      }
    }
  }

  lemma SuccessIsNotRecoverable(call: Call, result: ToolResult)
    requires Succeeded(result)
    ensures !IsRecoverable(call, result)
  {
  }

  lemma StepIgnoresReason(r: Recovery, reason: Option<BlockReason>)
    ensures StepOf(r.(gateReason := reason)) == StepOf(r)
  {
  }
}
