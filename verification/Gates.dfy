/** The completion gate is computed in several places; these are the ways they agree. */
module Gates {
  import opened Prelude
  import opened Recovery
  import opened Stopping

  /** The expected next step allows finishing exactly when the completion gate is open. */
  lemma StepMatchesGate(r: Recovery)
    ensures StepOf(r) == FinishAllowed <==> GateOf(r) == Open
  {
  }

  /** The gate, in terms of what is pending and when the task was last validated and changed. */
  lemma GateExactly(r: Recovery)
    ensures GateOf(r) == BlockedPendingIssue <==> r.pending.Some?
    ensures GateOf(r) == Open <==>
      && r.pending.None?
      && (r.required ==> r.lastSuccess.Some? && (r.lastMutation.None? || r.lastMutation.value <= r.lastSuccess.value))
  {
  }

  /** Which failing results are recovered from, and which kind of issue a failing validation opens. */
  lemma FailuresExactly(call: Call, result: ToolResult)
    ensures IsRecoverable(call, result) <==>
      && (result.ok ==> result.isError)
      && result.errorType !in {"command_policy", "protected_path", "missing_context", "canonical_tool_lookup",
                               "missing_canonical_tool"}
      && (|| (call.name == "python_run" && result.hasExitCode)
          || result.errorType in {"unknown_tool", "schema_validation", "argument_mapping", "argument_mapping_unexpected",
                                  "execution", "timeout", "invalid_query", "empty_diff", "invalid_line_range",
                                  "patch_apply", "patch_unexpected", "invalid_module", "invalid_target",
                                  "already_exists", "not_found"}
          || result.stage in {"resolve_exposed_call", "validate_exposed_arguments", "map_arguments"})
    ensures IssueKindOf(result) == TimedOut <==> result.errorType == "timeout"
    ensures IssueKindOf(result) == NonzeroExit <==> result.errorType != "timeout" && result.hasExitCode
    ensures IssueKindOf(result) == CommandFailed <==> result.errorType != "timeout" && !result.hasExitCode
    ensures IsMutation(call) <==> call.name == "write_file" || call.name == "create_file" || call.name == "apply_patch"
  {
  }

  /** What each expected step means, in terms of what is pending and what has been done. */
  lemma StepExactly(r: Recovery)
    ensures StepOf(r) == RetryParseOrTool <==>
      r.pending == Some(ParseErrorPending) || r.pending == Some(ToolFailurePending)
    ensures StepOf(r) == Revise || StepOf(r) == Revalidate <==> r.pending == Some(ValidationFailurePending)
    ensures r.pending == Some(ValidationFailurePending) ==>
      (StepOf(r) == Revalidate <==>
         r.lastRevision.Some? && r.lastFailure.Some? && r.lastRevision.value > r.lastFailure.value)
    ensures StepOf(r) == Validate <==> r.pending.None? && GateOf(r) != Open && r.lastMutation.Some?
    ensures StepOf(r) == NoStep <==> r.pending.None? && GateOf(r) != Open && r.lastMutation.None?
    ensures StepOf(r) == FinishAllowed <==> GateOf(r) == Open
  {
    assert r.pending.Some? ==> RetryPending(r) || r.pending == Some(ValidationFailurePending) by {
      PendingKinds(r);
    }
  }

  lemma PendingKinds(r: Recovery)
    ensures r.pending.None? || r.pending == Some(ParseErrorPending) || r.pending == Some(ToolFailurePending)
            || r.pending == Some(ValidationFailurePending)
  {
    if r.pending.Some? {
      match r.pending.value
      case ParseErrorPending =>
      case ToolFailurePending =>
      case ValidationFailurePending =>
    }
  }

  /** Why an attempt to complete is blocked, and what is asked for instead. */
  lemma BlocksExactly(r: Recovery, policy: Policy)
    ensures var a, open := Assess(r, policy), GateOf(r) == Open;
      var uncorrected := (r.failure.Some? || policy.recent.Some?) && !r.corrective && EvidenceOf(r) == Validated;
      && (a.reason == Some(UnresolvedValidationFailure) <==> r.pending == Some(ValidationFailurePending))
      && (a.reason == Some(RecentRecoverableFailure) <==>
            r.pending == Some(ParseErrorPending) || r.pending == Some(ToolFailurePending))
      && (a.reason == Some(PostMutationValidationPending) <==>
            r.pending.None? && r.required && r.lastMutation.Some?
            && (r.lastSuccess.None? || r.lastMutation.value > r.lastSuccess.value))
      && (a.reason == Some(MissingValidationEvidence) <==>
            r.pending.None? && r.required && r.lastMutation.None? && r.lastSuccess.None?)
      && (a.reason == Some(NoCorrectiveProgress) <==> open && uncorrected)
      && (a.reason == Some(NoMeaningfulProgress) <==>
            open && !uncorrected && policy.gateApplies && !policy.progress)
      && a.next == (match a.reason
                    case None => None
                    case Some(UnresolvedValidationFailure) | Some(RecentRecoverableFailure)
                       | Some(NoCorrectiveProgress) => Some(StepOf(r))
                    case Some(PostMutationValidationPending) | Some(MissingValidationEvidence) => Some(Validate)
                    case Some(NoMeaningfulProgress) => Some(RetryParseOrTool))
      && AfterAssess(r, policy).gateReason == a.reason
  {
    hide StepOf, AfterStep, PhaseOf;
    PendingKinds(r);
    LateStaleUnreachable(r, policy);
    StepOfRefreshed(r);
    StepKeepsReason(RefreshEvidence(r).(gateReason := ReasonOf(BranchOf(r, policy))));
  }

  lemma StepOfRefreshed(r: Recovery)
    ensures StepOf(RefreshEvidence(r)) == StepOf(r)
  {
  }

  lemma StepKeepsReason(r: Recovery)
    ensures AfterStep(r).gateReason == r.gateReason
  {
  }

  /** The code of a deferral tells the family of the block. */
  lemma CodeTellsFamily(reason: BlockReason, finishing: bool)
    ensures DeferralCode(Some(reason), finishing)
         == if FamilyOf(Some(reason)) == EvidenceFamily then DeferredMissingEvidence(finishing)
            else DeferredPendingIssue(finishing)
  {
  }

  /** An assessment blocks exactly when the gate is closed, or a failure has not been corrected although the
      evidence is in order, or the session shows no meaningful progress. So an unblocked assessment means
      an open gate, and a block despite an open gate is always a progress gate. */
  lemma AssessmentMatchesGate(r: Recovery, policy: Policy)
    ensures var assessment := Assess(r, policy);
      && (assessment.blocked <==>
            || GateOf(r) != Open
            || ((r.failure.Some? || policy.recent.Some?) && !r.corrective && EvidenceOf(r) == Validated)
            || (policy.gateApplies && !policy.progress))
      && (assessment.family == ProgressFamily <==> assessment.blocked && GateOf(r) == Open)
      && (assessment.family == PendingIssueFamily <==> GateOf(r) == BlockedPendingIssue)
      && (assessment.family == EvidenceFamily <==> GateOf(r) == BlockedMissingValidation)
  {
    LateStaleUnreachable(r, policy);
    if r.pending.Some? {
      match r.pending.value {
        case ParseErrorPending =>
        case ToolFailurePending =>
        case ValidationFailurePending =>
      }
    } else {
      assert !RetryPending(r);
    }
  }

  /** The second test for stale evidence can never be reached. */
  lemma LateStaleUnreachable(r: Recovery, policy: Policy)
    ensures BranchOf(r, policy) != LateStale
  {
  }

  /** With no validation failure pending, the phase reads validated exactly when required evidence is. */
  lemma PhaseMatchesEvidence(r: Recovery)
    requires r.required && r.pending != Some(ValidationFailurePending)
    ensures PhaseOf(r) == ValidatedPhase <==> EvidenceOf(r) == Validated
    ensures PhaseOf(r) == Idle ==> EvidenceOf(r) == Missing
  {
  }

  /** `b` is `a` up to what reading the gates may refresh. */
  predicate SameFacts(a: Recovery, b: Recovery) {
    b == a.(evidence := b.evidence, phase := b.phase, postMutation := b.postMutation, gateReason := b.gateReason)
  }

  /** Reading never changes what the gates, the step or an assessment say. */
  lemma ReadingsAgree(a: Recovery, b: Recovery, policy: Policy)
    requires SameFacts(a, b)
    ensures GateOf(a) == GateOf(b) && EvidenceOf(a) == EvidenceOf(b) && PhaseOf(a) == PhaseOf(b)
    ensures StepOf(a) == StepOf(b)
    ensures Assess(a, policy) == Assess(b, policy)
    ensures Exhausted(a) == Exhausted(b)
  {
    hide Exhausted;
    assert RefreshEvidence(a).evidence == RefreshEvidence(b).evidence;
    assert BranchOf(a, policy) == BranchOf(b, policy);
    assert StepOf(RefreshEvidence(a)) == StepOf(a) && StepOf(RefreshEvidence(b)) == StepOf(b);
    SameExhausted(a, b);
  }

  lemma SameExhausted(a: Recovery, b: Recovery)
    requires SameFacts(a, b)
    ensures Exhausted(a) == Exhausted(b)
  {
  }

  lemma StepKeepsFacts(r: Recovery)
    ensures SameFacts(r, AfterStep(r)) && SameFacts(r, AfterGate(r)) && SameFacts(r, Refreshed(r))
  {
  }

  /** Everything that only reads the gates keeps the facts. */
  lemma ReadingKeepsFacts(r: Recovery, policy: Policy)
    ensures SameFacts(r, Refreshed(r)) && SameFacts(r, AfterAssess(r, policy))
    ensures SameFacts(r, AfterBlockCheck(r, policy))
  {
    hide AfterStep, AfterGate, BranchOf;
    var noted := RefreshEvidence(r).(gateReason := ReasonOf(BranchOf(r, policy)));
    var assessed := AfterAssess(r, policy);
    StepKeepsFacts(r);
    StepKeepsFacts(noted);
    StepKeepsFacts(assessed);
    StepKeepsFacts(AfterStep(assessed));
  }

  lemma ReportKeepsFacts(r: Recovery, stop: bool, reason: Option<StopReason>, code: Code, block: Option<BlockReason>,
                         next: Option<Step>)
    ensures SameFacts(r, Reported(r, stop, reason, code, block, next).state)
    ensures var d := Reported(r, stop, reason, code, block, next).decision;
      d.stop == stop && d.reason == reason && d.code == code && d.block == block && d.gate == GateOf(r)
  {
    hide StepOf, AfterStep, AfterGate, GateOf;
    var stepped := if next.Some? then r else AfterStep(r);
    StepKeepsFacts(r);
    StepKeepsFacts(stepped);
    SameGate(r, stepped);
  }

  lemma SameGate(a: Recovery, b: Recovery)
    requires SameFacts(a, b)
    ensures GateOf(a) == GateOf(b)
  {
  }
}
