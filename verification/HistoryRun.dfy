/** Whole runs of the request history: any number of turns, any policy, any number of compactions. */
module HistoryRun {
  import opened Prelude
  import opened Messages
  import opened Planning
  import opened Compaction
  import opened ContextPlans
  import opened RetainedHistory
  import opened History
  import opened HistoryManager
  import opened RequestContext
  import opened HistoryView
  import opened HistoryInvariant

  datatype Config = Config(policy: PolicyMode, limits: Limits)

  /** What one turn brings: the messages the previous turn added to the trajectory, the session as the
      planner sees it, and the backend's reply should a compaction be requested. */
  datatype TurnInput = TurnInput(batch: seq<Message>, session: Session, reply: Reply)

  /** The observable course of a run. `cuts` collects, per replacement, the last run turn it covers. */
  datatype Run = Run(
    trajectory: seq<Message>,
    state: State,
    requests: seq<RequestEntry>,
    sent: seq<seq<Message>>,
    plans: seq<Plan>,
    cuts: seq<nat>)

  ghost predicate Prompts(system: Message, task: Message) { system.role.System? && task.role.User? }

  function Begin(system: Message, task: Message): Run {
    Run([system, task], Synced(EMPTY, [system, task], 0), [], [], [], [])
  }

  function SyncedForTurn(run: Run, input: TurnInput): State {
    Synced(run.state, run.trajectory + input.batch, |run.requests|)
  }

  function PlanOfTurn(cfg: Config, run: Run, input: TurnInput): Plan {
    FinalPlan(MessagesOf(SyncedForTurn(run, input).request), cfg.policy, cfg.limits, input.session,
              |run.requests| + 1, input.reply)
  }

  function Step(cfg: Config, run: Run, input: TurnInput): Run {
    var turn := |run.requests| + 1;
    var synced, plan := SyncedForTurn(run, input), PlanOfTurn(cfg, run, input);
    var snapshot := SnapshotOf(synced, plan, turn);
    Run(run.trajectory + input.batch,
        Materialised(synced, plan, turn),
        run.requests + [EntryFor(turn, turn, snapshot)],
        run.sent + [MessagesOf(snapshot.selected)],
        run.plans + [plan],
        if Replaces(plan) then run.cuts + [LastCut(run.cuts) + |plan.metadata.compactedTurns|] else run.cuts)
  }

  function RunOf(cfg: Config, system: Message, task: Message, inputs: seq<TurnInput>): Run {
    if inputs == [] then Begin(system, task)
    else Step(cfg, RunOf(cfg, system, task, inputs[..|inputs| - 1]), inputs[|inputs| - 1])
  }

  /** The trajectory grows as the runner makes it grow: nothing before turn 1, then one turn at a time. */
  ghost predicate WellFormed(inputs: seq<TurnInput>) {
    && (inputs != [] ==> inputs[0].batch == [])
    && forall k :: 1 <= k < |inputs| ==> TurnBatch(inputs[k].batch)
  }

  ghost predicate RunInvariant(run: Run) {
    && Invariant(run.state, run.trajectory, run.cuts)
    && |run.trajectory| >= 2 && Prompts(run.trajectory[0], run.trajectory[1])
    && |run.sent| == |run.requests| == |run.plans|
  }

  lemma BeginInvariant(system: Message, task: Message)
    requires Prompts(system, task)
    ensures RunInvariant(Begin(system, task))
  {
    var s := Synced(EMPTY, [system, task], 0);
    SyncedExtends(EMPTY, [system, task], 0);
    SyncKeepsSource(EMPTY, s, [], [system, task], 0);
    assert s.request == s.source by {
      assert s.source[0..] == s.source;
    }
    StartInvariant(s, [system, task]);
  }

  /** A trajectory without turns or records is its own request. */
  lemma StartInvariant(s: State, trajectory: seq<Message>)
    requires WellNumbered(s.log) && SourceBacked(s.source, trajectory, s.log)
    requires s.records == [] && s.request == s.source
    ensures Invariant(s, trajectory, [])
  {
    ViewWithoutRecords(s.source);
    assert SummariesOf(s.records) == [];
  }

  /** The replacement a plan of the current request carries is one the invariant can absorb. */
  lemma PlanTakesTurns(s: State, policy: PolicyMode, limits: Limits, session: Session, turn: nat, reply: Reply)
    ensures var plan := FinalPlan(MessagesOf(s.request), policy, limits, session, turn, reply);
      var k := |plan.metadata.compactedTurns|;
      && (Replaces(plan) <==> k > 0)
      && (Replaces(plan) ==> plan.summary.value.role == System && Takes(s, plan.artifact.value, k)
                             && (policy == DeterministicCompaction || policy == ModelBackedCompaction))
      && (!Replaces(plan) && policy != TailWindow ==> plan.selection.included == Range(|s.request|))
  {
    FinalPlanShape(MessagesOf(s.request), policy, limits, session, turn, reply);
  }

  lemma StepKeepsInvariant(cfg: Config, run: Run, input: TurnInput)
    requires RunInvariant(run) && (input.batch != [] ==> input.batch[0].role.Assistant?)
    ensures RunInvariant(Step(cfg, run, input))
    ensures Invariant(SyncedForTurn(run, input), run.trajectory + input.batch, run.cuts)
  {
    hide Invariant, Takes, FinalPlan, Materialised, SnapshotOf, EntryFor, Synced;
    var turn := |run.requests| + 1;
    var trajectory, s, plan := run.trajectory + input.batch, SyncedForTurn(run, input), PlanOfTurn(cfg, run, input);
    SyncKeepsInvariant(run.state, run.trajectory, input.batch, run.cuts, |run.requests|);
    PlanTakesTurns(s, cfg.policy, cfg.limits, input.session, turn, input.reply);
    MaterialisedKeepsInvariant(s, trajectory, run.cuts, plan, turn, |plan.metadata.compactedTurns|);
  }

  lemma MaterialisedKeepsInvariant(s: State, trajectory: seq<Message>, cuts: seq<nat>, plan: Plan, turn: nat, k: nat)
    requires Invariant(s, trajectory, cuts)
    requires Replaces(plan) ==> plan.summary.value.role == System && Takes(s, plan.artifact.value, k)
    ensures Invariant(Materialised(s, plan, turn), trajectory,
                      if Replaces(plan) then cuts + [LastCut(cuts) + k] else cuts)
  {
    hide Invariant;
    var after := AfterReplacement(s, plan, turn);
    var e := Entry(|after.log| + 1, turn, HistoryControl, None, ControlMeta(ContextSelectionPlan));
    if Replaces(plan) {
      ReplaceKeepsInvariant(s, trajectory, cuts, plan.artifact.value, plan.summary.value, turn, k);
      ControlKeepsInvariant(after, trajectory, cuts + [LastCut(cuts) + k], e);
    } else {
      ControlKeepsInvariant(after, trajectory, cuts, e);
    }
  }

  /** At every reachable state the request is the closed-form view of the trajectory. */
  lemma {:induction false} RunKeepsInvariant(cfg: Config, system: Message, task: Message, inputs: seq<TurnInput>)
    requires Prompts(system, task) && WellFormed(inputs)
    ensures RunInvariant(RunOf(cfg, system, task, inputs))
    ensures |RunOf(cfg, system, task, inputs).requests| == |inputs|
  {
    hide Step, Begin, RunInvariant;
    if inputs == [] {
      BeginInvariant(system, task);
      BeginEmpty(system, task);
    } else {
      var init := inputs[..|inputs| - 1];
      RunKeepsInvariant(cfg, system, task, init);
      StepKeepsInvariant(cfg, RunOf(cfg, system, task, init), inputs[|inputs| - 1]);
      StepLogsRequest(cfg, RunOf(cfg, system, task, init), inputs[|inputs| - 1]);
    }
  }

  lemma BeginEmpty(system: Message, task: Message)
    ensures var run := Begin(system, task);
      && run.requests == [] && run.sent == [] && run.cuts == [] && run.trajectory == [system, task]
      && run.state == Synced(EMPTY, [system, task], 0)
  {
  }

  lemma StepLogsRequest(cfg: Config, run: Run, input: TurnInput)
    ensures var next := Step(cfg, run, input);
      && |next.requests| == |run.requests| + 1 && next.trajectory == run.trajectory + input.batch
      && next.cuts == (if Replaces(PlanOfTurn(cfg, run, input))
                       then run.cuts + [LastCut(run.cuts) + |PlanOfTurn(cfg, run, input).metadata.compactedTurns|]
                       else run.cuts)
  {
    hide PlanOfTurn, SyncedForTurn, SnapshotOf, Materialised, EntryFor;
  }

  /** Only compaction policies ever replace history. */
  lemma {:induction false} NoReplacements(cfg: Config, system: Message, task: Message, inputs: seq<TurnInput>)
    requires cfg.policy == FullHistory || cfg.policy == TailWindow
    ensures RunOf(cfg, system, task, inputs).cuts == []
  {
    hide Step, Begin, Synced, FinalPlan, Takes;
    if inputs == [] {
      BeginEmpty(system, task);
    } else {
      var init := inputs[..|inputs| - 1];
      NoReplacements(cfg, system, task, init);
      var run := RunOf(cfg, system, task, init);
      PlanTakesTurns(SyncedForTurn(run, inputs[|init|]), cfg.policy, cfg.limits, inputs[|init|].session,
                     |run.requests| + 1, inputs[|init|].reply);
      StepLogsRequest(cfg, run, inputs[|init|]);
    }
  }

  /** One pass of the runner's loop up to the request: synchronise, plan, materialise, record. */
  method RunTurn(cfg: Config, manager: RuntimeHistoryManager, requestLog: RequestContextWriter,
                 trajectory: seq<Message>, input: TurnInput, ghost run: Run) returns (messages: seq<Message>)
    requires manager.Valid() && requestLog.Valid()
    requires manager.Contents() == run.state && requestLog.log == run.requests
    requires trajectory == run.trajectory + input.batch
    modifies manager, manager.writer, requestLog
    ensures manager.Valid() && requestLog.Valid()
    ensures manager.Contents() == Step(cfg, run, input).state
    ensures requestLog.log == Step(cfg, run, input).requests
    ensures Step(cfg, run, input).sent == run.sent + [messages]
  {
    hide PlanFor, AfterBackend, SnapshotOf, Materialised, EntryFor, Synced;
    var turn := |requestLog.log| + 1;
    manager.SyncSourceMessages(trajectory, turn - 1);
    var plan := manager.BuildContextPlan(cfg.policy, cfg.limits, input.session, turn);
    plan := AfterBackend(plan, cfg.policy, input.reply);
    var snapshot := manager.SnapshotFromPlan(plan, turn);
    var entry := requestLog.AppendSnapshot(turn, snapshot);
    messages := MessagesOf(snapshot.selected);
  }

  /** The runner's loop over turns, driving the manager and both writers. */
  method RunTurns(cfg: Config, system: Message, task: Message, inputs: seq<TurnInput>)
    returns (manager: RuntimeHistoryManager, requestLog: RequestContextWriter, sent: seq<seq<Message>>)
    ensures manager.Valid() && requestLog.Valid()
    ensures manager.Contents() == RunOf(cfg, system, task, inputs).state
    ensures requestLog.log == RunOf(cfg, system, task, inputs).requests
    ensures sent == RunOf(cfg, system, task, inputs).sent
  {
    hide Step, Begin, Synced;
    BeginEmpty(system, task);
    var writer := new RetainedHistoryWriter();
    requestLog := new RequestContextWriter();
    var trajectory := [system, task];
    manager := new RuntimeHistoryManager(writer);
    manager.SyncSourceMessages(trajectory, 0);
    sent := [];
    for k := 0 to |inputs|
      invariant manager.writer == writer && fresh(manager) && fresh(writer) && fresh(requestLog)
      invariant manager.Valid() && requestLog.Valid()
      invariant manager.Contents() == RunOf(cfg, system, task, inputs[..k]).state
      invariant requestLog.log == RunOf(cfg, system, task, inputs[..k]).requests
      invariant sent == RunOf(cfg, system, task, inputs[..k]).sent
      invariant trajectory == RunOf(cfg, system, task, inputs[..k]).trajectory
    {
      assert inputs[..k + 1][..k] == inputs[..k];
      trajectory := trajectory + inputs[k].batch;
      StepLogsRequest(cfg, RunOf(cfg, system, task, inputs[..k]), inputs[k]);
      var messages := RunTurn(cfg, manager, requestLog, trajectory, inputs[k], RunOf(cfg, system, task, inputs[..k]));
      sent := sent + [messages];
    }
    assert inputs[..|inputs|] == inputs;
  }
}
