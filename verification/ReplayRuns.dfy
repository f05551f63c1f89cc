/** What replay recovers from the log of a run: every request exactly, and the first compaction in reverse. */
module ReplayRuns {
  import opened Prelude
  import opened Messages
  import opened Planning
  import opened TailWindows
  import opened ContextPlans
  import opened RetainedHistory
  import opened History
  import opened RequestContext
  import opened HistoryView
  import opened HistoryInvariant
  import opened HistoryRun
  import opened Conservation
  import opened RequestContents
  import opened Replay

  /** `b` continues `a`: nothing recorded is ever changed. */
  ghost predicate Grows(a: Run, b: Run) {
    && a.state.log <= b.state.log && a.state.records <= b.state.records
    && a.requests <= b.requests && a.sent <= b.sent && a.cuts <= b.cuts && a.trajectory <= b.trajectory
  }

  lemma StepGrows(cfg: Config, run: Run, input: TurnInput)
    requires |run.state.source| <= |run.trajectory|
    ensures Grows(run, Step(cfg, run, input))
  {
    hide FinalPlan, Synced, SnapshotOf, EntryFor, RecordFor;
    SyncedExtends(run.state, run.trajectory + input.batch, |run.requests|);
  }

  lemma SourceSize(run: Run)
    requires RunInvariant(run)
    ensures |run.state.source| == |run.trajectory| && WellNumbered(run.state.log)
  {
  }

  /** The log, the records, the request entries and the cuts are append-only over a run. */
  lemma {:induction false} RunGrows(cfg: Config, system: Message, task: Message, inputs: seq<TurnInput>, k: nat)
    requires Prompts(system, task) && WellFormed(inputs) && k <= |inputs|
    ensures WellFormed(inputs[..k])
    ensures Grows(RunOf(cfg, system, task, inputs[..k]), RunOf(cfg, system, task, inputs))
    decreases |inputs| - k
  {
    hide Step, Begin, Invariant;
    if k == |inputs| {
      assert inputs[..k] == inputs;
    } else {
      var init := inputs[..|inputs| - 1];
      RunGrows(cfg, system, task, init, k);
      assert init[..k] == inputs[..k];
      RunKeepsInvariant(cfg, system, task, init);
      SourceSize(RunOf(cfg, system, task, init));
      StepGrows(cfg, RunOf(cfg, system, task, init), inputs[|inputs| - 1]);
    }
  }

  ghost predicate AllLogged(items: seq<Item>, log: seq<Entry>) {
    forall p :: 0 <= p < |items| ==> Logged(log, items[p])
  }

  lemma SummaryLogged(source: seq<Item>, log: seq<Entry>, r: Record, id: nat, lo: nat, hi: nat)
    requires RecordBacked(source, log, r, id, lo, hi)
    ensures Logged(log, SummaryItem(r))
  {
  }

  lemma RecordOfState(s: State, trajectory: seq<Message>, cuts: seq<nat>, j: nat)
    requires Invariant(s, trajectory, cuts) && j < |cuts|
    ensures |s.records| == |cuts|
    ensures RecordBacked(s.source, s.log, s.records[j], j + 1, CutBefore(cuts, j), cuts[j])
  {
    hide RecordBacked, SourceBacked, View;
  }

  lemma RequestLogged(s: State, trajectory: seq<Message>, cuts: seq<nat>)
    requires Invariant(s, trajectory, cuts)
    ensures AllLogged(s.request, s.log) && AllLogged(s.source, s.log)
  {
    hide View, Cuts, RecordsBacked, RecordBacked, Logged;
    CutsOf(s, trajectory, cuts);
    ViewMembers(s.source, cuts, SummariesOf(s.records));
    forall j | 0 <= j < |s.records| ensures Logged(s.log, SummaryItem(s.records[j])) {
      RecordOfState(s, trajectory, cuts, j);
      SummaryLogged(s.source, s.log, s.records[j], j + 1, CutBefore(cuts, j), cuts[j]);
    }
    forall p | 0 <= p < |s.request| ensures Logged(s.log, s.request[p]) {
      assert s.request[p] in s.request;
    }
  }

  lemma SentLogged(cfg: Config, run: Run, input: TurnInput)
    requires RunInvariant(run) && (input.batch != [] ==> input.batch[0].role.Assistant?)
    requires cfg.policy == TailWindow ==> run.cuts == []
    ensures AllLogged(SentItems(cfg, run, input), Step(cfg, run, input).state.log)
  {
    hide Invariant, SentItems, Step, Synced, TailWindowResult;
    StepKeepsInvariant(cfg, run, input);
    var s, next := SyncedForTurn(run, input), Step(cfg, run, input);
    RequestLogged(next.state, next.trajectory, next.cuts);
    StepKeepsSource(cfg, run, input);
    if cfg.policy == TailWindow {
      var trajectory := run.trajectory + input.batch;
      SentIsWindow(cfg, run, input);
      TailIncluded(trajectory, cfg.limits);
      PickedItems(s.source, TailWindowResult(trajectory, cfg.limits).selection.included);
    } else {
      SentIsRequest(cfg, run, input);
    }
  }

  lemma FetchFromLog(log: seq<Entry>, item: Item)
    requires WellNumbered(log) && Logged(log, item)
    ensures Lookup(BuildIndex(log), item.entry) == Some(log[item.entry - 1])
    ensures Fetch(BuildIndex(log), item.entry) == Done(item.message)
  {
    IndexOfLog(log);
    LookupInLog(log, item.entry);
  }

  lemma {:induction false} SelectedReplays(items: seq<Item>, log: seq<Entry>)
    requires WellNumbered(log) && AllLogged(items, log)
    ensures SelectedMessages(EntriesOf(items), BuildIndex(log)) == Done(MessagesOf(items))
  {
    hide Lookup, BuildIndex, WellNumbered;
    if items != [] {
      var n := |items| - 1;
      SelectedReplays(items[..n], log);
      FetchFromLog(log, items[n]);
      assert EntriesOf(items)[..n] == EntriesOf(items[..n]);
      assert MessagesOf(items) == MessagesOf(items[..n]) + [items[n].message];
    }
  }

  lemma LoggedLater(items: seq<Item>, log: seq<Entry>, later: seq<Entry>)
    requires AllLogged(items, log) && log <= later
    ensures AllLogged(items, later)
  {
    forall p | 0 <= p < |items| ensures Logged(later, items[p]) {
      LoggedPersists(log, later, items[p]);
    }
  }

  /** The run up to turn `k + 1` is a step from the run up to turn `k`. */
  lemma TurnOf(cfg: Config, system: Message, task: Message, inputs: seq<TurnInput>, k: nat)
    requires Prompts(system, task) && WellFormed(inputs) && k < |inputs|
    ensures WellFormed(inputs[..k])
    ensures RunInvariant(RunOf(cfg, system, task, inputs[..k]))
    ensures inputs[k].batch != [] ==> inputs[k].batch[0].role.Assistant?
    ensures |RunOf(cfg, system, task, inputs[..k]).requests| == k
    ensures |RunOf(cfg, system, task, inputs[..k + 1]).requests| == k + 1
    ensures Step(cfg, RunOf(cfg, system, task, inputs[..k]), inputs[k]) == RunOf(cfg, system, task, inputs[..k + 1])
    ensures Grows(RunOf(cfg, system, task, inputs[..k + 1]), RunOf(cfg, system, task, inputs))
    ensures cfg.policy == FullHistory || cfg.policy == TailWindow ==> RunOf(cfg, system, task, inputs[..k]).cuts == []
  {
    hide Step, Begin, RunInvariant, Grows;
    RunGrows(cfg, system, task, inputs, k);
    RunGrows(cfg, system, task, inputs, k + 1);
    RunKeepsInvariant(cfg, system, task, inputs[..k]);
    RunKeepsInvariant(cfg, system, task, inputs[..k + 1]);
    assert inputs[..k + 1] == inputs[..k] + [inputs[k]];
    RunOfSnoc(cfg, system, task, inputs[..k], inputs[k]);
    if cfg.policy == FullHistory || cfg.policy == TailWindow {
      NoReplacements(cfg, system, task, inputs[..k]);
    }
  }

  /** The request entry and the request of turn `k + 1`, read off the finished run. */
  lemma RequestOfTurn(cfg: Config, system: Message, task: Message, inputs: seq<TurnInput>, k: nat)
    requires Prompts(system, task) && WellFormed(inputs) && k < |inputs|
    ensures var run, before := RunOf(cfg, system, task, inputs), RunOf(cfg, system, task, inputs[..k]);
      var items := SentItems(cfg, before, inputs[k]);
      && k < |run.requests| && k < |run.sent|
      && run.sent[k] == MessagesOf(items)
      && run.requests[k] == EntryFor(k + 1, k + 1, SnapshotOf(SyncedForTurn(before, inputs[k]),
                                                              PlanOfTurn(cfg, before, inputs[k]), k + 1))
      && run.requests[k].selectedEntries == EntriesOf(items)
  {
    hide RunOf, FinalPlan, Synced, Invariant;
    TurnOf(cfg, system, task, inputs, k);
    var next := Step(cfg, RunOf(cfg, system, task, inputs[..k]), inputs[k]);
    assert next.requests[k] == RunOf(cfg, system, task, inputs).requests[k];
  }

  /** Replay round trip: for every turn of every run under every policy, replaying that turn's entry
      against the final log, or against any continuation of it, yields exactly the messages sent. */
  lemma ReplayRoundTrip(cfg: Config, system: Message, task: Message, inputs: seq<TurnInput>, k: nat, log: seq<Entry>)
    requires Prompts(system, task) && WellFormed(inputs) && k < |inputs|
    requires WellNumbered(log) && RunOf(cfg, system, task, inputs).state.log <= log
    ensures var run := RunOf(cfg, system, task, inputs);
      && k < |run.requests| && k < |run.sent|
      && SelectedMessages(run.requests[k].selectedEntries, BuildIndex(log)) == Done(run.sent[k])
  {
    hide RunOf, Step, SentItems, SnapshotOf, EntryFor, RunInvariant, SelectedMessages, BuildIndex;
    TurnOf(cfg, system, task, inputs, k);
    RequestOfTurn(cfg, system, task, inputs, k);
    var before := RunOf(cfg, system, task, inputs[..k]);
    SentLogged(cfg, before, inputs[k]);
    LoggedLater(SentItems(cfg, before, inputs[k]), Step(cfg, before, inputs[k]).state.log, log);
    SelectedReplays(SentItems(cfg, before, inputs[k]), log);
  }
}
