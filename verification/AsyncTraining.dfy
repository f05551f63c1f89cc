/** The pipelined training loop: generation of the next rollout overlaps training on the current one. */
module AsyncTraining {
  import opened Prelude

  /** Weights are identified by the number of training steps they include. */
  datatype Event =
    | Launch(rollout: nat, weights: nat)
    | Drain(rollout: nat)
    | Train(rollout: nat, data: nat, weights: nat, actor: bool, critic: bool)
    | Sync(weights: nat)

  /** A generation in progress, or its data once drained. */
  datatype Generation = Generation(rollout: nat, weights: nat)

  function Launches(log: seq<Event>): seq<nat> {
    if log == [] then [] else
    var e := log[|log| - 1];
    Launches(log[..|log| - 1]) + (if e.Launch? then [e.rollout] else [])
  }

  function Trains(log: seq<Event>): seq<nat> {
    if log == [] then [] else
    var e := log[|log| - 1];
    Trains(log[..|log| - 1]) + (if e.Train? then [e.rollout] else [])
  }

  /** The weights pushed to the rollout workers, in order. */
  function Syncs(log: seq<Event>): seq<nat> {
    if log == [] then [] else
    var e := log[|log| - 1];
    Syncs(log[..|log| - 1]) + (if e.Sync? then [e.weights] else [])
  }

  /** The rollouts being generated after `log`: launched and not yet drained. */
  function InFlight(log: seq<Event>): set<nat> {
    if log == [] then {} else
    var e, before := log[|log| - 1], InFlight(log[..|log| - 1]);
    if e.Launch? then before + {e.rollout} else if e.Drain? then before - {e.rollout} else before
  }

  /** The weights the rollout workers hold: those of the latest synchronisation. */
  function Held(log: seq<Event>): nat {
    if log == [] then 0 else
    var e := log[|log| - 1];
    if e.Sync? then e.weights else Held(log[..|log| - 1])
  }

  /** The weights rollout `r` was generated with. */
  function GeneratedWith(log: seq<Event>, r: nat): nat {
    if log == [] then 0 else
    var e := log[|log| - 1];
    if e.Launch? && e.rollout == r then e.weights else GeneratedWith(log[..|log| - 1], r)
  }

  /** The protocol: one generation at a time, always with the weights held at that moment; training only on
      drained data; no weight update while anything is being generated. */
  predicate Allowed(log: seq<Event>, e: Event) {
    match e
    case Launch(r, w) => InFlight(log) == {} && w == Held(log) && r !in Launches(log)
    case Drain(r) => r in Launches(log)
    case Train(r, data, w, _, _) =>
      data == r && r in Launches(log) && r !in InFlight(log) && w == GeneratedWith(log, r)
    case Sync(w) => InFlight(log) == {} && w == |Trains(log)|
  }

  ghost predicate FollowsProtocol(log: seq<Event>) {
    forall k :: 0 <= k < |log| ==> Allowed(log[..k], log[k])
  }

  function From(lo: nat, hi: nat): seq<nat> { if hi <= lo then [] else From(lo, hi - 1) + [hi - 1] }

  function Abs(n: int): nat { if n < 0 then -n else n }

  /** The steps included in the weights once iterations below `r` are done. */
  function IncludedBefore(start: nat, r: nat, k: nat): nat
    requires k > 0
  {
    if r - r % k > start then r - r % k - start else 0
  }

  /** The weights due for pushing in iterations below `r`: those after every k-th rollout. */
  function PushesBefore(start: nat, r: nat, k: nat): seq<nat>
    requires k > 0
  {
    if r <= start then [] else PushesBefore(start, r - 1, k) + (if r % k == 0 then [r - start] else [])
  }

  /** How many training steps old the data of rollout `r` is when it is trained on. */
  function Age(start: nat, r: nat, k: nat): nat
    requires k > 0
  {
    if r <= start then 0 else Min(r - start, (r - 1) % k + 1)
  }

  lemma FollowsSnoc(log: seq<Event>, e: Event)
    requires FollowsProtocol(log) && Allowed(log, e)
    ensures FollowsProtocol(log + [e])
  {
    var longer := log + [e];
    assert longer[..|log|] == log;
    forall k | 0 <= k < |longer| ensures Allowed(longer[..k], longer[k]) {
      if k < |log| {
        assert longer[..k] == log[..k];
      }
    }
  }

  lemma Snoc(log: seq<Event>, e: Event)
    ensures Launches(log + [e]) == Launches(log) + (if e.Launch? then [e.rollout] else [])
    ensures Trains(log + [e]) == Trains(log) + (if e.Train? then [e.rollout] else [])
    ensures InFlight(log + [e]) == if e.Launch? then InFlight(log) + {e.rollout}
                                   else if e.Drain? then InFlight(log) - {e.rollout} else InFlight(log)
    ensures Syncs(log + [e]) == Syncs(log) + (if e.Sync? then [e.weights] else [])
    ensures Held(log + [e]) == if e.Sync? then e.weights else Held(log)
    ensures forall r :: GeneratedWith(log + [e], r)
                     == if e.Launch? && e.rollout == r then e.weights else GeneratedWith(log, r)
  {
    assert (log + [e])[..|log|] == log;
  }

  lemma {:induction false} FromMembers(lo: nat, hi: nat)
    ensures forall r :: r in From(lo, hi) <==> lo <= r < hi
    ensures |From(lo, hi)| == if hi <= lo then 0 else hi - lo
  {
    if hi > lo {
      FromMembers(lo, hi - 1);
    }
  }

  lemma NextMultiple(start: nat, r: nat, k: nat)
    requires k > 0 && r >= start
    ensures (r + 1) % k == 0 ==> IncludedBefore(start, r + 1, k) == r + 1 - start
    ensures (r + 1) % k != 0 ==> IncludedBefore(start, r + 1, k) == IncludedBefore(start, r, k)
  {
    ModSuccessor(r, k);
  }

  lemma ModSuccessor(r: nat, k: nat)
    requires k > 0
    ensures (r + 1) % k == if r % k == k - 1 then 0 else r % k + 1
  {
    var q, m := r / k, r % k;
    assert r == q * k + m;
    if m == k - 1 {
      assert r + 1 == (q + 1) * k;
      ModUnique(r + 1, k, q + 1, 0);
    } else {
      ModUnique(r + 1, k, q, m + 1);
    }
  }

  lemma ModUnique(n: nat, k: nat, q: int, m: nat)
    requires k > 0 && n == q * k + m && m < k
    ensures n % k == m
  {
    var p, l := n / k, n % k;
    assert n == p * k + l;
    assert (q - p) * k == l - m;
    MultipleBounds(q - p, k);
  }

  lemma MultipleBounds(x: int, k: int)
    requires k > 0
    ensures x >= 1 ==> x * k >= k
    ensures x <= -1 ==> x * k <= -k
  {
  }

  lemma DividesByAbs(n: nat, interval: int)
    requires interval != 0
    ensures n % interval == n % Abs(interval)
  {
    if interval < 0 {
      var q, m := n / interval, n % interval;
      assert n == q * interval + m == (-q) * Abs(interval) + m;
      ModUnique(n, Abs(interval), -q, m);
    }
  }

  /** The data of rollout `r` was generated with the weights held one iteration earlier. */
  lemma AgeOfData(start: nat, r: nat, k: nat)
    requires k > 0 && r >= start
    ensures r - start - (if r == start then 0 else IncludedBefore(start, r - 1, k)) == Age(start, r, k)
    ensures Age(start, r, k) <= k
  {
  }

  /** The age of every batch at the moment it is trained on. */
  ghost predicate AgesAre(log: seq<Event>, start: nat, k: nat)
    requires k > 0
  {
    forall i :: 0 <= i < |log| && log[i].Train? ==>
      log[i].rollout >= start && log[i].rollout - start - log[i].weights == Age(start, log[i].rollout, k)
  }

  /** Each step trains the critic if there is one, and the actor unless the step is critic-only. */
  ghost predicate TrainsModels(log: seq<Event>, useCritic: bool, criticOnly: nat) {
    forall i :: 0 <= i < |log| && log[i].Train? ==>
      log[i].critic == useCritic && log[i].actor == (!useCritic || log[i].rollout >= criticOnly)
  }

  /** What the loop has done before iteration `r`; `next` is the generation it waits for, if any. */
  ghost predicate LoopState(log: seq<Event>, next: Option<Generation>, curr: Option<Generation>, synced: nat,
                            start: nat, r: nat, k: nat)
    requires k > 0
  {
    && FollowsProtocol(log) && start <= r
    && Launches(log) == From(start, r + 1) && Trains(log) == From(start, r)
    && Held(log) == synced == IncludedBefore(start, r, k) && Syncs(log) == PushesBefore(start, r, k)
    && GeneratedWith(log, r) == (if r == start then 0 else IncludedBefore(start, r - 1, k))
    && AgesAre(log, start, k)
    && (next.Some? ==> next == Some(Generation(r, GeneratedWith(log, r))) && InFlight(log) == {r})
    && (next.None? ==> curr == Some(Generation(r, GeneratedWith(log, r))) && InFlight(log) == {})
  }

  /** Waits for the generation in progress. */
  method Get(log: seq<Event>, generation: Generation) returns (longer: seq<Event>)
    ensures longer == log + [Drain(generation.rollout)]
  {
    longer := log + [Drain(generation.rollout)];
  }

  /** One pass up to and including the training step: drain, launch the next rollout, train. */
  method TrainStep(log: seq<Event>, next: Option<Generation>, curr: Option<Generation>, synced: nat, start: nat,
                   r: nat, num: nat, ghost k: nat, useCritic: bool, criticOnly: nat)
    returns (longer: seq<Event>, ahead: Option<Generation>, data: Option<Generation>)
    requires k > 0 && LoopState(log, next, curr, synced, start, r, k) && r < num
    requires TrainsModels(log, useCritic, criticOnly)
    ensures FollowsProtocol(longer) && AgesAre(longer, start, k) && TrainsModels(longer, useCritic, criticOnly)
    ensures Trains(longer) == From(start, r + 1) && Launches(longer) == From(start, Min(r + 2, num))
    ensures Held(longer) == synced && Syncs(longer) == Syncs(log)
    ensures r + 1 < num ==>
      ahead == Some(Generation(r + 1, synced)) && InFlight(longer) == {r + 1} && GeneratedWith(longer, r + 1) == synced
    ensures r + 1 == num ==> ahead == next && InFlight(longer) == {}
    ensures ahead.Some? ==> ahead.value.rollout in Launches(longer)
  {
    hide Allowed, FollowsProtocol, IncludedBefore, From, Launches, Trains, InFlight, Held, GeneratedWith, Age;
    hide AgesAre, TrainsModels, Syncs, PushesBefore;
    FromMembers(start, r + 1);
    longer, ahead, data := log, next, curr;
    if next.Some? {
      Snoc(longer, Drain(r));
      DrainAllowed(longer, r);
      FollowsSnoc(longer, Drain(r));
      QuietEvent(longer, Drain(r), start, k, useCritic, criticOnly);
      longer := Get(longer, next.value);
      data := next;
    }
    if r + 1 < num {
      var launch := Launch(r + 1, synced);
      Snoc(longer, launch);
      LaunchAllowed(longer, r + 1, synced);
      FollowsSnoc(longer, launch);
      QuietEvent(longer, launch, start, k, useCritic, criticOnly);
      longer := longer + [launch];
      ahead := Some(Generation(r + 1, synced));
    }
    var train := Train(r, data.value.rollout, data.value.weights, !useCritic || r >= criticOnly, useCritic);
    Snoc(longer, train);
    TrainAllowed(longer, train);
    FollowsSnoc(longer, train);
    AgeOfData(start, r, k);
    TrainingEvent(longer, train, start, k, useCritic, criticOnly);
    longer := longer + [train];
    FromMembers(start, Min(r + 2, num));
    FromNext(start, r + 1);
    FromNext(start, r);
  }

  lemma FromNext(lo: nat, hi: nat)
    requires lo <= hi
    ensures From(lo, hi + 1) == From(lo, hi) + [hi]
  {
  }

  lemma DrainAllowed(log: seq<Event>, r: nat)
    requires r in Launches(log)
    ensures Allowed(log, Drain(r))
  {
  }

  lemma LaunchAllowed(log: seq<Event>, r: nat, w: nat)
    requires InFlight(log) == {} && w == Held(log) && r !in Launches(log)
    ensures Allowed(log, Launch(r, w))
  {
  }

  lemma TrainAllowed(log: seq<Event>, e: Event)
    requires e.Train? && e.data == e.rollout && e.rollout in Launches(log) && e.rollout !in InFlight(log)
    requires e.weights == GeneratedWith(log, e.rollout)
    ensures Allowed(log, e)
  {
  }

  lemma SyncAllowed(log: seq<Event>, w: nat)
    requires InFlight(log) == {} && w == |Trains(log)|
    ensures Allowed(log, Sync(w))
  {
  }

  lemma TrainingEvent(log: seq<Event>, e: Event, start: nat, k: nat, useCritic: bool, criticOnly: nat)
    requires k > 0 && e.Train? && AgesAre(log, start, k) && TrainsModels(log, useCritic, criticOnly)
    requires e.rollout >= start && e.rollout - start - e.weights == Age(start, e.rollout, k)
    requires e.critic == useCritic && e.actor == (!useCritic || e.rollout >= criticOnly)
    ensures AgesAre(log + [e], start, k) && TrainsModels(log + [e], useCritic, criticOnly)
  {
  }

  lemma QuietEvent(log: seq<Event>, e: Event, start: nat, k: nat, useCritic: bool, criticOnly: nat)
    requires k > 0 && !e.Train? && AgesAre(log, start, k) && TrainsModels(log, useCritic, criticOnly)
    ensures AgesAre(log + [e], start, k) && TrainsModels(log + [e], useCritic, criticOnly)
  {
    var longer := log + [e];
    forall i | 0 <= i < |longer| && longer[i].Train?
      ensures longer[i].rollout >= start
      ensures longer[i].rollout - start - longer[i].weights == Age(start, longer[i].rollout, k)
      ensures longer[i].critic == useCritic && longer[i].actor == (!useCritic || longer[i].rollout >= criticOnly)
    {
      assert longer[i] == log[i];
    }
  }

  /** Drains what is being generated, then pushes the weights. */
  method SyncWeights(log: seq<Event>, next: Option<Generation>, start: nat, steps: nat, ghost k: nat, useCritic: bool,
                     criticOnly: nat)
    returns (longer: seq<Event>)
    requires k > 0 && FollowsProtocol(log) && AgesAre(log, start, k) && TrainsModels(log, useCritic, criticOnly)
    requires steps == |Trains(log)| && (next.Some? ==> next.value.rollout in Launches(log))
    requires InFlight(log) == {} || (next.Some? && InFlight(log) == {next.value.rollout})
    ensures FollowsProtocol(longer) && AgesAre(longer, start, k) && TrainsModels(longer, useCritic, criticOnly)
    ensures Trains(longer) == Trains(log) && Launches(longer) == Launches(log)
    ensures Held(longer) == steps && InFlight(longer) == {} && Syncs(longer) == Syncs(log) + [steps]
    ensures forall r :: GeneratedWith(longer, r) == GeneratedWith(log, r)
  {
    hide Allowed, FollowsProtocol, Launches, Trains, InFlight, Held, GeneratedWith, AgesAre, TrainsModels, Syncs;
    longer := log;
    if next.Some? {
      var drain := Drain(next.value.rollout);
      Snoc(longer, drain);
      DrainAllowed(longer, next.value.rollout);
      FollowsSnoc(longer, drain);
      QuietEvent(longer, drain, start, k, useCritic, criticOnly);
      longer := Get(longer, next.value);
    }
    Snoc(longer, Sync(steps));
    SyncAllowed(longer, steps);
    FollowsSnoc(longer, Sync(steps));
    QuietEvent(longer, Sync(steps), start, k, useCritic, criticOnly);
    longer := longer + [Sync(steps)];
  }

  /** The training loop. Every rollout from `start` on is generated once and trained on once, in order, in a
      run that follows the protocol; the batch of step r is min(r - start, ((r - 1) mod interval) + 1) steps
      old (0 for the first), so never older than the interval. The weights are pushed after every rollout
      whose successor the interval divides, the last one included, and at no other time. */
  method Run(start: nat, num: nat, interval: int, useCritic: bool, criticOnly: nat) returns (log: seq<Event>)
    requires interval != 0
    ensures FollowsProtocol(log) && AgesAre(log, start, Abs(interval)) && TrainsModels(log, useCritic, criticOnly)
    ensures Trains(log) == From(start, num)
    ensures Launches(log) == From(start, Max(num, start + 1))
    ensures Syncs(log) == PushesBefore(start, num, Abs(interval))
    ensures Held(log) == IncludedBefore(start, Max(num, start), Abs(interval))
  {
    hide Allowed, FollowsProtocol, IncludedBefore, From, Launches, Trains, InFlight, Held, GeneratedWith, Age, AgesAre,
         TrainsModels, Syncs, PushesBefore;
    ghost var k: nat := Abs(interval);
    var synced: nat := 0;
    log := [Launch(start, 0)];
    StartsLoop(start, k);
    QuietStart(start, useCritic, criticOnly);
    var next: Option<Generation>, curr: Option<Generation> := Some(Generation(start, 0)), None;
    var r := start;
    while r < num
      invariant start <= r <= Max(num, start)
      invariant TrainsModels(log, useCritic, criticOnly)
      invariant r < num || r == start ==> LoopState(log, next, curr, synced, start, r, k)
      invariant r == num > start ==>
        && FollowsProtocol(log) && AgesAre(log, start, k)
        && Trains(log) == From(start, num) && Launches(log) == From(start, num)
        && Syncs(log) == PushesBefore(start, num, k) && Held(log) == IncludedBefore(start, num, k)
    {
      log, next, curr := TrainStep(log, next, curr, synced, start, r, num, k, useCritic, criticOnly);
      NextMultiple(start, r, k);
      DividesByAbs(r + 1, interval);
      BeforeStep(start, r, k);
      NextPush(start, r, k);
      if (r + 1) % interval == 0 {
        FromMembers(start, r + 1);
        log := SyncWeights(log, next, start, r + 1 - start, k, useCritic, criticOnly);
        curr, next := next, None;
        synced := r + 1 - start;
      }
      AssembleLoop(log, next, curr, synced, start, r + 1, num, k);
      r := r + 1;
    }
    EmptyLoop(log, next, curr, synced, start, num, k);
  }

  lemma QuietStart(start: nat, useCritic: bool, criticOnly: nat)
    ensures TrainsModels([Launch(start, 0)], useCritic, criticOnly)
  {
  }

  lemma StartsLoop(start: nat, k: nat)
    requires k > 0
    ensures LoopState([Launch(start, 0)], Some(Generation(start, 0)), None, 0, start, start, k)
  {
    var log := [Launch(start, 0)];
    assert log[..0] == [];
    assert From(start, start + 1) == [start];
    assert InFlight(log) == {start};
  }

  lemma BeforeStep(start: nat, r: nat, k: nat)
    requires k > 0 && r >= start
    ensures (if r + 1 == start then 0 else IncludedBefore(start, r + 1 - 1, k)) == IncludedBefore(start, r, k)
  {
  }

  lemma AssembleLoop(log: seq<Event>, next: Option<Generation>, curr: Option<Generation>, synced: nat, start: nat,
                     r: nat, num: nat, k: nat)
    requires k > 0 && FollowsProtocol(log) && AgesAre(log, start, k) && start < r
    requires Launches(log) == From(start, Min(r + 1, num)) && Trains(log) == From(start, r)
    requires Held(log) == synced == IncludedBefore(start, r, k) && Syncs(log) == PushesBefore(start, r, k)
    requires r < num ==> GeneratedWith(log, r) == IncludedBefore(start, r - 1, k)
    requires r < num && next.Some? ==> next == Some(Generation(r, GeneratedWith(log, r))) && InFlight(log) == {r}
    requires r < num && next.None? ==> curr == Some(Generation(r, GeneratedWith(log, r))) && InFlight(log) == {}
    ensures r < num ==> LoopState(log, next, curr, synced, start, r, k)
  {
  }

  lemma EmptyLoop(log: seq<Event>, next: Option<Generation>, curr: Option<Generation>, synced: nat, start: nat,
                  num: nat, k: nat)
    requires k > 0
    ensures num <= start && LoopState(log, next, curr, synced, start, start, k) ==>
      && FollowsProtocol(log) && AgesAre(log, start, k)
      && Trains(log) == From(start, num) && Launches(log) == From(start, start + 1)
      && Syncs(log) == PushesBefore(start, num, k) && Held(log) == IncludedBefore(start, start, k)
  {
  }

  lemma NextPush(start: nat, r: nat, k: nat)
    requires k > 0 && r >= start
    ensures PushesBefore(start, r + 1, k)
         == PushesBefore(start, r, k) + (if (r + 1) % k == 0 then [r + 1 - start] else [])
  {
  }

  /** The weights of `w` steps are due in an iteration below `num`: the interval divides the next rollout. */
  predicate Due(start: nat, num: nat, k: nat, w: nat)
    requires k > 0
  {
    1 <= w && start + w <= num && (start + w) % k == 0
  }

  lemma DueNext(start: nat, num: nat, k: nat, w: nat)
    requires k > 0 && num > start
    ensures Due(start, num, k, w) <==> Due(start, num - 1, k, w) || (w == num - start && num % k == 0)
  {
  }

  /** Which weights are pushed: after rollout r those of all steps up to r, if the interval divides r + 1; each
      once, in order. In particular the last are those that every later rollout is generated with. */
  lemma {:induction false} PushesExactly(start: nat, num: nat, k: nat)
    requires k > 0
    ensures Ascending(PushesBefore(start, num, k))
    ensures forall w :: w in PushesBefore(start, num, k) <==> Due(start, num, k, w)
    ensures num >= start ==>
      IncludedBefore(start, num, k)
        == var pushed := PushesBefore(start, num, k); if pushed == [] then 0 else pushed[|pushed| - 1]
  {
    hide IncludedBefore, Due, PushesBefore;
    if num > start {
      PushesExactly(start, num - 1, k);
      NextPush(start, num - 1, k);
      NextMultiple(start, num - 1, k);
      forall w: nat
        ensures Due(start, num, k, w) <==> Due(start, num - 1, k, w) || (w == num - start && num % k == 0)
      {
        DueNext(start, num, k, w);
      }
      var pushed := PushesBefore(start, num - 1, k);
      forall w | w in pushed ensures w <= num - 1 - start {
        NoneDue(start, num - 1, k, w);
      }
      LastPush(pushed, num - start, num - 1 - start);
    } else {
      NothingPushed(start, num, k);
      forall w: nat ensures !Due(start, num, k, w) {
        NoneDue(start, num, k, w);
      }
    }
  }

  lemma NoneDue(start: nat, num: nat, k: nat, w: nat)
    requires k > 0
    ensures Due(start, num, k, w) ==> 1 <= w <= num - start
  {
  }

  lemma NothingPushed(start: nat, num: nat, k: nat)
    requires k > 0 && num <= start
    ensures PushesBefore(start, num, k) == [] && IncludedBefore(start, num, k) == 0
  {
  }

  lemma LastPush(pushed: seq<nat>, next: nat, last: nat)
    requires Ascending(pushed) && last < next && forall w :: w in pushed ==> w <= last
    ensures Ascending(pushed + [next])
  {
    forall b | 0 <= b < |pushed| ensures pushed[b] < next {
      assert pushed[b] in pushed;
    }
  }

  /** Under the protocol there is never more than one generation in progress. */
  lemma {:induction false} AtMostOneInFlight(log: seq<Event>)
    requires FollowsProtocol(log)
    ensures |InFlight(log)| <= 1
  {
    if log != [] {
      var init := log[..|log| - 1];
      forall j | 0 <= j < |init| ensures Allowed(init[..j], init[j]) {
        assert init[..j] == log[..j];
      }
      AtMostOneInFlight(init);
      assert Allowed(log[..|log| - 1], log[|log| - 1]);
      var e := log[|log| - 1];
      if e.Drain? {
        assert InFlight(init) == (InFlight(init) - {e.rollout}) + (InFlight(init) * {e.rollout});
      }
    }
  }
}
