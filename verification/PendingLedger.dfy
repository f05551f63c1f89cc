/** The session's ledger of pending issues, which mirrors the recovery state turn by turn. */
module PendingLedger {
  import opened Prelude
  import opened Recovery

  /** A stretch of turns in which an issue of one kind was pending; `clearedAt` is the first turn without it. */
  datatype PendingRecord = PendingRecord(kind: PendingKind, openedAt: nat, lastObserved: nat, clearedAt: Option<nat>)

  datatype Ledger = Ledger(active: Option<PendingRecord>, cleared: seq<PendingRecord>)

  const EMPTY_LEDGER := Ledger(None, [])

  function Closed(r: PendingRecord, turn: nat): PendingRecord { r.(lastObserved := turn, clearedAt := Some(turn)) }

  function Opened(kind: PendingKind, turn: nat): PendingRecord { PendingRecord(kind, turn, turn, None) }

  /** One end-of-turn synchronisation with the pending kind of the recovery state. */
  function SyncPending(ledger: Ledger, kind: Option<PendingKind>, turn: nat): Ledger {
    match (kind, ledger.active)
    case (None, None) => ledger
    case (None, Some(r)) => Ledger(None, ledger.cleared + [Closed(r, turn)])
    case (Some(k), None) => ledger.(active := Some(Opened(k, turn)))
    case (Some(k), Some(r)) =>
      if r.kind == k then ledger.(active := Some(r.(lastObserved := turn)))
      else Ledger(Some(Opened(k, turn)), ledger.cleared + [Closed(r, turn)])
  }

  /** The ledger after the turns whose pending kinds are `kinds`; turns are numbered from 1. */
  function LedgerOf(kinds: seq<Option<PendingKind>>): Ledger {
    if kinds == [] then EMPTY_LEDGER
    else SyncPending(LedgerOf(kinds[..|kinds| - 1]), kinds[|kinds| - 1], |kinds|)
  }

  class SessionLedger {
    var active: Option<PendingRecord>
    var cleared: seq<PendingRecord>

    function Contents(): Ledger
      reads this
    {
      Ledger(active, cleared)
    }

    constructor ()
      ensures Contents() == EMPTY_LEDGER
    {
      active, cleared := None, [];
    }

    method SyncPendingIssueRecord(kind: Option<PendingKind>, turn: nat)
      modifies this
      ensures Contents() == SyncPending(old(Contents()), kind, turn)
    {
      if kind.None? {
        if active.None? {
          return;
        }
        cleared := cleared + [active.value.(lastObserved := turn, clearedAt := Some(turn))];
        active := None;
        return;
      }
      if active.Some? && active.value.kind == kind.value {
        active := Some(active.value.(lastObserved := turn));
        return;
      }
      if active.Some? {
        cleared := cleared + [active.value.(lastObserved := turn, clearedAt := Some(turn))];
      }
      active := Some(PendingRecord(kind.value, turn, turn, None));
    }
  }

  /** All records, the active one last. */
  function RecordsIn(ledger: Ledger): seq<PendingRecord> {
    ledger.cleared + (if ledger.active.Some? then [ledger.active.value] else [])
  }

  /** The first turn after the stretch of `r`, given the number of turns so far. */
  function EndOf(r: PendingRecord, turns: nat): nat { if r.clearedAt.Some? then r.clearedAt.value else turns + 1 }

  function KindAt(kinds: seq<Option<PendingKind>>, turn: nat): Option<PendingKind> {
    if 1 <= turn <= |kinds| then kinds[turn - 1] else None
  }

  /** `r` is a maximal stretch: its kind is pending in each of its turns, and not just before or after. */
  ghost predicate MaximalStretch(kinds: seq<Option<PendingKind>>, r: PendingRecord) {
    && 1 <= r.openedAt < EndOf(r, |kinds|) <= |kinds| + 1
    && (forall t :: r.openedAt <= t < EndOf(r, |kinds|) ==> KindAt(kinds, t) == Some(r.kind))
    && r.lastObserved == (if r.clearedAt.Some? then r.clearedAt.value else |kinds|)
    && KindAt(kinds, r.openedAt - 1) != Some(r.kind)
    && (EndOf(r, |kinds|) <= |kinds| ==> KindAt(kinds, EndOf(r, |kinds|)) != Some(r.kind))
  }

  predicate Covers(r: PendingRecord, turns: nat, t: nat) { r.openedAt <= t < EndOf(r, turns) }

  /** Every turn with a pending issue lies in some record. */
  ghost predicate CoversAll(kinds: seq<Option<PendingKind>>, records: seq<PendingRecord>) {
    forall t: nat :: KindAt(kinds, t).Some? ==>
      exists i :: 0 <= i < |records| && Covers(records[i], |kinds|, t)
  }

  ghost predicate InTurnOrder(records: seq<PendingRecord>, turns: nat) {
    forall i, j :: 0 <= i < j < |records| ==> EndOf(records[i], turns) <= records[j].openedAt
  }

  /** What the ledger keeps: cleared records are stretches that ended; an active one reaches the last turn. */
  ghost predicate LedgerState(kinds: seq<Option<PendingKind>>, ledger: Ledger) {
    && (forall i :: 0 <= i < |ledger.cleared| ==>
          ledger.cleared[i].clearedAt.Some? && ledger.cleared[i].clearedAt.value <= |kinds|
          && MaximalStretch(kinds, ledger.cleared[i]))
    && (ledger.active.Some? ==> ledger.active.value.clearedAt.None? && MaximalStretch(kinds, ledger.active.value))
    && (ledger.active.Some? <==> KindAt(kinds, |kinds|).Some?)
    && InTurnOrder(RecordsIn(ledger), |kinds|)
    && CoversAll(kinds, RecordsIn(ledger))
  }

  lemma ClearedStays(kinds: seq<Option<PendingKind>>, kind: Option<PendingKind>, r: PendingRecord)
    requires MaximalStretch(kinds, r) && r.clearedAt.Some? && r.clearedAt.value <= |kinds|
    ensures MaximalStretch(kinds + [kind], r)
  {
    forall t | 0 <= t <= |kinds| ensures KindAt(kinds + [kind], t) == KindAt(kinds, t) {
    }
  }

  lemma ActiveContinues(kinds: seq<Option<PendingKind>>, r: PendingRecord, turn: nat)
    requires MaximalStretch(kinds, r) && r.clearedAt.None? && turn == |kinds| + 1
    ensures MaximalStretch(kinds + [Some(r.kind)], r.(lastObserved := turn))
  {
    var longer := kinds + [Some(r.kind)];
    forall t | 0 <= t <= |kinds| ensures KindAt(longer, t) == KindAt(kinds, t) {
    }
  }

  lemma ActiveEnds(kinds: seq<Option<PendingKind>>, kind: Option<PendingKind>, r: PendingRecord, turn: nat)
    requires MaximalStretch(kinds, r) && r.clearedAt.None? && turn == |kinds| + 1 && kind != Some(r.kind)
    ensures MaximalStretch(kinds + [kind], Closed(r, turn))
  {
    var longer := kinds + [kind];
    forall t | 0 <= t <= |kinds| ensures KindAt(longer, t) == KindAt(kinds, t) {
    }
  }

  lemma StretchOpens(kinds: seq<Option<PendingKind>>, k: PendingKind, turn: nat)
    requires turn == |kinds| + 1 && KindAt(kinds, |kinds|) != Some(k)
    ensures MaximalStretch(kinds + [Some(k)], Opened(k, turn))
  {
    assert KindAt(kinds + [Some(k)], turn) == Some(k);
    assert KindAt(kinds + [Some(k)], turn - 1) == KindAt(kinds, turn - 1);
  }

  lemma StretchesAfterSync(kinds: seq<Option<PendingKind>>, kind: Option<PendingKind>, ledger: Ledger)
    requires LedgerState(kinds, ledger)
    ensures var turn := |kinds| + 1;
      var next := SyncPending(ledger, kind, turn);
      && (forall i :: 0 <= i < |next.cleared| ==>
            next.cleared[i].clearedAt.Some? && next.cleared[i].clearedAt.value <= turn
            && MaximalStretch(kinds + [kind], next.cleared[i]))
      && (next.active.Some? ==> next.active.value.clearedAt.None? && MaximalStretch(kinds + [kind], next.active.value))
      && (next.active.Some? <==> kind.Some?)
  {
    hide MaximalStretch, CoversAll, InTurnOrder;
    var turn := |kinds| + 1;
    var next := SyncPending(ledger, kind, turn);
    forall i | 0 <= i < |ledger.cleared| ensures MaximalStretch(kinds + [kind], ledger.cleared[i]) {
      ClearedStays(kinds, kind, ledger.cleared[i]);
    }
    if ledger.active.Some? {
      var r := ledger.active.value;
      if kind == Some(r.kind) {
        ActiveContinues(kinds, r, turn);
      } else {
        ActiveEnds(kinds, kind, r, turn);
        LastKind(kinds, r);
      }
    }
    if kind.Some? && (ledger.active.None? || ledger.active.value.kind != kind.value) {
      StretchOpens(kinds, kind.value, turn);
    }
  }

  lemma LastKind(kinds: seq<Option<PendingKind>>, r: PendingRecord)
    requires MaximalStretch(kinds, r) && r.clearedAt.None?
    ensures KindAt(kinds, |kinds|) == Some(r.kind)
  {
  }

  lemma OrderAfterSync(kinds: seq<Option<PendingKind>>, kind: Option<PendingKind>, ledger: Ledger)
    requires LedgerState(kinds, ledger)
    ensures InTurnOrder(RecordsIn(SyncPending(ledger, kind, |kinds| + 1)), |kinds| + 1)
  {
    hide CoversAll;
    var turn := |kinds| + 1;
    var oldRecords, records := RecordsIn(ledger), RecordsIn(SyncPending(ledger, kind, turn));
    forall i, j | 0 <= i < j < |records| ensures EndOf(records[i], turn) <= records[j].openedAt {
      if i < |ledger.cleared| {
        assert records[i] == oldRecords[i] == ledger.cleared[i];
        if j < |oldRecords| {
          assert records[j].openedAt == oldRecords[j].openedAt;
          assert EndOf(oldRecords[i], |kinds|) <= oldRecords[j].openedAt;
        }
      }
    }
  }

  lemma CoverAfterSync(kinds: seq<Option<PendingKind>>, kind: Option<PendingKind>, ledger: Ledger, t: nat)
    requires LedgerState(kinds, ledger) && KindAt(kinds + [kind], t).Some?
    ensures var records := RecordsIn(SyncPending(ledger, kind, |kinds| + 1));
      exists i :: 0 <= i < |records| && Covers(records[i], |kinds| + 1, t)
  {
    hide InTurnOrder, MaximalStretch;
    var turn := |kinds| + 1;
    var oldRecords, records := RecordsIn(ledger), RecordsIn(SyncPending(ledger, kind, turn));
    if t == turn {
      assert Covers(records[|records| - 1], turn, t);
    } else {
      assert KindAt(kinds, t) == KindAt(kinds + [kind], t);
      var i :| 0 <= i < |oldRecords| && Covers(oldRecords[i], |kinds|, t);
      assert records[i].openedAt == oldRecords[i].openedAt;
      assert Covers(records[i], turn, t);
    }
  }

  /** The ledger is the run-length encoding of the pending kinds: its records are exactly the maximal
      stretches of turns in which one kind stays pending, in turn order, each turn with a pending issue
      lying in exactly one of them. */
  lemma {:induction false} LedgerIsRunLengths(kinds: seq<Option<PendingKind>>)
    ensures var ledger := LedgerOf(kinds);
      && LedgerState(kinds, ledger)
      && (forall i :: 0 <= i < |RecordsIn(ledger)| ==> MaximalStretch(kinds, RecordsIn(ledger)[i]))
      && InTurnOrder(RecordsIn(ledger), |kinds|) && CoversAll(kinds, RecordsIn(ledger))
  {
    hide MaximalStretch, InTurnOrder, Covers;
    if kinds == [] {
      EmptyLedgerState();
    } else {
      var init, kind := kinds[..|kinds| - 1], kinds[|kinds| - 1];
      assert kinds == init + [kind];
      LedgerIsRunLengths(init);
      var ledger := LedgerOf(init);
      StretchesAfterSync(init, kind, ledger);
      OrderAfterSync(init, kind, ledger);
      var records := RecordsIn(LedgerOf(kinds));
      assert records == RecordsIn(SyncPending(ledger, kind, |init| + 1));
      forall t: nat | KindAt(kinds, t).Some? ensures exists i :: 0 <= i < |records| && Covers(records[i], |kinds|, t) {
        CoverAfterSync(init, kind, ledger, t);
      }
    }
  }

  lemma EmptyLedgerState()
    ensures LedgerState([], EMPTY_LEDGER)
  {
  }

  /** No turn lies in two records. */
  lemma OneRecordPerTurn(kinds: seq<Option<PendingKind>>, i: nat, j: nat, t: nat)
    requires i < |RecordsIn(LedgerOf(kinds))| && j < |RecordsIn(LedgerOf(kinds))|
    requires Covers(RecordsIn(LedgerOf(kinds))[i], |kinds|, t) && Covers(RecordsIn(LedgerOf(kinds))[j], |kinds|, t)
    ensures i == j
  {
    hide LedgerOf, MaximalStretch, CoversAll;
    LedgerIsRunLengths(kinds);
  }
}
