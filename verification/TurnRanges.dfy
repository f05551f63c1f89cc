/** How a request is split into complete turns that may be compacted. */
module TurnRanges {
  import opened Prelude
  import opened Messages

  datatype TurnRange = TurnRange(turn: nat, indices: seq<nat>)

  /** The ranges of the turns begun in `ms`, built by one pass over the messages. */
  function TurnRangesOf(ms: seq<Message>): seq<TurnRange> {
    if ms == [] then [] else
    var n := |ms| - 1;
    var ranges := TurnRangesOf(ms[..n]);
    if ms[n].role.Assistant? then ranges + [TurnRange(|ranges| + 1, [n])]
    else if ms[n].role.Tool? && ranges != [] then
      var last := ranges[|ranges| - 1];
      ranges[..|ranges| - 1] + [TurnRange(last.turn, last.indices + [n])]
    else ranges
  }

  function WithCurrent(closed: seq<TurnRange>, current: Option<TurnRange>): seq<TurnRange> {
    if current.None? then closed else closed + [current.value]
  }

  method BuildTurnRanges(ms: seq<Message>) returns (ranges: seq<TurnRange>)
    ensures ranges == TurnRangesOf(ms)
  {
    ranges := [];
    var current: Option<TurnRange> := None;
    var turn := 0;
    for index := 0 to |ms|
      invariant WithCurrent(ranges, current) == TurnRangesOf(ms[..index])
      invariant turn == |TurnRangesOf(ms[..index])|
      invariant current.None? ==> ranges == []
    {
      assert ms[..index + 1][..index] == ms[..index];
      if ms[index].role.Assistant? {
        ranges := WithCurrent(ranges, current);
        turn := turn + 1;
        current := Some(TurnRange(turn, [index]));
      } else if current.Some? && ms[index].role.Tool? {
        current := Some(current.value.(indices := current.value.indices + [index]));
      }
    }
    ranges := WithCurrent(ranges, current);
    assert ms[..|ms|] == ms;
  }

  /** Range `r` is turn `t` of `ms`: exactly its ASSISTANT and TOOL positions, in order. */
  ghost predicate IsTurn(ms: seq<Message>, r: TurnRange, t: nat) {
    && r.turn == t
    && r.indices != []
    && Ascending(r.indices)
    && (forall i :: i in r.indices ==> i < |ms|)
    && (forall i: nat :: i < |ms| ==> (i in r.indices <==> InTurn(ms, i, t)))
  }

  lemma IsTurnExtends(ms: seq<Message>, r: TurnRange, t: nat)
    requires ms != [] && IsTurn(ms[..|ms| - 1], r, t)
    requires !InTurn(ms, |ms| - 1, t)
    ensures IsTurn(ms, r, t)
  {
    forall i: nat | i < |ms| ensures i in r.indices <==> InTurn(ms, i, t) {
      if i < |ms| - 1 {
        TurnAtPrefix(ms, |ms| - 1, i);
        assert InTurn(ms[..|ms| - 1], i, t) <==> InTurn(ms, i, t);
      }
    }
  }

  lemma IsTurnOpens(ms: seq<Message>)
    requires ms != [] && ms[|ms| - 1].role.Assistant?
    ensures IsTurn(ms, TurnRange(Assistants(ms), [|ms| - 1]), Assistants(ms))
  {
    assert ms[..|ms|] == ms;
    forall i: nat | i < |ms| - 1 ensures !InTurn(ms, i, Assistants(ms)) {
      AssistantsMonotone(ms, i + 1, |ms| - 1);
    }
  }

  lemma IsTurnGrows(ms: seq<Message>, r: TurnRange, t: nat)
    requires ms != [] && ms[|ms| - 1].role.Tool?
    requires IsTurn(ms[..|ms| - 1], r, t) && t == Assistants(ms)
    ensures IsTurn(ms, TurnRange(t, r.indices + [|ms| - 1]), t)
  {
    var n := |ms| - 1;
    assert ms[..|ms|] == ms;
    var grown := r.indices + [n];
    forall a, b | 0 <= a < b < |grown| ensures grown[a] < grown[b] {
      assert b < |r.indices| ==> r.indices[b] in r.indices;
      assert r.indices[a] in r.indices;
    }
    forall i: nat | i < |ms| ensures i in grown <==> InTurn(ms, i, t) {
      if i < n {
        TurnAtPrefix(ms, n, i);
        assert InTurn(ms[..n], i, t) <==> InTurn(ms, i, t);
      } else {
        assert grown[|r.indices|] == n;
      }
    }
  }

  /** Numbering restarts at 1 and the ranges are exactly the turns of the request. */
  lemma {:induction false} TurnRangesMeaning(ms: seq<Message>)
    ensures |TurnRangesOf(ms)| == Assistants(ms)
    ensures forall j :: 0 <= j < |TurnRangesOf(ms)| ==> IsTurn(ms, TurnRangesOf(ms)[j], j + 1)
  {
    if ms != [] {
      var n := |ms| - 1;
      var oldRanges, ranges := TurnRangesOf(ms[..n]), TurnRangesOf(ms);
      TurnRangesMeaning(ms[..n]);
      assert ms[..|ms|] == ms;
      forall j | 0 <= j < |ranges| ensures IsTurn(ms, ranges[j], j + 1) {
        if ms[n].role.Assistant? && j == |oldRanges| {
          IsTurnOpens(ms);
        } else if ms[n].role.Tool? && j == |oldRanges| - 1 {
          IsTurnGrows(ms, oldRanges[j], j + 1);
        } else {
          IsTurnExtends(ms, oldRanges[j], j + 1);
        }
      }
    }
  }

  /** Every position covered by one of the ranges. */
  function Covered(ranges: seq<TurnRange>): set<nat> {
    if ranges == [] then {} else Covered(ranges[..|ranges| - 1]) + ToSet(ranges[|ranges| - 1].indices)
  }

  /** Turns are compacted whole: the first `c` ranges cover turns 1 to `c` and nothing else. */
  lemma {:induction false} CoveredMeaning(ms: seq<Message>, c: nat)
    requires c <= |TurnRangesOf(ms)|
    ensures Covered(TurnRangesOf(ms)[..c]) == FirstTurns(ms, c)
  {
    var ranges := TurnRangesOf(ms);
    if c > 0 {
      TurnRangesMeaning(ms);
      CoveredMeaning(ms, c - 1);
      assert ranges[..c][..c - 1] == ranges[..c - 1];
      assert IsTurn(ms, ranges[c - 1], c);
      forall i: nat ensures i in Covered(ranges[..c]) <==> i in FirstTurns(ms, c) {
        if i < |ms| {
          assert i in ranges[c - 1].indices <==> InTurn(ms, i, c);
        }
      }
    }
  }

  lemma {:induction false} CoveredNonempty(ms: seq<Message>, c: nat)
    requires 1 <= c <= |TurnRangesOf(ms)|
    ensures FirstTurns(ms, c) != {}
  {
    CoveredMeaning(ms, c);
    TurnRangesMeaning(ms);
    var r := TurnRangesOf(ms)[c - 1];
    assert IsTurn(ms, r, c);
    assert TurnRangesOf(ms)[..c][c - 1] == r;
    assert r.indices[0] in ToSet(r.indices);
  }
}
