/** Sequence and index idioms shared by the models. */
module Prelude {

  datatype Option<+T> = None | Some(value: T)

  function Max(a: int, b: int): int { if a < b then b else a }

  function Min(a: int, b: int): int { if a < b then a else b }

  /** The indices `0 .. n - 1`. */
  function Below(n: nat): (s: set<nat>)
    ensures forall i: nat :: i in s <==> i < n
  {
    if n == 0 then {} else Below(n - 1) + {n - 1}
  }

  function ToSet<T(==)>(xs: seq<T>): set<T> { set x | x in xs }

  /** The members of `s` below `n`, in ascending order. */
  function IndicesIn(n: nat, s: set<nat>): seq<nat> {
    if n == 0 then [] else IndicesIn(n - 1, s) + (if n - 1 in s then [n - 1] else [])
  }

  /** All indices `0 .. n - 1` in order. */
  function Range(n: nat): seq<nat> { seq(n, i => i) }

  ghost predicate Ascending(xs: seq<nat>) {
    forall a, b :: 0 <= a < b < |xs| ==> xs[a] < xs[b]
  }

  lemma {:induction false} IndicesInMembers(n: nat, s: set<nat>)
    ensures Ascending(IndicesIn(n, s))
    ensures forall i :: i in IndicesIn(n, s) <==> i < n && i in s
  {
    if n > 0 {
      var xs, rest := IndicesIn(n, s), IndicesIn(n - 1, s);
      IndicesInMembers(n - 1, s);
      forall a, b | 0 <= a < b < |xs| ensures xs[a] < xs[b] {
        assert xs[a] == rest[a] && rest[a] in rest;
      }
    }
  }

  lemma {:induction false} IndicesInCount(n: nat, s: set<nat>)
    ensures |IndicesIn(n, s)| == |s * Below(n)|
  {
    hide Below, IndicesIn;
    if n == 0 {
      NoneBelow(s);
    } else {
      IndicesInCount(n - 1, s);
      IndicesStep(n - 1, s);
      CountBelow(n - 1, s);
    }
  }

  lemma IndicesStep(n: nat, s: set<nat>)
    ensures IndicesIn(n + 1, s) == IndicesIn(n, s) + (if n in s then [n] else [])
  {
  }

  lemma NoneBelow(s: set<nat>)
    ensures s * Below(0) == {} && IndicesIn(0, s) == []
  {
  }

  lemma CountBelow(n: nat, s: set<nat>)
    ensures |s * Below(n + 1)| == |s * Below(n)| + (if n in s then 1 else 0)
  {
    if n in s {
      assert s * Below(n + 1) == s * Below(n) + {n};
    } else {
      assert s * Below(n + 1) == s * Below(n);
    }
  }

  lemma {:induction false} IndicesInAgree(n: nat, s: set<nat>, t: set<nat>)
    requires forall i: nat :: i < n ==> (i in s <==> i in t)
    ensures IndicesIn(n, s) == IndicesIn(n, t)
  {
    if n > 0 {
      IndicesInAgree(n - 1, s, t);
    }
  }

  lemma {:induction false} IndicesInAll(n: nat)
    ensures IndicesIn(n, Below(n)) == Range(n)
  {
    if n > 0 {
      IndicesInAgree(n - 1, Below(n), Below(n - 1));
      IndicesInAll(n - 1);
    }
  }

  /** The elements of `xs` at `indices`; an index out of range contributes nothing. */
  function Pick<T>(xs: seq<T>, indices: seq<nat>): seq<T> {
    if indices == [] then [] else
    var last := indices[|indices| - 1];
    Pick(xs, indices[..|indices| - 1]) + (if last < |xs| then [xs[last]] else [])
  }

  lemma {:induction false} PickConcat<T>(xs: seq<T>, a: seq<nat>, b: seq<nat>)
    ensures Pick(xs, a + b) == Pick(xs, a) + Pick(xs, b)
  {
    if b == [] {
      assert a + b == a;
    } else {
      assert (a + b)[..|a + b| - 1] == a + b[..|b| - 1];
      PickConcat(xs, a, b[..|b| - 1]);
    }
  }

  lemma {:induction false} PickRange<T>(xs: seq<T>, n: nat)
    requires n <= |xs|
    ensures Pick(xs, Range(n)) == xs[..n]
  {
    if n > 0 {
      assert Range(n)[..n - 1] == Range(n - 1);
      PickRange(xs, n - 1);
    }
  }

  /** True iff some member of `s` lies below `n`. */
  predicate Hit(s: set<nat>, n: nat) { exists i :: 0 <= i < n && i in s }

  /** `xs` without the positions in `s`, with `mark` where the first of them stood. */
  function Replaced<T>(xs: seq<T>, s: set<nat>, mark: T): seq<T> {
    if xs == [] then [] else
    var n := |xs| - 1;
    var rest := Replaced(xs[..n], s, mark);
    if n !in s then rest + [xs[n]] else if Hit(s, n) then rest else rest + [mark]
  }

  lemma ReplacedStep<T>(xs: seq<T>, n: nat, s: set<nat>, mark: T)
    requires n < |xs|
    ensures Replaced(xs[..n + 1], s, mark)
         == Replaced(xs[..n], s, mark) + (if n !in s then [xs[n]] else if Hit(s, n) then [] else [mark])
    ensures Hit(s, n + 1) <==> Hit(s, n) || n in s
  {
    assert xs[..n + 1][..n] == xs[..n];
  }

  lemma {:induction false} ReplacedLength<T>(xs: seq<T>, s: set<nat>, mark: T)
    ensures |Replaced(xs, s, mark)| + |s * Below(|xs|)| == |xs| + (if Hit(s, |xs|) then 1 else 0)
  {
    if xs != [] {
      var n := |xs| - 1;
      ReplacedLength(xs[..n], s, mark);
      CountBelow(n, s);
    } else {
      assert s * Below(0) == {};
    }
  }
}
