/** The stable sort by an integer key that the audit code relies on. */
module Sorting {
  import opened Prelude

  function InsertBy<T>(xs: seq<T>, x: T, key: T -> nat): seq<T> {
    if xs == [] || key(xs[|xs| - 1]) <= key(x) then xs + [x]
    else InsertBy(xs[..|xs| - 1], x, key) + [xs[|xs| - 1]]
  }

  function SortBy<T>(xs: seq<T>, key: T -> nat): seq<T> {
    if xs == [] then [] else InsertBy(SortBy(xs[..|xs| - 1], key), xs[|xs| - 1], key)
  }

  function KeysOf<T>(xs: seq<T>, key: T -> nat): (keys: seq<nat>)
    ensures |keys| == |xs| && forall i :: 0 <= i < |xs| ==> keys[i] == key(xs[i])
  {
    seq(|xs|, i requires 0 <= i < |xs| => key(xs[i]))
  }

  ghost predicate DistinctKeys<T>(xs: seq<T>, key: T -> nat) {
    forall a, b :: 0 <= a < b < |xs| ==> key(xs[a]) != key(xs[b])
  }

  lemma {:induction false} InsertByContents<T>(xs: seq<T>, x: T, key: T -> nat)
    ensures multiset(InsertBy(xs, x, key)) == multiset(xs) + multiset{x}
    ensures |InsertBy(xs, x, key)| == |xs| + 1
  {
    if xs != [] && key(xs[|xs| - 1]) > key(x) {
      InsertByContents(xs[..|xs| - 1], x, key);
      assert xs == xs[..|xs| - 1] + [xs[|xs| - 1]];
    }
  }

  lemma {:induction false} SortByContents<T>(xs: seq<T>, key: T -> nat)
    ensures multiset(SortBy(xs, key)) == multiset(xs)
    ensures |SortBy(xs, key)| == |xs|
  {
    if xs != [] {
      SortByContents(xs[..|xs| - 1], key);
      InsertByContents(SortBy(xs[..|xs| - 1], key), xs[|xs| - 1], key);
      assert xs == xs[..|xs| - 1] + [xs[|xs| - 1]];
    }
  }

  lemma {:induction false} InsertByKeepsOrder<T>(xs: seq<T>, x: T, key: T -> nat)
    requires Ascending(KeysOf(xs, key)) && forall i :: 0 <= i < |xs| ==> key(xs[i]) != key(x)
    ensures Ascending(KeysOf(InsertBy(xs, x, key), key))
  {
    if xs != [] && key(xs[|xs| - 1]) > key(x) {
      var init, last := xs[..|xs| - 1], xs[|xs| - 1];
      assert xs == init + [last];
      AscendingInit(init, last, key);
      InsertByKeepsOrder(init, x, key);
      var rest := InsertBy(init, x, key);
      InsertByContents(init, x, key);
      forall a | 0 <= a < |rest| ensures key(rest[a]) < key(last) {
        SameContents(rest, init + [x], a);
      }
      AppendAscending(rest, last, key);
    } else {
      forall i | 0 <= i < |xs| ensures key(xs[i]) < key(x) {
        assert i < |xs| - 1 ==> KeysOf(xs, key)[i] < KeysOf(xs, key)[|xs| - 1];
      }
      AppendAscending(xs, x, key);
    }
  }

  lemma SameContents<T>(xs: seq<T>, ys: seq<T>, a: nat)
    requires multiset(xs) == multiset(ys) && a < |xs|
    ensures exists j :: 0 <= j < |ys| && ys[j] == xs[a]
  {
    assert xs[a] in multiset(xs);
  }

  lemma AscendingInit<T>(init: seq<T>, last: T, key: T -> nat)
    requires Ascending(KeysOf(init + [last], key))
    ensures Ascending(KeysOf(init, key))
    ensures forall i :: 0 <= i < |init| ==> key(init[i]) < key(last)
  {
    var xs := init + [last];
    assert KeysOf(xs, key) == KeysOf(init, key) + [key(last)];
    forall i | 0 <= i < |init| ensures key(init[i]) < key(last) {
      assert KeysOf(xs, key)[i] < KeysOf(xs, key)[|init|];
    }
    forall a, b | 0 <= a < b < |init| ensures KeysOf(init, key)[a] < KeysOf(init, key)[b] {
      assert KeysOf(xs, key)[a] < KeysOf(xs, key)[b];
    }
  }

  lemma AppendAscending<T>(xs: seq<T>, x: T, key: T -> nat)
    requires Ascending(KeysOf(xs, key)) && forall i :: 0 <= i < |xs| ==> key(xs[i]) < key(x)
    ensures Ascending(KeysOf(xs + [x], key))
  {
    assert KeysOf(xs + [x], key) == KeysOf(xs, key) + [key(x)];
  }

  /** Sorting values with distinct keys rearranges them into strictly increasing key order. */
  lemma {:induction false} SortByArranges<T>(xs: seq<T>, key: T -> nat)
    requires DistinctKeys(xs, key)
    ensures Ascending(KeysOf(SortBy(xs, key), key))
    ensures multiset(SortBy(xs, key)) == multiset(xs) && |SortBy(xs, key)| == |xs|
  {
    SortByContents(xs, key);
    if xs != [] {
      var init, last := xs[..|xs| - 1], xs[|xs| - 1];
      SortByArranges(init, key);
      var sorted := SortBy(init, key);
      forall i | 0 <= i < |sorted| ensures key(sorted[i]) != key(last) {
        SameContents(sorted, init, i);
        var j :| 0 <= j < |init| && init[j] == sorted[i];
        assert xs[j] == sorted[i];
      }
      InsertByKeepsOrder(sorted, last, key);
    }
  }

  /** Values already in key order stay where they are. */
  lemma {:induction false} SortBySorted<T>(xs: seq<T>, key: T -> nat)
    requires forall a, b :: 0 <= a < b < |xs| ==> key(xs[a]) <= key(xs[b])
    ensures SortBy(xs, key) == xs
  {
    if xs != [] {
      SortBySorted(xs[..|xs| - 1], key);
    }
  }
}
