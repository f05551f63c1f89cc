/** Trajectory messages, their token estimate, and the turns they belong to. */
module Messages {
  import opened Prelude

  datatype Role = System | User | Assistant | Tool

  /** `bytes` is the length of the joined UTF-8 text the estimator measures;
      `payload` stands for everything else that distinguishes two messages. */
  datatype Message = Message(role: Role, bytes: nat, payload: nat)

  predicate Pinned(m: Message) { m.role.System? || m.role.User? }

  function EstimateTokens(m: Message): (tokens: nat)
    ensures tokens >= 1
  {
    Max(1, (m.bytes + 3) / 4)
  }

  /** The estimate is the least number of groups of four bytes that holds the text, and at least one. */
  lemma EstimateExactly(m: Message, n: nat)
    ensures m.bytes <= 4 * n && n >= 1 <==> EstimateTokens(m) <= n
  {
  }

  function Tokens(ms: seq<Message>): nat {
    if ms == [] then 0 else Tokens(ms[..|ms| - 1]) + EstimateTokens(ms[|ms| - 1])
  }

  /** The number of ASSISTANT messages, which is the number of turns begun. */
  function Assistants(ms: seq<Message>): nat {
    if ms == [] then 0 else Assistants(ms[..|ms| - 1]) + (if ms[|ms| - 1].role.Assistant? then 1 else 0)
  }

  /** The turn position `i` falls in: 0 before the first ASSISTANT message. */
  function TurnAt(ms: seq<Message>, i: nat): nat
    requires i < |ms|
  {
    Assistants(ms[..i + 1])
  }

  /** Position `i` holds an ASSISTANT or TOOL message of turn `t`. */
  predicate InTurn(ms: seq<Message>, i: nat, t: nat)
    requires i < |ms|
  {
    !Pinned(ms[i]) && TurnAt(ms, i) == t
  }

  /** The ASSISTANT and TOOL positions of turns `1 .. k`. */
  function FirstTurns(ms: seq<Message>, k: nat): set<nat> {
    set i | i in Below(|ms|) && !Pinned(ms[i]) && 1 <= TurnAt(ms, i) <= k
  }

  function PinnedSet(ms: seq<Message>): set<nat> {
    set i | i in Below(|ms|) && Pinned(ms[i])
  }

  /** The tokens of the messages whose position is in `s`. */
  function TokensIn(ms: seq<Message>, s: set<nat>): nat {
    if ms == [] then 0 else
    TokensIn(ms[..|ms| - 1], s) + (if |ms| - 1 in s then EstimateTokens(ms[|ms| - 1]) else 0)
  }

  lemma TokensSnoc(ms: seq<Message>, m: Message)
    ensures Tokens(ms + [m]) == Tokens(ms) + EstimateTokens(m)
  {
    assert (ms + [m])[..|ms|] == ms;
  }

  lemma {:induction false} TokensConcat(a: seq<Message>, b: seq<Message>)
    ensures Tokens(a + b) == Tokens(a) + Tokens(b)
  {
    if b == [] {
      assert a + b == a;
    } else {
      assert a + b == (a + b[..|b| - 1]) + [b[|b| - 1]];
      TokensSnoc(a + b[..|b| - 1], b[|b| - 1]);
      TokensConcat(a, b[..|b| - 1]);
    }
  }

  lemma {:induction false} TokensPick(ms: seq<Message>, s: set<nat>, n: nat)
    requires n <= |ms|
    ensures Tokens(Pick(ms, IndicesIn(n, s))) == TokensIn(ms[..n], s)
  {
    if n > 0 {
      TokensPick(ms, s, n - 1);
      assert ms[..n][..n - 1] == ms[..n - 1];
      if n - 1 in s {
        assert IndicesIn(n, s)[..|IndicesIn(n, s)| - 1] == IndicesIn(n - 1, s);
        TokensSnoc(Pick(ms, IndicesIn(n - 1, s)), ms[n - 1]);
      } else {
        assert IndicesIn(n, s) == IndicesIn(n - 1, s);
      }
    }
  }

  lemma {:induction false} TokensInSplit(ms: seq<Message>, s: set<nat>, t: set<nat>)
    requires forall i: nat :: i < |ms| ==> (i in s <==> i !in t)
    ensures TokensIn(ms, s) + TokensIn(ms, t) == Tokens(ms)
  {
    if ms != [] {
      TokensInSplit(ms[..|ms| - 1], s, t);
    }
  }

  lemma {:induction false} TokensInMonotone(ms: seq<Message>, s: set<nat>, t: set<nat>)
    requires s <= t
    ensures TokensIn(ms, s) <= TokensIn(ms, t)
  {
    if ms != [] {
      TokensInMonotone(ms[..|ms| - 1], s, t);
    }
  }

  /** Replacing positions trades their tokens for the tokens of the mark. */
  lemma {:induction false} TokensReplaced(ms: seq<Message>, s: set<nat>, mark: Message)
    ensures Tokens(Replaced(ms, s, mark)) + TokensIn(ms, s)
         == Tokens(ms) + (if Hit(s, |ms|) then EstimateTokens(mark) else 0)
  {
    if ms != [] {
      var n := |ms| - 1;
      TokensReplaced(ms[..n], s, mark);
      var rest := Replaced(ms[..n], s, mark);
      TokensSnoc(rest, ms[n]);
      TokensSnoc(rest, mark);
    }
  }

  lemma AssistantsSnoc(ms: seq<Message>, m: Message)
    ensures Assistants(ms + [m]) == Assistants(ms) + (if m.role.Assistant? then 1 else 0)
  {
    assert (ms + [m])[..|ms|] == ms;
  }

  lemma {:induction false} AssistantsMonotone(ms: seq<Message>, a: nat, b: nat)
    requires a <= b <= |ms|
    ensures Assistants(ms[..a]) <= Assistants(ms[..b])
    decreases b - a
  {
    if a < b {
      AssistantsMonotone(ms, a, b - 1);
      assert ms[..b][..b - 1] == ms[..b - 1];
    }
  }

  lemma TurnAtPrefix(ms: seq<Message>, n: nat, i: nat)
    requires i < n <= |ms|
    ensures TurnAt(ms[..n], i) == TurnAt(ms, i)
  {
    assert ms[..n][..i + 1] == ms[..i + 1];
  }
}
