/** Interpretation of a native tool-calling response: all candidates are accepted, or none is. */
module Parser {
  import opened Prelude
  import opened Recovery

  datatype Payload =
    | InputText(text: Option<string>)
    | NoArguments
    | NonObjectArguments
    | ObjectArguments

  /** A tool call as the provider sent it; `name` is already stripped of blanks. */
  datatype Candidate = Candidate(name: string, argumentsError: bool, payload: Payload)

  datatype Response = Response(candidates: seq<Candidate>, declaresToolCalls: bool)

  datatype ProtocolError =
    | MissingName(candidate: nat)
    | ArgumentsError(candidate: nat)
    | MissingInputText(candidate: nat)
    | MissingArguments(candidate: nat)
    | ArgumentsNotObject(candidate: nat)
    | NoUsableCalls

  datatype Interpreted = Interpreted(calls: seq<Call>, errors: seq<ProtocolError>, accepted: nat, rejected: nat)

  predicate Acceptable(c: Candidate) {
    && c.name != ""
    && !c.argumentsError
    && ((c.payload.InputText? && c.payload.text.Some?) || c.payload.ObjectArguments?)
  }

  /** The calls a list of acceptable candidates stands for. */
  function CallsOf(candidates: seq<Candidate>): (calls: seq<Call>)
    ensures |calls| == |candidates|
    ensures forall i :: 0 <= i < |candidates| ==> calls[i] == Call(candidates[i].name)
  {
    seq(|candidates|, i requires 0 <= i < |candidates| => Call(candidates[i].name))
  }

  predicate AllAcceptable(candidates: seq<Candidate>) {
    forall i :: 0 <= i < |candidates| ==> Acceptable(candidates[i])
  }

  function RejectedCount(candidates: seq<Candidate>): nat {
    if candidates == [] then 0 else
    RejectedCount(candidates[..|candidates| - 1]) + (if Acceptable(candidates[|candidates| - 1]) then 0 else 1)
  }

  /** What each error says is wrong with a candidate. */
  predicate Faulty(e: ProtocolError, candidates: seq<Candidate>) {
    match e
    case MissingName(i) => i < |candidates| && candidates[i].name == ""
    case ArgumentsError(i) => i < |candidates| && candidates[i].name != "" && candidates[i].argumentsError
    case MissingInputText(i) => Unusable(candidates, i) && candidates[i].payload == InputText(None)
    case MissingArguments(i) => Unusable(candidates, i) && candidates[i].payload == NoArguments
    case ArgumentsNotObject(i) => Unusable(candidates, i) && candidates[i].payload == NonObjectArguments
    case NoUsableCalls => candidates == []
  }

  predicate Unusable(candidates: seq<Candidate>, i: nat) {
    i < |candidates| && candidates[i].name != "" && !candidates[i].argumentsError
  }

  /** The candidate an error is about. */
  function AboutOf(e: ProtocolError): Option<nat> {
    match e
    case MissingName(i) => Some(i)
    case ArgumentsError(i) => Some(i)
    case MissingInputText(i) => Some(i)
    case MissingArguments(i) => Some(i)
    case ArgumentsNotObject(i) => Some(i)
    case NoUsableCalls => None
  }

  /** One error per bad candidate, in order, each saying what is wrong with it. */
  ghost predicate Explained(errors: seq<ProtocolError>, candidates: seq<Candidate>) {
    && (forall k :: 0 <= k < |errors| ==> Faulty(errors[k], candidates) && AboutOf(errors[k]).Some?)
    && (forall j, k :: 0 <= j < k < |errors| ==> AboutOf(errors[j]).value < AboutOf(errors[k]).value)
    && |errors| == RejectedCount(candidates)
  }

  lemma NoneExplained()
    ensures Explained([], [])
  {
  }

  lemma ExplainedNext(errors: seq<ProtocolError>, candidates: seq<Candidate>, i: nat)
    requires i < |candidates| && Explained(errors, candidates[..i])
    ensures Acceptable(candidates[i]) ==> Explained(errors, candidates[..i + 1])
    ensures forall e :: !Acceptable(candidates[i]) && AboutOf(e) == Some(i) && Faulty(e, candidates[..i + 1]) ==>
              Explained(errors + [e], candidates[..i + 1])
  {
    assert candidates[..i + 1][..i] == candidates[..i] && candidates[..i + 1][i] == candidates[i];
    forall k | 0 <= k < |errors| ensures Faulty(errors[k], candidates[..i + 1]) && AboutOf(errors[k]).value < i {
      assert Faulty(errors[k], candidates[..i]);
      var j := AboutOf(errors[k]).value;
      assert candidates[..i + 1][j] == candidates[..i][j];
    }
  }

  /** A response with any bad candidate yields no call at all; calls are passed on only when every candidate
      is acceptable, and then all of them, in order. */
  method InterpretNativeResponse(response: Response) returns (parsed: Interpreted)
    ensures parsed.errors == [] <==>
      AllAcceptable(response.candidates) && !(response.declaresToolCalls && response.candidates == [])
    ensures parsed.calls == if parsed.errors == [] then CallsOf(response.candidates) else []
    ensures parsed.rejected == RejectedCount(response.candidates)
    ensures parsed.accepted + parsed.rejected == |response.candidates|
    ensures if response.candidates == [] then parsed.errors == (if response.declaresToolCalls then [NoUsableCalls] else [])
            else Explained(parsed.errors, response.candidates)
  {
    hide Explained;
    NoneExplained();
    var candidates := response.candidates;
    var calls: seq<Call> := [];
    var errors: seq<ProtocolError> := [];
    var accepted, rejected := 0, 0;
    for i := 0 to |candidates|
      invariant errors == [] <==> AllAcceptable(candidates[..i])
      invariant errors == [] ==> calls == CallsOf(candidates[..i])
      invariant rejected == RejectedCount(candidates[..i]) && accepted + rejected == i
      invariant Explained(errors, candidates[..i])
    {
      ExplainedNext(errors, candidates, i);
      var c := candidates[i];
      assert candidates[..i + 1][..i] == candidates[..i] && candidates[..i + 1][i] == c;
      assert AllAcceptable(candidates[..i + 1]) <==> AllAcceptable(candidates[..i]) && Acceptable(c) by {
        ExtendAcceptable(candidates, i);
      }
      if c.name == "" {
        errors, rejected := errors + [MissingName(i)], rejected + 1;
        continue;
      }
      if c.argumentsError {
        errors, rejected := errors + [ArgumentsError(i)], rejected + 1;
        continue;
      }
      if c.payload.InputText? {
        if c.payload.text.None? {
          errors, rejected := errors + [MissingInputText(i)], rejected + 1;
          continue;
        }
      } else if c.payload.NoArguments? {
        errors, rejected := errors + [MissingArguments(i)], rejected + 1;
        continue;
      } else if c.payload.NonObjectArguments? {
        errors, rejected := errors + [ArgumentsNotObject(i)], rejected + 1;
        continue;
      }
      calls := calls + [Call(c.name)];
      accepted := accepted + 1;
    }
    assert candidates[..|candidates|] == candidates;
    if errors != [] {
      calls := [];
    } else if response.declaresToolCalls && calls == [] {
      errors := errors + [NoUsableCalls];
    }
    parsed := Interpreted(calls, errors, accepted, rejected);
  }

  lemma ExtendAcceptable(candidates: seq<Candidate>, i: nat)
    requires i < |candidates|
    ensures AllAcceptable(candidates[..i + 1]) <==> AllAcceptable(candidates[..i]) && Acceptable(candidates[i])
  {
    if AllAcceptable(candidates[..i + 1]) {
      forall j | 0 <= j < i ensures Acceptable(candidates[..i][j]) {
        assert candidates[..i + 1][j] == candidates[..i][j];
      }
      assert candidates[..i + 1][i] == candidates[i];
    }
  }
}
