/**
 * The retry-until-valid gate of utils.py. A chain ending in a JSON output
 * parser is invoked again and again with the same input until one response is
 * a mapping that holds every expected field and passes the optional extra
 * check. The text generator is an oracle: the responses it would give, in
 * invocation order, are a finite sequence of outcomes.
 */
module Utils {
  import opened Wrappers

  /** One invoke of the chain: the parser raised, it produced `None`, or a field mapping. */
  datatype Outcome<V> = ParseFault | NoneResult | Parsed(fields: map<string, V>)

  /** The gate's reaction to one outcome: accept it, or the exception it raises and catches. */
  datatype Verdict = Accept | OutputParserError | InvalidJson | FailedAdditionalCheck

  function Judge<V>(o: Outcome<V>, expected: seq<string>, check: Option<map<string, V> -> bool>): Verdict {
    match o
    case ParseFault => OutputParserError
    case NoneResult => InvalidJson
    case Parsed(m) =>
      if exists k :: k in expected && k !in m then InvalidJson
      else if check.Some? && !check.value(m) then FailedAdditionalCheck
      else Accept
  }

  /**
   * The gate accepts exactly a parsed mapping that holds every expected field
   * and passes the check. A parse fault is an OutputParserException, a missing
   * field or `None` an InvalidJsonException, and a failed check is reported only
   * for a mapping that holds every field.
   */
  lemma JudgeMeaning<V>(o: Outcome<V>, expected: seq<string>, check: Option<map<string, V> -> bool>)
    ensures var v := Judge(o, expected, check);
      && (v == Accept <==> o.Parsed? && (forall k :: k in expected ==> k in o.fields) && (check.Some? ==> check.value(o.fields)))
      && (v == OutputParserError <==> o.ParseFault?)
      && (v == InvalidJson <==> o.NoneResult? || (o.Parsed? && exists k :: k in expected && k !in o.fields))
      && (v == FailedAdditionalCheck ==> o.Parsed? && forall k :: k in expected ==> k in o.fields)
  {
  }

  /** Some response in the script is one the gate accepts, so the gate returns. */
  predicate Answers<V>(cands: seq<Outcome<V>>, expected: seq<string>, check: Option<map<string, V> -> bool>) {
    exists i :: 0 <= i < |cands| && Judge(cands[i], expected, check) == Accept
  }

  /** The invocation whose response the gate returns: the first acceptable one. */
  function FirstAccepted<V>(cands: seq<Outcome<V>>, expected: seq<string>, check: Option<map<string, V> -> bool>): (i: nat)
    requires Answers(cands, expected, check)
    ensures i < |cands| && Judge(cands[i], expected, check) == Accept
    ensures forall j :: 0 <= j < i ==> Judge(cands[j], expected, check) != Accept
  {
    if Judge(cands[0], expected, check) == Accept then 0
    else
      assert forall j :: 1 <= j < |cands| ==> cands[1..][j - 1] == cands[j];
      1 + FirstAccepted(cands[1..], expected, check)
  }

  /** The response the gate returns. */
  function Accepted<V>(cands: seq<Outcome<V>>, expected: seq<string>, check: Option<map<string, V> -> bool>): (r: map<string, V>)
    requires Answers(cands, expected, check)
    ensures forall k :: k in expected ==> k in r
    ensures check.Some? ==> check.value(r)
  {
    cands[FirstAccepted(cands, expected, check)].fields
  }

  /**
   * get_chain_response_json: invoke until a response is not a parse fault, not
   * `None`, holds every expected field and passes the check. Returns that response
   * and the verdict on every earlier one. There is no attempt limit: when no
   * response is ever acceptable the source loops forever, which is why the
   * method asks for a script that holds an acceptable response.
   */
  method GetChainResponseJson<V>(cands: seq<Outcome<V>>, expected: seq<string>, check: Option<map<string, V> -> bool>)
    returns (res: map<string, V>, rejected: seq<Verdict>)
    requires Answers(cands, expected, check)
    ensures |rejected| < |cands| && cands[|rejected|] == Parsed(res)
    ensures forall k :: k in expected ==> k in res
    ensures check.Some? ==> check.value(res)
    ensures forall j :: 0 <= j < |rejected| ==> rejected[j] != Accept && rejected[j] == Judge(cands[j], expected, check)
    ensures res == Accepted(cands, expected, check)
  {
    rejected := [];
    var attempt := 0;
    while true
      invariant attempt == |rejected| < |cands|
      invariant exists i :: attempt <= i < |cands| && Judge(cands[i], expected, check) == Accept
      invariant forall j :: 0 <= j < attempt ==> rejected[j] != Accept && rejected[j] == Judge(cands[j], expected, check)
      decreases |cands| - attempt
    {
      var o := cands[attempt];
      var verdict := Accept;
      if o.ParseFault? {
        verdict := OutputParserError;
      } else if o.NoneResult? {
        verdict := InvalidJson;
      } else {
        var k := 0;
        while k < |expected| && verdict == Accept
          invariant 0 <= k <= |expected|
          invariant verdict == Accept || verdict == InvalidJson
          invariant verdict == Accept <==> forall j :: 0 <= j < k ==> expected[j] in o.fields
        {
          if expected[k] !in o.fields {
            verdict := InvalidJson;
          }
          k := k + 1;
        }
        if verdict == Accept && check.Some? && !check.value(o.fields) {
          verdict := FailedAdditionalCheck;
        }
      }
      if verdict == Accept {
        res := o.fields;
        ghost var first := FirstAccepted(cands, expected, check);
        assert first == attempt;
        return;
      }
      rejected := rejected + [verdict];
      attempt := attempt + 1;
    }
  }

  /**
   * With no expected fields and no check, the gate returns the first response
   * that parsed to a mapping at all, even an empty one.
   */
  lemma {:induction false} LenientGate<V>(cands: seq<Outcome<V>>, i: nat)
    requires i < |cands| && cands[i].Parsed?
    requires forall j :: 0 <= j < i ==> !cands[j].Parsed?
    ensures Answers(cands, [], None)
    ensures FirstAccepted(cands, [], None) == i
    ensures Accepted(cands, [], None) == cands[i].fields
  {
    assert Judge(cands[i], [], None) == Accept;
  }
}
