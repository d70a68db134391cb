/** The library's own test scenarios, stated about the model. Numbers are
    given in the string form PHP's conversion gives them (100.0 becomes
    "100", -98.5421515000 becomes "-98.5421515"). */
module Scenarios {
  import opened Exceptions
  import opened Parameters
  import opened QueryString
  import opened Orchestrator
  import Transport

  /** The parameters of the query-string test, in the order given there. */
  function QueryTestParams(): Params
  {
    [("lat", "39.2240867222"), ("lon", "-98.5421515"), ("orthoHt", "100"),
     ("inDatum", "NAD83(1986)"), ("outDatum", "NAD83(2011)"),
     ("inVertDatum", "NGVD29"), ("outVertDatum", "NAVD88")]
  }

  /** The exact query string of that test: pairs in insertion order, the
      datum names with their parentheses left unencoded. */
  lemma QueryStringOfTest()
    ensures Join(QueryTestParams()) ==
      "lat=39.2240867222" + "&" + "lon=-98.5421515" + "&" + "orthoHt=100" + "&" +
      "inDatum=NAD83(1986)" + "&" + "outDatum=NAD83(2011)" + "&" +
      "inVertDatum=NGVD29" + "&" + "outVertDatum=NAVD88"
  {
    var ps := QueryTestParams();
    var q1 := [ps[0]];
    assert Join(q1) == "lat=39.2240867222";
    var q2 := q1 + [ps[1]];
    JoinAppend(q1, ps[1]);
    assert Pair(ps[1]) == "lon=-98.5421515";
    var q3 := q2 + [ps[2]];
    JoinAppend(q2, ps[2]);
    assert Pair(ps[2]) == "orthoHt=100";
    var q4 := q3 + [ps[3]];
    JoinAppend(q3, ps[3]);
    assert Pair(ps[3]) == "inDatum=NAD83(1986)";
    var q5 := q4 + [ps[4]];
    JoinAppend(q4, ps[4]);
    assert Pair(ps[4]) == "outDatum=NAD83(2011)";
    var q6 := q5 + [ps[5]];
    JoinAppend(q5, ps[5]);
    assert Pair(ps[5]) == "inVertDatum=NGVD29";
    JoinAppend(q6, ps[6]);
    assert Pair(ps[6]) == "outVertDatum=NAVD88";
    assert ps == q6 + [ps[6]];
  }

  /** The complete LLH request of the timeout test: all four required fields
      and three optional ones. */
  function LlhTestParams(): Params
  {
    [("lat", "40"), ("lon", "-80"), ("orthoHt", "99"),
     ("inDatum", "nad83(1986)"), ("outDatum", "nad83(2011)"),
     ("inVertDatum", "NGVD29"), ("outVertDatum", "NAVD88")]
  }

  /** A transport that answers every GET with HTTP 408. */
  function Answer408(url: string): Transport.Outcome
  {
    Transport.HttpError(408, "Timeout")
  }

  /** The timeout test: that request, against a transport answering 408,
      fails with Timeout. */
  lemma LlhTimeoutTest(decode: string -> Json)
    ensures RequestOutcome(Endpoint(LLH), RequiredFields(LLH), LlhTestParams(), Answer408, decode) ==
      Failure(Timeout)
  {
    var ps := LlhTestParams();
    assert ps[0].0 == "lat" && ps[1].0 == "lon" && ps[3].0 == "inDatum" && ps[4].0 == "outDatum";
    assert AllPresent(RequiredFields(LLH), ps);
    TimeoutOn408(LLH, ps, Answer408, decode);
  }
}
