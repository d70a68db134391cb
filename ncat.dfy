/** The request orchestrator: the per-mode table of endpoints and required
    fields, and the NCAT client object that validates a request, builds its
    query string, sends one GET and maps what the transport reports to a
    result or an error. */
module Orchestrator {
  import opened Exceptions
  import opened Parameters
  import opened QueryString
  import Transport

  /** The five conversion modes, one per public entry point of the client. */
  datatype Mode = LLH | SPC | UTM | XYZ | USNG

  /** The relative path each entry point sends its request to. */
  function Endpoint(m: Mode): (e: string)
    ensures e != "" && '?' !in e && '/' !in e
  {
    match m
    case LLH => "llh"
    case SPC => "spc"
    case UTM => "utm"
    case XYZ => "xyz"
    case USNG => "usng"
  }

  /** The names each entry point requires, in the order they are checked.
      UTM keeps `spcZone`: the service's documentation calls it required,
      although the live service accepts requests without it. */
  function RequiredFields(m: Mode): (r: seq<string>)
    ensures forall i, j :: 0 <= i < j < |r| ==> r[i] != r[j]
    ensures "inDatum" in r && "outDatum" in r
  {
    match m
    case LLH => ["lat", "lon", "inDatum", "outDatum"]
    case SPC => ["northing", "easting", "inDatum", "outDatum", "spcZone"]
    case UTM => ["northing", "easting", "inDatum", "outDatum", "spcZone", "utmZone"]
    case XYZ => ["x", "y", "z", "inDatum", "outDatum"]
    case USNG => ["usng", "inDatum", "outDatum"]
  }

  /** Across the table: UTM asks for everything SPC does plus its zone, and
      no two modes share an endpoint. */
  lemma RequiredFieldTable(m: Mode, n: Mode)
    ensures RequiredFields(UTM) == RequiredFields(SPC) + ["utmZone"]
    ensures Endpoint(m) == Endpoint(n) ==> m == n
  {
  }

  /** The body of a successful response once decoded: the service answers
      with a JSON object of string fields; the decoder yields Null for a body
      it cannot read. */
  datatype Json = Null | Object(fields: map<string, string>)

  /** The reason every connection failure is reported with. */
  const ConnectFailureReason: string := "The connection with the NCAT server could not be established"

  /** The URL one request goes to, relative to the service root. */
  function Url(endpoint: string, given: Params): string
  {
    endpoint + "?" + Join(given)
  }

  /** What the client makes of the transport's answer. */
  function MapTransportOutcome(o: Transport.Outcome, decode: string -> Json): (r: Result<Json>)
    ensures r.Success? <==> o.Ok?
    ensures o.Ok? ==> r.value == decode(o.body)
    ensures (r.Failure? && r.error.CannotConnect?) <==> o.ConnectFailed?
    ensures o.ConnectFailed? ==> r.error.reason == ConnectFailureReason
    ensures r == Failure(Timeout) <==> o.HttpError? && o.status == 408
    ensures o.HttpError? && o.status != 408 ==> r == Failure(UpstreamError(o.status, o.detail))
    ensures !(r.Failure? && r.error.MissingParameter?)
  {
    match o
    case ConnectFailed => Failure(CannotConnect(ConnectFailureReason))
    case HttpError(status, detail) =>
      // The status is compared loosely with the string '408', which for an
      // integer status is numeric equality with 408.
      if status == 408 then Failure(Timeout) else Failure(UpstreamError(status, detail))
    case Ok(body) => Success(decode(body))
  }

  /** The outcome of one request against a transport that answers a GET with
      `respond(url)`. */
  function RequestOutcome(endpoint: string, required: seq<string>, given: Params,
                          respond: string -> Transport.Outcome, decode: string -> Json): (r: Result<Json>)
    ensures r.Failure? && r.error.MissingParameter? ==>
      r.error.name in required && !HasKey(given, r.error.name)
    ensures !(r.Failure? && r.error.MissingParameter?) ==>
      AllPresent(required, given) && r == MapTransportOutcome(respond(Url(endpoint, given)), decode)
  {
    FirstMissingCharacterised(required, given);
    match FirstMissing(required, given)
    case Some(name) => Failure(MissingParameter(name))
    case None => MapTransportOutcome(respond(Url(endpoint, given)), decode)
  }

  /** A request fails with MissingParameter exactly when some required name
      is absent, and then it names the first absent one in list order;
      whatever the transport would have answered plays no part. */
  lemma MissingParameterFirst(endpoint: string, required: seq<string>, given: Params,
                              respond: string -> Transport.Outcome, respond': string -> Transport.Outcome,
                              decode: string -> Json)
    ensures var r := RequestOutcome(endpoint, required, given, respond, decode);
      (r.Failure? && r.error.MissingParameter?) <==> !AllPresent(required, given)
    ensures var r := RequestOutcome(endpoint, required, given, respond, decode);
      r.Failure? && r.error.MissingParameter? ==>
        exists i :: 0 <= i < |required| && required[i] == r.error.name &&
          !HasKey(given, required[i]) && AllPresent(required[..i], given)
    ensures !AllPresent(required, given) ==>
      RequestOutcome(endpoint, required, given, respond, decode) ==
      RequestOutcome(endpoint, required, given, respond', decode)
  {
    FirstMissingCharacterised(required, given);
  }

  /** For every mode, leaving out any one of its required fields from an
      otherwise complete request makes it fail with MissingParameter naming
      that field, whatever the transport. */
  lemma OmittedFieldIsReported(m: Mode, given: Params, f: string,
                               respond: string -> Transport.Outcome, decode: string -> Json)
    requires AllPresent(RequiredFields(m), given)
    requires f in RequiredFields(m)
    ensures RequestOutcome(Endpoint(m), RequiredFields(m), Remove(given, f), respond, decode) ==
      Failure(MissingParameter(f))
  {
    FirstMissingAfterRemove(RequiredFields(m), given, f);
  }

  /** A complete request against a transport that answers 408 to everything
      fails with Timeout, whatever the mode and the parameters. */
  lemma TimeoutOn408(m: Mode, given: Params, respond: string -> Transport.Outcome, decode: string -> Json)
    requires AllPresent(RequiredFields(m), given)
    requires forall url :: respond(url).HttpError? && respond(url).status == 408
    ensures RequestOutcome(Endpoint(m), RequiredFields(m), given, respond, decode) == Failure(Timeout)
  {
    FirstMissingCharacterised(RequiredFields(m), given);
  }

  /** The client object. Its transport and decoder are fixed when it is
      built and never reassigned, so a request's outcome depends only on its
      arguments and on what the transport answers. */
  class NCAT {
    const client: Transport.Client
    const decode: string -> Json

    constructor (client: Transport.Client, decode: string -> Json)
      ensures this.client == client && this.decode == decode
    {
      this.client := client;
      this.decode := decode;
    }

    /** The presence check: walks `required` in order and stops at the first
        name that is not a key of `given`, which it returns. */
    method CheckForRequiredParameters(required: seq<string>, given: Params) returns (missing: Option<string>)
      ensures missing == FirstMissing(required, given)
    {
      var i := 0;
      while i < |required|
        invariant 0 <= i <= |required|
        invariant FirstMissing(required[i..], given) == FirstMissing(required, given)
      {
        assert required[i..][1..] == required[i + 1..];
        if !HasKey(given, required[i]) {
          return Some(required[i]);
        }
        i := i + 1;
      }
      return None;
    }

    /** Appends `key=value&` for every parameter, then drops the final
        character. */
    method BuildQueryString(given: Params) returns (q: string)
      ensures q == Join(given)
    {
      var acc := "";
      var i := 0;
      while i < |given|
        invariant 0 <= i <= |given|
        invariant i == 0 ==> acc == ""
        invariant i > 0 ==> acc == Join(given[..i]) + "&"
      {
        assert given[..i + 1][..i] == given[..i];
        acc := acc + given[i].0 + "=" + given[i].1 + "&";
        i := i + 1;
      }
      assert given[..|given|] == given;
      q := if acc == "" then "" else acc[..|acc| - 1];
    }

    /** Validate, build the query string, send one GET and map its outcome.
        A request that fails validation sends nothing; any other sends
        exactly one GET, to the endpoint followed by `?` and the query. */
    method MakeRequest(endpoint: string, required: seq<string>, given: Params) returns (r: Result<Json>)
      modifies client
      ensures r == RequestOutcome(endpoint, required, given, client.respond, decode)
      ensures client.sent == old(client.sent) +
        (if FirstMissing(required, given).None? then [Url(endpoint, given)] else [])
    {
      var missing := CheckForRequiredParameters(required, given);
      if missing.Some? {
        return Failure(MissingParameter(missing.value));
      }
      var query := BuildQueryString(given);
      var o := client.Get(endpoint + "?" + query);
      r := MapTransportOutcome(o, decode);
    }

    /** The per-mode entry points (`llhRequest`, `spcRequest`, `utmRequest`,
        `xyzRequest`, `usngRequest`): the mode's endpoint and required list,
        then MakeRequest. */
    method Convert(m: Mode, given: Params) returns (r: Result<Json>)
      modifies client
      ensures r == RequestOutcome(Endpoint(m), RequiredFields(m), given, client.respond, decode)
      ensures client.sent == old(client.sent) +
        (if AllPresent(RequiredFields(m), given) then [Url(Endpoint(m), given)] else [])
    {
      FirstMissingCharacterised(RequiredFields(m), given);
      r := MakeRequest(Endpoint(m), RequiredFields(m), given);
    }
  }

  /** Two identical requests on the same client give identical results:
      nothing the first one does changes what the second one computes. */
  method ConvertIsRepeatable(ncat: NCAT, m: Mode, given: Params) returns (r1: Result<Json>, r2: Result<Json>)
    modifies ncat.client
    ensures r1 == r2
  {
    r1 := ncat.Convert(m, given);
    r2 := ncat.Convert(m, given);
  }
}
