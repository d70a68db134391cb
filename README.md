# NCAT client request orchestrator, modelled in Dafny

This project models the core of a PHP client for NOAA's NCAT coordinate
conversion web service. The client offers five conversion modes: LLH, SPC,
UTM, XYZ and USNG. For each request it does four things:

1. It checks that every field the mode requires is a key of the caller's
   parameters. It stops at the first one missing.
2. It joins the parameters into a `key=value&key=value` query string.
3. It sends one GET to `endpoint?query`.
4. It maps what the transport reports onto three kinds of error
   (CannotConnect, Timeout, the rethrown HTTP error), or returns the decoded
   body. The fourth kind, MissingParameter, comes only from step 1, before
   any GET.

Files and modules:

- `exceptions.dfy` (`Exceptions`): the error kinds and the message each
  exception constructor builds.
- `transport.dfy` (`Transport`): the transport, seen as a deterministic
  responder. A ghost log of the GETs it was sent lets the model state how
  many network calls a request makes. The PHP client keeps no such log.
- `parameters.dfy` (`Parameters`): ordered parameter sets, key presence, and
  the first missing required name.
- `query_string.dfy` (`QueryString`): the query-string join, a splitter, and
  the round trip between them.
- `ncat.dfy` (`Orchestrator`): the mode table, the outcome mapping, and the
  `NCAT` class with its methods.
- `scenarios.dfy` (`Scenarios`): two of the library's tests, stated about the
  model.

The five PHP entry points `llhRequest` … `usngRequest` differ only in the
endpoint and the required list they pass to `makeRequest`. They are modelled
as one method, `NCAT.Convert`, over the `Mode` table given by `Endpoint` and
`RequiredFields`.

Parameter values are strings already in the form PHP's string conversion
gives them. Keys are not required to be distinct. PHP arrays always have
distinct keys, but no property here depends on it, so every lemma holds for
any sequence of pairs.

## Model

| member | source | states |
|---|---|---|
| `Exceptions.Message` | src/Exceptions/RequiredParameterMissingException.php:9-11 | A MissingParameter message is the prefix `Missing Parameter '`, then the name verbatim, then `'`. A CannotConnect message is the prefix `Cannot connnect to NCAT: ` (three n's) followed by the reason. A Timeout message is always the fixed sentence. A rethrown HTTP error keeps its own message. The other two constructors are at src/Exceptions/CannotConnectToNCATException.php:11 and src/Exceptions/NCATTimeoutException.php:11. |
| `Exceptions.MissingParameterMessageInjective` | src/Exceptions/RequiredParameterMissingException.php:11 | Distinct parameter names give distinct MissingParameter messages. |
| `Exceptions.CannotConnectMessageInjective` | src/Exceptions/CannotConnectToNCATException.php:9-11 | Distinct reasons give distinct CannotConnect messages, all starting with the fixed prefix. |
| `Exceptions.MessageIdentifiesError` | src/Exceptions/NCATTimeoutException.php:9-11 | Among the errors the client raises itself, equal messages mean equal errors. The kinds are distinguishable, and the argument-free Timeout is one fixed error. |
| `Transport.Client.Get` | src/NCAT.php:77 | One GET is appended to the transport's log. The answer is the responder's outcome for that URL. |
| `Parameters.FirstMissing` | src/NCAT.php:89-96 | The validator as a function. A name it reports is one of the required names and is not a key of the parameters. |
| `Parameters.FirstMissingCharacterised` | src/NCAT.php:89-96 | Validation passes iff every required name is a key. Otherwise it names an absent required name, and every required name before it is present. |
| `Parameters.FirstMissingDependsOnlyOnKeys` | src/NCAT.php:92 | Presence is key membership (`HasKey`, the `array_key_exists` test): two parameter sets with the same keys validate alike, whatever their values (`"0"`, `""`) and order. |
| `Parameters.Remove` | tests/LLHRequestTest.php:26-28 | Filtering one key out of a parameter set, as the tests do, keeps exactly the other keys. |
| `Parameters.FirstMissingAfterRemove` | tests/UTMRequestTest.php:27-40 | Removing any one required field from a complete set makes validation name exactly that field. |
| `QueryString.Join` | src/NCAT.php:98-107 | The `key=value` pieces (`Pair`, the concatenation at src/NCAT.php:103) joined by single `&` in insertion order. The query string is empty exactly when there are no parameters. |
| `QueryString.JoinAppend` | src/NCAT.php:102-103 | Adding a parameter at the end of a non-empty set appends `&key=value` to the query string, so insertion order is output order. |
| `QueryString.SplitJoin` | src/NCAT.php:102-106 | When no key or value contains `&`, cutting the query string at `&` gives exactly the `key=value` pieces in insertion order. |
| `QueryString.JoinRoundTrip` | src/NCAT.php:102-103 | When no key or value contains `&` or `=`, splitting at `&` and then at `=` recovers the original ordered pairs. Values are not encoded. |
| `QueryString.JoinEnds` | src/NCAT.php:106 | A non-empty query string begins with the first `key=value` piece and ends with the last. No `?` or `&` is added at either end. |
| `Orchestrator.RequiredFields` | src/NCAT.php:34-67 | The five ordered lists exactly as the entry points declare them, UTM keeping `spcZone`. Its contract: each list names each field once and contains both `inDatum` and `outDatum`. |
| `Orchestrator.Endpoint` | src/NCAT.php:35-68 | The five relative paths `llh`, `spc`, `utm`, `xyz`, `usng`. Its contract: each is non-empty and contains no `?` or `/`, so the first `?` of `endpoint?query` is the one right after the path. The query itself is not encoded and may hold further `?`. |
| `Orchestrator.RequiredFieldTable` | src/NCAT.php:32-69 | UTM's list is SPC's plus `utmZone`, so it keeps `spcZone`. No two modes share an endpoint. |
| `Orchestrator.MapTransportOutcome` | src/NCAT.php:78-86 | Success iff the transport returned a body, and the value is that body decoded. CannotConnect iff the connection failed, always with the fixed reason. Timeout iff the HTTP status is 408. Any other HTTP error comes back with its status and message. The mapping never yields MissingParameter. |
| `Orchestrator.RequestOutcome` | src/NCAT.php:71-87 | makeRequest's result as a function. A MissingParameter error names a required name that is absent. Any other result means every required name is present, and the result is the transport's answer for `endpoint?query` (`Url`, the string built at src/NCAT.php:77), mapped. |
| `Orchestrator.MissingParameterFirst` | src/NCAT.php:71-77 | A request fails with MissingParameter iff a required name is absent. The error names the first absent name in list order. The transport's behaviour cannot change that outcome. |
| `Orchestrator.OmittedFieldIsReported` | tests/LLHRequestTest.php:26-39 | For every mode, omitting any one required field from a complete request fails with MissingParameter naming that field. |
| `Orchestrator.TimeoutOn408` | src/NCAT.php:81-84 | For every mode, a complete request against a transport that answers 408 fails with Timeout. |
| `Orchestrator.NCAT.constructor` | src/NCAT.php:21-30 | The client keeps the transport and decoder it is given. Both are constant fields, never reassigned. |
| `Orchestrator.NCAT.CheckForRequiredParameters` | src/NCAT.php:89-96 | The loop with early exit returns the first missing required name, or none. |
| `Orchestrator.NCAT.BuildQueryString` | src/NCAT.php:98-107 | Appending `key=value&` per pair and then dropping the last character gives exactly `Join`. The empty set gives `""`. |
| `Orchestrator.NCAT.MakeRequest` | src/NCAT.php:71-87 | The result is `RequestOutcome`. On a validation failure no GET is sent. Otherwise exactly one GET is sent, to `endpoint?query`. |
| `Orchestrator.NCAT.Convert` | src/NCAT.php:32-69 | Each entry point is `MakeRequest` with its mode's endpoint and required list. It sends one GET iff all required fields are present. |
| `Orchestrator.ConvertIsRepeatable` | src/NCAT.php:21 | Two identical requests on one client return identical results. |
| `Scenarios.QueryStringOfTest` | tests/NCATTest.php:15-28 | The test's seven parameters serialise to exactly the expected string, with `NAD83(1986)` unencoded. |
| `Scenarios.LlhTimeoutTest` | tests/LLHRequestTest.php:43-57 | The test's complete LLH request, against a transport answering 408, fails with Timeout. |

## Left out

- Building the default Guzzle client (base URI `https://geodesy.noaa.gov/api/ncat/`, connect timeout 6 s, total timeout 10 s) is transport configuration. The model's `NCAT` constructor always receives its transport.
- `json_decode` is a foreign library call. It becomes the `decode` function the client is built with. Because it is arbitrary, an unreadable body (PHP's `null`, `Json.Null`) is passed through like any other result.
- The decoded value is restricted to what the service sends: a flat JSON object of string fields (`Json.Object`), or `Json.Null`. PHP's `json_decode` can also return arrays, numbers, booleans and nested objects; no contract depends on this restriction.
- PHP's conversion of floats, integers and booleans to strings inside the concatenation is not modelled (for example `100.0` becomes `100`). Values are strings already in that form.
- A `RequestException` without a response (`getResponse()` returning null) is not modelled. In PHP that case fails with an error on a null object. In the model every HTTP error carries a status.
- Guzzle's exception hierarchy and the order of the `catch` clauses are not modelled. The transport's outcome type makes a connect failure and an HTTP error disjoint.
- Which statuses count as HTTP errors is decided by the transport and is not modelled. The model only maps the `HttpError` outcome it is handed.
- Response payloads (thousands separators, the `"N/A"` sentinel) are passed through uninterpreted.
- `Orchestrator.ConvertIsRepeatable` assumes a deterministic transport, modelled as a fixed function from URL to outcome. A transport whose answers change over time is not modelled.
