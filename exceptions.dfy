/** The error taxonomy of the NCAT client: the three exception classes the
    client defines itself, plus the transport's own HTTP error, which the
    orchestrator rethrows unchanged. */
module Exceptions {

  /** One constructor per exception class that can reach the caller.
      - MissingParameter: a required parameter is not a key of the request
        (the constructor takes only the parameter name);
      - CannotConnect: the request never reached the server;
      - Timeout: the server answered 408 (the constructor takes no argument,
        so this error carries no request data);
      - UpstreamError: any other HTTP error, with its status and its message
        as the transport produced them. */
  datatype Error =
    | MissingParameter(name: string)
    | CannotConnect(reason: string)
    | Timeout
    | UpstreamError(status: int, detail: string)

  /** What a request returns: the decoded body, or the error it raises. */
  datatype Result<T> = Success(value: T) | Failure(error: Error)

  const MissingParameterPrefix: string := "Missing Parameter '"
  // The three-n spelling is the library's own and is part of its output.
  const CannotConnectPrefix: string := "Cannot connnect to NCAT: "
  // Split in two literals only so that the verifier can see its characters.
  const TimeoutMessage: string := "The connection to the NCAT server " + "has timed out"

  /** The message an error carries, as its exception constructor builds it. */
  function Message(e: Error): (m: string)
    ensures e.MissingParameter? ==>
      MissingParameterPrefix <= m && m[|MissingParameterPrefix|..] == e.name + "'"
    ensures e.CannotConnect? ==>
      CannotConnectPrefix <= m && m[|CannotConnectPrefix|..] == e.reason
    ensures e.Timeout? ==> m == TimeoutMessage
    ensures e.UpstreamError? ==> m == e.detail
  {
    match e
    case MissingParameter(name) => MissingParameterPrefix + name + "'"
    case CannotConnect(reason) => CannotConnectPrefix + reason
    case Timeout => TimeoutMessage
    case UpstreamError(_, detail) => detail
  }

  /** The MissingParameter message names its parameter verbatim, so two
      different parameter names never share a message. */
  lemma MissingParameterMessageInjective(a: string, b: string)
    ensures Message(MissingParameter(a)) == Message(MissingParameter(b)) ==> a == b
  {
    var ma, mb := Message(MissingParameter(a)), Message(MissingParameter(b));
    if ma == mb {
      var n := |MissingParameterPrefix|;
      assert a + "'" == ma[n..] == mb[n..] == b + "'";
      assert a == (a + "'")[..|a|];
      assert b == (b + "'")[..|b|];
    }
  }

  /** Every connection-failure message starts with the fixed prefix, and
      different reasons never share a message. */
  lemma CannotConnectMessageInjective(a: string, b: string)
    ensures CannotConnectPrefix <= Message(CannotConnect(a))
    ensures Message(CannotConnect(a)) == Message(CannotConnect(b)) ==> a == b
  {
  }

  /** The first letter of a message the client builds itself gives its kind. */
  lemma KindLetter(e: Error)
    requires !e.UpstreamError?
    ensures Message(e)[0] == (if e.MissingParameter? then 'M' else if e.CannotConnect? then 'C' else 'T')
  {
  }

  /** Among the errors the client raises itself (every kind but the rethrown
      HTTP error), the message determines the error: kinds are told apart by
      their fixed prefixes, and each kind's message is injective. */
  lemma {:induction false} MessageIdentifiesError(e1: Error, e2: Error)
    requires !e1.UpstreamError? && !e2.UpstreamError?
    ensures Message(e1) == Message(e2) ==> e1 == e2
  {
    var m1, m2 := Message(e1), Message(e2);
    if m1 == m2 {
      // The first character tells the kind: 'M', 'C' or 'T'.
      KindLetter(e1);
      KindLetter(e2);
      match e1
      case MissingParameter(a) =>
        MissingParameterMessageInjective(a, e2.name);
      case CannotConnect(a) =>
        CannotConnectMessageInjective(a, e2.reason);
      case Timeout =>
    }
  }
}
