/** The HTTP transport, seen from the orchestrator: a capability that sends
    one GET for a relative URL and reports what happened. Connection set-up,
    the base address and the timeouts live in the transport and are not part
    of this model. */
module Transport {

  /** What one GET can come back with. A connect failure (the request never
      reached the server) and an HTTP error response are disjoint; an HTTP
      error always carries its status code and the message of the exception
      the transport raised. */
  datatype Outcome =
    | ConnectFailed
    | HttpError(status: int, detail: string)
    | Ok(body: string)

  /** A deterministic transport: `respond` says what a GET to a URL yields,
      and the ghost log `sent` records every GET issued, in order, so that the
      number of network calls an operation makes can be stated. The PHP
      client keeps no such log. */
  class Client {
    const respond: string -> Outcome
    ghost var sent: seq<string>

    constructor (respond: string -> Outcome)
      ensures this.respond == respond && sent == []
    {
      this.respond := respond;
      sent := [];
    }

    /** Send one GET to `url`. */
    method Get(url: string) returns (o: Outcome)
      modifies this
      ensures sent == old(sent) + [url]
      ensures o == respond(url)
    {
      sent := sent + [url];
      o := respond(url);
    }
  }
}
