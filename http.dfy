/** The outcome of a `fetch`, with the network itself left out. */
module Http {

  /**
   * A rejected `fetch` (the network failed), or a response with its status
   * line and the document the page parses to; `D` is the shape of that
   * document as the caller's queries see it.
   */
  datatype Reply<D> = NetworkFailure(message: string) | Response(status: nat, statusText: string, document: D)

  /** `response.ok`: the status is in the range 200-299. */
  predicate IsOk(status: nat) {
    200 <= status <= 299
  }

  /** The reply is a response whose status is successful. */
  predicate Succeeded<D>(reply: Reply<D>) {
    reply.Response? && IsOk(reply.status)
  }
}
