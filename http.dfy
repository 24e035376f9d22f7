/** What an outbound HTTP call can give back: the client's own error, or a response. */
module Http {

  /** `http.StatusOK` */
  const StatusOK: int := 200

  /**
   * The outcome of one request: either the client failed (`client.Do` or
   * `http.PostForm` returned an error), or a response arrived with a status
   * code and the full text of its body.
   */
  datatype Reply = ClientError(msg: string) | Response(status: int, body: string)

  /** True when the call reached the server and the server answered 200. */
  predicate IsOK(reply: Reply)
  {
    reply.Response? && reply.status == StatusOK
  }
}
