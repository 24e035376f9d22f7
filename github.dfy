/**
 * The review fetcher: the search request it builds for a reviewer and how it
 * turns what the network and the JSON decoder give back into a list of pull
 * requests or an error.
 */
module GitHub {
  import opened Wrappers
  import opened Http

  /** One search hit: the fields of a pull request the program uses. */
  datatype Issue = Issue(htmlUrl: string, title: string)

  /** The decoded JSON body of a search response. */
  datatype SearchResult = SearchResult(totalCount: int, items: seq<Issue>)

  /**
   * What decoding the body gave: a result, or an error together with whatever
   * the decoder had already filled in before it failed.
   */
  datatype DecodeOutcome = Decoded(result: SearchResult) | DecodeFailed(msg: string, partial: SearchResult)

  /** The search request: the unescaped query string and the headers set on it. */
  datatype SearchRequest = SearchRequest(query: string, headers: map<string, string>)

  /**
   * Everything the outside world supplies to one fetch: the error
   * `http.NewRequest` returned, if any; the HTTP client, as the reply it gives
   * to a request; and the JSON decoder, as the outcome it gives for a body.
   */
  datatype SearchIO = SearchIO(newRequestError: Option<string>, client: SearchRequest -> Reply, decode: string -> DecodeOutcome)

  datatype FetchError =
    | RequestError(msg: string)
    | TransportError(msg: string)
    | ApiError(msg: string)
    | DecodeError(msg: string)

  /** Go's `([]GitHubIssue, error)` pair; a nil slice is the empty sequence. */
  datatype FetchReturn = FetchReturn(prs: seq<Issue>, err: Option<FetchError>)

  const QueryPrefix: string := "is:open is:pr review-requested:"
  const AuthorizationKey: string := "Authorization"
  const TokenScheme: string := "token "
  const ApiErrorPrefix: string := "GitHub API error: "

  /** The search query: open pull requests with a review requested from `username`. */
  function SearchQuery(username: string): (q: string)
    ensures |q| == |QueryPrefix| + |username|
    ensures q[..|QueryPrefix|] == QueryPrefix && q[|QueryPrefix|..] == username
  {
    QueryPrefix + username
  }

  /** The reviewer a query asks about, or None when it is not a review-request query. */
  function ReviewerOf(q: string): Option<string>
  {
    if |q| >= |QueryPrefix| && q[..|QueryPrefix|] == QueryPrefix then Some(q[|QueryPrefix|..]) else None
  }

  /** A query is exactly the prefix followed by the reviewer it names, and every reviewer has one. */
  lemma ReviewerOfQuery(q: string, username: string)
    ensures ReviewerOf(q) == Some(username) <==> q == SearchQuery(username)
  {
  }

  /** The value of the `Authorization` header: only set when a token is given. */
  function AuthorizationHeader(githubToken: string): (h: Option<string>)
    ensures h.Some? <==> githubToken != ""
    ensures h.Some? ==> |h.value| == |TokenScheme| + |githubToken|
    ensures h.Some? ==> h.value[..|TokenScheme|] == TokenScheme && h.value[|TokenScheme|..] == githubToken
  {
    if githubToken != "" then Some(TokenScheme + githubToken) else None
  }

  /** The request `fetchPullRequests` builds (method GET and the escaped URL are not modelled). */
  function NewSearchRequest(username: string, githubToken: string): (req: SearchRequest)
    ensures req.query == SearchQuery(username)
    ensures req.headers.Keys <= {AuthorizationKey}
    ensures AuthorizationKey in req.headers <==> githubToken != ""
    ensures AuthorizationKey in req.headers ==> req.headers[AuthorizationKey] == TokenScheme + githubToken
  {
    var headers: map<string, string> := map[];
    var auth := AuthorizationHeader(githubToken);
    SearchRequest(SearchQuery(username), if auth.Some? then headers[AuthorizationKey := auth.value] else headers)
  }

  /** The credential a request carries: the token after the scheme, or empty when unauthenticated. */
  function TokenOf(req: SearchRequest): string
  {
    if AuthorizationKey in req.headers
       && |req.headers[AuthorizationKey]| >= |TokenScheme|
       && req.headers[AuthorizationKey][..|TokenScheme|] == TokenScheme
    then req.headers[AuthorizationKey][|TokenScheme|..]
    else ""
  }

  /** The request gives back both the reviewer and the token it was built from. */
  lemma SearchRequestRoundTrip(username: string, githubToken: string)
    ensures ReviewerOf(NewSearchRequest(username, githubToken).query) == Some(username)
    ensures TokenOf(NewSearchRequest(username, githubToken)) == githubToken
  {
  }

  /** Different reviewers or different tokens never produce the same request. */
  lemma SearchRequestInjective(u1: string, t1: string, u2: string, t2: string)
    requires NewSearchRequest(u1, t1) == NewSearchRequest(u2, t2)
    ensures u1 == u2 && t1 == t2
  {
  }

  /**
   * `fetchPullRequests`: build the request, send it, reject a non-200 reply
   * with its body, decode a 200 reply. Every error path returns no items.
   */
  function FetchPullRequests(username: string, githubToken: string, io: SearchIO): (r: FetchReturn)
    ensures r.err.Some? ==> r.prs == []
    ensures r.err.None? <==>
      && io.newRequestError.None?
      && IsOK(io.client(NewSearchRequest(username, githubToken)))
      && io.decode(io.client(NewSearchRequest(username, githubToken)).body).Decoded?
    ensures r.err.None? ==>
      r.prs == io.decode(io.client(NewSearchRequest(username, githubToken)).body).result.items
    ensures io.newRequestError.Some? ==> r.err == Some(RequestError(io.newRequestError.value))
    ensures io.newRequestError.None? ==>
      var reply := io.client(NewSearchRequest(username, githubToken));
      && (reply.ClientError? ==> r.err == Some(TransportError(reply.msg)))
      && (reply.Response? && reply.status != StatusOK ==> r.err == Some(ApiError(ApiErrorPrefix + reply.body)))
      && (IsOK(reply) && io.decode(reply.body).DecodeFailed? ==> r.err == Some(DecodeError(io.decode(reply.body).msg)))
  {
    if io.newRequestError.Some? then
      FetchReturn([], Some(RequestError(io.newRequestError.value)))
    else
      var reply := io.client(NewSearchRequest(username, githubToken));
      match reply
      case ClientError(msg) => FetchReturn([], Some(TransportError(msg)))
      case Response(status, body) =>
        if status != StatusOK then
          FetchReturn([], Some(ApiError(ApiErrorPrefix + body)))
        else
          match io.decode(body)
          case DecodeFailed(msg, _) => FetchReturn([], Some(DecodeError(msg)))
          case Decoded(result) => FetchReturn(result.items, None)
  }
}
