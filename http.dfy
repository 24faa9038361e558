/** What the two serverless handlers share: the request as they read it, the
    outcome of an outbound LLM call, and the responses they build. */
module Http {
  import opened Wrappers

  /** The permissive cross-origin headers every response carries. */
  const CorsHeaders: map<string, string> := map[
    "Access-Control-Allow-Origin" := "*",
    "Access-Control-Allow-Headers" := "authorization, x-client-info, apikey, content-type"
  ]

  const JsonHeaders: map<string, string> := CorsHeaders["Content-Type" := "application/json"]

  /** An incoming request: its method and the outcome of `req.json()`. */
  datatype Request<T> = Request(verb: string, body: Result<T>)

  /** The outcome of one outbound `fetch` to an LLM gateway: a reply whose
      first choice has the given text, a response that is not ok (with its
      status), or an error thrown while fetching or decoding the reply. */
  datatype Upstream = Reply(text: string) | NotOk(status: nat) | Failed(message: string)

  datatype Body<B> = Null | Error(error: string) | Json(value: B)

  datatype Response<B> = Response(status: nat, headers: map<string, string>, body: Body<B>)

  /** The answer to an OPTIONS request: no body, CORS headers only. */
  function Preflight<B>(): Response<B> {
    Response(200, CorsHeaders, Null)
  }

  function JsonOk<B>(value: B): Response<B> {
    Response(200, JsonHeaders, Json(value))
  }

  /** What the handlers' top-level `catch` returns: status 500 and `{error}`. */
  function ServerError<B>(message: string): Response<B> {
    Response(500, JsonHeaders, Error(message))
  }

  /** A missing environment variable, or one set to "", fails `if (!key)`. */
  predicate KeyMissing(key: Option<string>) {
    key.None? || key.value == ""
  }

  /** A non-preflight answer: JSON with the CORS headers, and either 200 with
      a value or 500 with an error message. */
  predicate JsonOr500<B>(r: Response<B>) {
    && r.headers == JsonHeaders
    && ((r.status == 200 && r.body.Json?) || (r.status == 500 && r.body.Error?))
  }

  /** The JSON headers are the CORS headers plus the content type. */
  lemma JsonHeadersExtendCors()
    ensures forall k :: k in CorsHeaders ==> k in JsonHeaders && JsonHeaders[k] == CorsHeaders[k]
    ensures JsonHeaders["Content-Type"] == "application/json"
    ensures "Content-Type" !in CorsHeaders
  {
  }
}
