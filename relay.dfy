/**
 * What the two relay handlers (the Lambda-style `handler` functions that
 * forward a provisioning command) have in common: the event they receive,
 * the request they hand to `fetch`, the result of that fetch (an input of
 * the model), the JSON body they answer with, and the merge of default and
 * caller-supplied headers.
 */
module Relay {
  import opened Wrappers

  /** A JavaScript value as far as the handlers inspect `target_url`. */
  datatype JsValue = Undefined | Null | Bool(b: bool) | Num(n: int) | Str(s: string)

  /** JavaScript truthiness (`!target_url`); NaN is not modelled. */
  predicate Truthy(v: JsValue) {
    match v
    case Undefined => false
    case Null => false
    case Bool(b) => b
    case Num(n) => n != 0
    case Str(s) => s != ""
  }

  /**
   * The outcome of `const { target_url, headers = {} } = JSON.parse(event.body)`:
   * either it throws (unparsable or null body) with an engine message, or it
   * yields the two fields; `None` headers means the key is absent.
   */
  datatype RequestBody = Throws(message: string) | Fields(targetUrl: JsValue, headers: Option<map<string, string>>)

  datatype LambdaEvent = LambdaEvent(httpMethod: string, body: RequestBody)

  datatype FetchRequest = FetchRequest(url: JsValue, verb: string, headers: map<string, string>)

  /** What the awaited `fetch` and `response.text()` produce: a thrown error or a response. */
  datatype FetchOutcome =
    | FetchThrew(message: string)
    | Fetched(status: int, text: string, headers: map<string, string>)

  /** The JSON object a handler writes into its response body (`Blank` is the empty string). */
  datatype RelayBody =
    | Blank
    | Problem(error: string)
    | Envelope(success: bool, statusCode: int, response: string, headers: map<string, string>)
    | Failure(error: string)

  /** `{ statusCode, headers?, body }`; `None` headers means the key is absent. */
  datatype LambdaResponse = LambdaResponse(statusCode: int, headers: Option<map<string, string>>, body: RelayBody)

  /** Either the handler answers at once, or it calls `fetch` with a request. */
  datatype Step = Respond(response: LambdaResponse) | Fetch(request: FetchRequest)

  const UserAgent: string := "Mozilla/5.0 (Windows NT 10.0; Win64; x64) AppleWebKit/537.36 (KHTML, like Gecko) Chrome/134.0.0.0 Safari/537.36"
  const AcceptHtml: string := "text/html,application/xhtml+xml,application/xml;q=0.9,image/avif,image/webp,*/*;q=0.8"

  /** The three headers every relayed request starts from. */
  const DefaultHeaders: map<string, string> :=
    map["User-Agent" := UserAgent, "Accept" := AcceptHtml, "Connection" := "keep-alive"]

  /**
   * `{ ...defaults, ...custom }`: every custom header wins over the default of
   * the same name, every other default is kept, and nothing else is added.
   * Names are compared as object keys, case-sensitively.
   */
  function MergeHeaders(custom: Option<map<string, string>>): (h: map<string, string>)
    ensures custom.None? ==> h == DefaultHeaders
    ensures custom.Some? ==> h.Keys == DefaultHeaders.Keys + custom.value.Keys
    ensures custom.Some? ==> forall k :: k in custom.value ==> h[k] == custom.value[k]
    ensures forall k :: k in DefaultHeaders && (custom.None? || k !in custom.value) ==> h[k] == DefaultHeaders[k]
  {
    match custom
    case None => DefaultHeaders
    case Some(c) => DefaultHeaders + c
  }

  /** `response.ok`: the status is in the range 200-299. */
  predicate Ok(status: int) {
    200 <= status <= 299
  }

  /**
   * What a handler answers after `fetch` returned or threw: 200 with the
   * envelope whatever the upstream status, or 500 with `success: false`.
   */
  function Complete(outcome: FetchOutcome, headers: Option<map<string, string>>): (r: LambdaResponse)
    ensures r.headers == headers
    ensures outcome.Fetched? ==>
      r.statusCode == 200 && r.body == Envelope(Ok(outcome.status), outcome.status, outcome.text, outcome.headers)
    ensures outcome.FetchThrew? ==> r.statusCode == 500 && r.body == Failure(outcome.message)
  {
    match outcome
    case Fetched(status, text, h) => LambdaResponse(200, headers, Envelope(Ok(status), status, text, h))
    case FetchThrew(message) => LambdaResponse(500, headers, Failure(message))
  }

  /**
   * Validation of a POST body shared by both handlers: a throwing parse is
   * a 500, a falsy `target_url` a 400, otherwise a GET of the target with
   * the merged headers.
   */
  function AfterMethodGate(body: RequestBody, headers: Option<map<string, string>>): (s: Step)
    ensures s.Fetch? <==> body.Fields? && Truthy(body.targetUrl)
    ensures s.Fetch? ==> s.request == FetchRequest(body.targetUrl, "GET", MergeHeaders(body.headers))
    ensures s.Respond? ==> s.response.headers == headers
    ensures s.Respond? && body.Throws? ==> s.response.statusCode == 500 && s.response.body == Failure(body.message)
    ensures s.Respond? && body.Fields? ==> s.response.statusCode == 400 && s.response.body == Problem("target_url is required")
  {
    match body
    case Throws(message) => Respond(LambdaResponse(500, headers, Failure(message)))
    case Fields(target, custom) =>
      if !Truthy(target) then Respond(LambdaResponse(400, headers, Problem("target_url is required")))
      else Fetch(FetchRequest(target, "GET", MergeHeaders(custom)))
  }

  /** The whole handler: answer at once, or fetch and complete. */
  function Run(step: Step, outcome: FetchOutcome, headers: Option<map<string, string>>): LambdaResponse {
    match step
    case Respond(r) => r
    case Fetch(_) => Complete(outcome, headers)
  }
}
