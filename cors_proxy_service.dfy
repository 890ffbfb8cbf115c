/**
 * The relay handler deployed as a stand-alone service: it answers CORS
 * preflight, refuses every other method but POST with 405 (section 15.5.6
 * of RFC 9110), and returns the same CORS header set on every branch.
 */
module ServiceProxy {
  import opened Wrappers
  import opened Relay

  const CorsHeaders: map<string, string> := map[
    "Access-Control-Allow-Origin" := "*",
    "Access-Control-Allow-Headers" := "Content-Type",
    "Access-Control-Allow-Methods" := "POST, OPTIONS"]

  /** Everything the handler decides before it awaits `fetch`. */
  function Decide(event: LambdaEvent): (s: Step)
    ensures event.httpMethod == "OPTIONS" ==>
      s == Respond(LambdaResponse(200, Some(CorsHeaders), Blank))
    ensures event.httpMethod != "OPTIONS" && event.httpMethod != "POST" ==>
      s == Respond(LambdaResponse(405, Some(CorsHeaders), Problem("Method not allowed")))
    ensures s.Fetch? <==> event.httpMethod == "POST" && event.body.Fields? && Truthy(event.body.targetUrl)
    ensures s.Respond? ==> s.response.headers == Some(CorsHeaders)
  {
    if event.httpMethod == "OPTIONS" then Respond(LambdaResponse(200, Some(CorsHeaders), Blank))
    else if event.httpMethod != "POST" then
      Respond(LambdaResponse(405, Some(CorsHeaders), Problem("Method not allowed")))
    else AfterMethodGate(event.body, Some(CorsHeaders))
  }

  /** `exports.handler`, with the outcome of the awaited `fetch` as an input. */
  function Handle(event: LambdaEvent, outcome: FetchOutcome): (r: LambdaResponse)
    ensures r.headers == Some(CorsHeaders)
    ensures Decide(event).Fetch? && outcome.Fetched? ==>
      r.statusCode == 200 && r.body.Envelope? && r.body.success == Ok(outcome.status) &&
      r.body.statusCode == outcome.status && r.body.response == outcome.text
    ensures Decide(event).Fetch? && outcome.FetchThrew? ==>
      r.statusCode == 500 && r.body == Failure(outcome.message)
  {
    Run(Decide(event), outcome, Some(CorsHeaders))
  }

  /**
   * A POST whose body parses with a truthy `target_url` is relayed as a GET
   * of that target whose headers are the defaults overridden key by key by
   * the caller's headers.
   */
  lemma FetchesTargetWithMergedHeaders(target: JsValue, custom: Option<map<string, string>>)
    requires Truthy(target)
    ensures var s := Decide(LambdaEvent("POST", Fields(target, custom)));
      s.Fetch? && s.request.url == target && s.request.verb == "GET" &&
      (forall k :: custom.Some? && k in custom.value ==> s.request.headers[k] == custom.value[k]) &&
      (forall k :: k in DefaultHeaders && (custom.None? || k !in custom.value) ==>
         s.request.headers[k] == DefaultHeaders[k])
  {
  }
}
