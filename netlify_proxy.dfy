/**
 * The relay handler deployed as a Netlify function: the same decision tree
 * as the stand-alone service, without the preflight branch and without any
 * response headers.
 */
module NetlifyProxy {
  import opened Wrappers
  import opened Relay
  import ServiceProxy

  function Decide(event: LambdaEvent): (s: Step)
    ensures event.httpMethod != "POST" ==>
      s == Respond(LambdaResponse(405, None, Problem("Method not allowed")))
    ensures s.Fetch? <==> event.httpMethod == "POST" && event.body.Fields? && Truthy(event.body.targetUrl)
    ensures s.Respond? ==> s.response.headers.None?
  {
    if event.httpMethod != "POST" then Respond(LambdaResponse(405, None, Problem("Method not allowed")))
    else AfterMethodGate(event.body, None)
  }

  function Handle(event: LambdaEvent, outcome: FetchOutcome): (r: LambdaResponse)
    ensures r.headers.None?
    ensures Decide(event).Fetch? && outcome.Fetched? ==>
      r.statusCode == 200 && r.body.Envelope? && r.body.success == Ok(outcome.status) &&
      r.body.statusCode == outcome.status
    ensures Decide(event).Fetch? && outcome.FetchThrew? ==>
      r.statusCode == 500 && r.body == Failure(outcome.message)
  {
    Run(Decide(event), outcome, None)
  }

  /**
   * The two deployments differ only in OPTIONS handling and in headers: on
   * every other method they fetch the same request and answer with the
   * same status and body.
   */
  lemma AgreesWithService(event: LambdaEvent, outcome: FetchOutcome)
    requires event.httpMethod != "OPTIONS"
    ensures Decide(event).Fetch? <==> ServiceProxy.Decide(event).Fetch?
    ensures Decide(event).Fetch? ==> Decide(event).request == ServiceProxy.Decide(event).request
    ensures Handle(event, outcome) == ServiceProxy.Handle(event, outcome).(headers := None)
  {
  }

  /** A preflight request is refused here, where the service answers it. */
  lemma PreflightDiffers(body: RequestBody, outcome: FetchOutcome)
    ensures Handle(LambdaEvent("OPTIONS", body), outcome).statusCode == 405
    ensures ServiceProxy.Handle(LambdaEvent("OPTIONS", body), outcome).statusCode == 200
  {
  }
}
