/**
 * The payment controller: starting a payment with the gateway, the
 * gateway's webhook (signature check, marking the payment, creating the
 * subscription, relaying the provisioning command), and the browser
 * callback. Gateway replies, the relay's reply, the clock and the HMAC are
 * inputs of the model.
 */
module PaymentController {
  import opened Wrappers
  import opened Store
  import opened Provisioning
  import Calendar
  import Relay
  import Session
  import ServiceProxy
  import opened Http

  /**
   * The gateway's shared secret and `hash_hmac('sha512', data, key)` as
   * lower-case hex, left uninterpreted: the model only compares its results.
   */
  datatype Gateway = Gateway(secretKey: string, hmacSha512: (string, string) -> string)

  /** The HTTP client's success test: a status from 200 to 299. */
  predicate Successful(status: int) {
    200 <= status <= 299
  }

  // ---------------------------------------------------------------- signature

  /**
   * verifyWebhookSignature as written: a timing-safe comparison of the header with the computed HMAC.
   * A missing `x-paystack-signature` header reaches `hash_equals` as null,
   * which raises a TypeError rather than answering false.
   */
  datatype SignatureCheck = Verdict(valid: bool) | TypeError

  function VerifyWebhookSignature(header: Option<string>, rawBody: string, gateway: Gateway): (r: SignatureCheck)
    ensures r.TypeError? <==> header.None?
    ensures r == Verdict(true) <==> header == Some(gateway.hmacSha512(rawBody, gateway.secretKey))
  {
    match header
    case None => TypeError
    case Some(signature) => Verdict(signature == gateway.hmacSha512(rawBody, gateway.secretKey))
  }

  /**
   * The check as intended, which the webhook model uses: a request is
   * authentic exactly when its signature header is present and equals the
   * HMAC of the raw body under the shared secret.
   */
  function SignatureValid(header: Option<string>, rawBody: string, gateway: Gateway): (valid: bool)
    ensures valid <==> header == Some(gateway.hmacSha512(rawBody, gateway.secretKey))
    ensures valid <==> VerifyWebhookSignature(header, rawBody, gateway) == Verdict(true)
  {
    header.Some? && header.value == gateway.hmacSha512(rawBody, gateway.secretKey)
  }

  /**
   * The discrepancy: without the header the code as written raises (a
   * TypeError, which the handler's `catch (\Exception)` does not catch, so
   * the framework answers 500), where the intended check answers false and
   * the handler answers 400 "Invalid signature". With a header present the
   * two agree.
   */
  lemma MissingSignatureRaises(rawBody: string, gateway: Gateway, header: Option<string>)
    ensures VerifyWebhookSignature(None, rawBody, gateway) == TypeError
    ensures !SignatureValid(None, rawBody, gateway)
    ensures header.Some? ==> VerifyWebhookSignature(header, rawBody, gateway) == Verdict(SignatureValid(header, rawBody, gateway))
  {
  }

  // ------------------------------------------------------------ relay reply

  /**
   * What decoding the reply body into an associative array yields, as far as the controller
   * looks at it: something that is not a non-empty array, or an array whose
   * `success` entry is absent or null (`None`) or has the given truthiness,
   * and which may or may not carry `status_code`.
   */
  datatype ProxyReply = NotAnObject | Decoded(success: Option<bool>, hasStatusCode: bool)

  /** The relay call's result: curl's error text (empty when there was none) and the decoded reply body. */
  datatype CurlOutcome = CurlOutcome(error: string, reply: ProxyReply)

  datatype RelayVerdict = TransportFailed | MalformedReply | Refused | Delivered

  /** PHP truthiness of a string. */
  predicate PhpTruthy(s: string) {
    s != "" && s != "0"
  }

  /** The four outcomes createSubscription tells apart (it logs them and keeps the subscription in every case). */
  function ClassifyRelay(c: CurlOutcome): (v: RelayVerdict)
    ensures v == TransportFailed <==> PhpTruthy(c.error)
    ensures v == Delivered <==> !PhpTruthy(c.error) && c.reply.Decoded? && c.reply.success == Some(true)
  {
    if PhpTruthy(c.error) then TransportFailed
    else match c.reply
      case NotAnObject => MalformedReply
      case Decoded(None, _) => MalformedReply
      case Decoded(Some(ok), _) => if ok then Delivered else Refused
  }

  /**
   * The success branch logs the reply's `status_code` entry; when that key is
   * missing the framework turns the warning into an exception.
   */
  predicate SuccessLogThrows(c: CurlOutcome) {
    ClassifyRelay(c) == Delivered && !c.reply.hasStatusCode
  }

  /** The JSON body POSTed to the relay: the target and the three default headers. */
  datatype RelayPost = RelayPost(targetUrl: string, headers: map<string, string>)

  function RelayPostFor(url: string): RelayPost {
    RelayPost(url, Relay.DefaultHeaders)
  }

  /** The relay handler's view of that POST. */
  function AsLambdaEvent(post: RelayPost): Relay.LambdaEvent {
    Relay.LambdaEvent("POST", Relay.Fields(Relay.Str(post.targetUrl), Some(post.headers)))
  }

  /** `json_decode` of each body the relay handlers write. */
  function PhpDecode(body: Relay.RelayBody): ProxyReply {
    match body
    case Blank => NotAnObject
    case Problem(_) => Decoded(None, false)
    case Envelope(success, _, _, _) => Decoded(Some(success), true)
    case Failure(_) => Decoded(Some(false), false)
  }

  /**
   * Through the stand-alone relay, the command is fetched as a GET with
   * exactly the default headers, and the controller sees `Delivered` exactly
   * when the target answered with a 2xx status; every other fetch result
   * (an error status, a thrown fetch) reads as `Refused`.
   */
  lemma RelayEndToEnd(url: string, outcome: Relay.FetchOutcome)
    requires url != ""
    ensures ServiceProxy.Decide(AsLambdaEvent(RelayPostFor(url))) ==
      Relay.Fetch(Relay.FetchRequest(Relay.Str(url), "GET", Relay.DefaultHeaders))
    ensures var r := ServiceProxy.Handle(AsLambdaEvent(RelayPostFor(url)), outcome);
      ClassifyRelay(CurlOutcome("", PhpDecode(r.body))) ==
        (if outcome.Fetched? && Relay.Ok(outcome.status) then Delivered else Refused)
    ensures var r := ServiceProxy.Handle(AsLambdaEvent(RelayPostFor(url)), outcome);
      !SuccessLogThrows(CurlOutcome("", PhpDecode(r.body)))
  {
    assert Relay.DefaultHeaders + Relay.DefaultHeaders == Relay.DefaultHeaders;
  }

  // ---------------------------------------------------- createSubscription

  datatype CreateResult =
    | Created(relayed: RelayPost, verdict: RelayVerdict)
    | Threw(attempted: Option<RelayPost>)

  datatype Creation = Creation(result: CreateResult, subscriptions: seq<Subscription>)

  /** The subscription row createSubscription writes for a payment. */
  function SubscriptionFor(payment: Payment, user: User, plan: Plan, cors: Cors, now: int): Subscription {
    var p := SubscriptionParams(plan.duration, plan.userLimit, now);
    Subscription(user.id, cors.id, plan.id, payment.reference, Calendar.DayOf(p.expiryAt), plan.userLimit, p.days, now)
  }

  /**
   * createSubscription: load user, plan and service (any missing one
   * raises), insert the subscription (a taken reference raises), then relay
   * the provisioning command and keep the subscription whatever comes back.
   */
  function CreateSubscription(
    payment: Payment, subscriptions: seq<Subscription>,
    users: seq<User>, plans: seq<Plan>, services: seq<Cors>, now: int, curl: CurlOutcome): (c: Creation)
    ensures c.subscriptions != subscriptions ==>
      !HasReference(subscriptions, payment.reference) &&
      |c.subscriptions| == |subscriptions| + 1 && c.subscriptions[..|subscriptions|] == subscriptions &&
      c.subscriptions[|subscriptions|].paymentReference == payment.reference
    ensures c.result.Created? || c.result.attempted.Some? ==> c.subscriptions != subscriptions
  {
    match (FindUser(users, payment.userId), FindPlan(plans, payment.planId), FindCors(services, payment.corsId))
    case (Some(user), Some(plan), Some(cors)) =>
      if HasReference(subscriptions, payment.reference) then Creation(Threw(None), subscriptions)
      else
        var p := SubscriptionParams(plan.duration, plan.userLimit, now);
        var created := subscriptions + [SubscriptionFor(payment, user, plan, cors, now)];
        var post := RelayPostFor(ProvisioningUrl(cors, user.userName, p));
        if SuccessLogThrows(curl) then Creation(Threw(Some(post)), created)
        else Creation(Created(post, ClassifyRelay(curl)), created)
    case _ => Creation(Threw(None), subscriptions)
  }

  method CreateSubscriptionFor(
    subscriptions: SubscriptionTable, payment: Payment,
    users: seq<User>, plans: seq<Plan>, services: seq<Cors>, now: int, curl: CurlOutcome)
    returns (result: CreateResult)
    requires subscriptions.Valid()
    modifies subscriptions
    ensures subscriptions.Valid()
    ensures Creation(result, subscriptions.rows) ==
      CreateSubscription(payment, old(subscriptions.rows), users, plans, services, now, curl)
  {
    var user := FindUser(users, payment.userId);
    var plan := FindPlan(plans, payment.planId);
    var cors := FindCors(services, payment.corsId);
    if user.None? || plan.None? || cors.None? {
      return Threw(None);
    }
    var p := SubscriptionParams(plan.value.duration, plan.value.userLimit, now);
    var inserted := subscriptions.Create(SubscriptionFor(payment, user.value, plan.value, cors.value, now));
    if !inserted {
      return Threw(None);
    }
    var post := RelayPostFor(ProvisioningUrl(cors.value, user.value.userName, p));
    var verdict := ClassifyRelay(curl);
    if verdict == Delivered && !curl.reply.hasStatusCode {
      return Threw(Some(post));
    }
    result := Created(post, verdict);
  }

  // ------------------------------------------------------------- handleWebhook

  /**
   * The parts of the webhook request the controller reads: the raw body and
   * signature header, and from the decoded payload `event`,
   * `data.reference` and whether `data.amount` is present (each missing key
   * raises when read).
   */
  datatype WebhookRequest = WebhookRequest(
    rawBody: string, signature: Option<string>, event: Option<string>, reference: Option<string>, hasAmount: bool)

  /** The request claims a successful charge and carries everything read on that path. */
  predicate CompleteCharge(request: WebhookRequest) {
    request.event == Some("charge.success") && request.reference.Some? && request.hasAmount
  }

  datatype WebhookOutcome = WebhookOutcome(
    response: JsonResponse, payments: seq<Payment>, subscriptions: seq<Subscription>, post: Option<RelayPost>)

  const Processed := JsonResponse(200, "Webhook processed successfully")
  const Received := JsonResponse(200, "Webhook received")
  const Failed := JsonResponse(500, "Error processing webhook")

  /** handleWebhook as a transition of the payments and subscriptions tables. */
  function Webhook(
    payments: seq<Payment>, subscriptions: seq<Subscription>,
    users: seq<User>, plans: seq<Plan>, services: seq<Cors>,
    gateway: Gateway, request: WebhookRequest, now: int, curl: CurlOutcome): (o: WebhookOutcome)
    ensures |o.payments| == |payments|
    ensures forall j :: 0 <= j < |payments| && o.payments[j] != payments[j] ==>
      SignatureValid(request.signature, request.rawBody, gateway) && CompleteCharge(request) &&
      PaymentByReference(payments, request.reference.value) == Some(j) &&
      o.payments[j] == payments[j].(status := Success)
    ensures o.subscriptions != subscriptions ==>
      SignatureValid(request.signature, request.rawBody, gateway) && CompleteCharge(request) &&
      |o.subscriptions| == |subscriptions| + 1 && o.subscriptions[..|subscriptions|] == subscriptions &&
      o.subscriptions[|subscriptions|].paymentReference == request.reference.value
  {
    if !SignatureValid(request.signature, request.rawBody, gateway) then
      WebhookOutcome(JsonResponse(400, "Invalid signature"), payments, subscriptions, None)
    else if request.event.None? then WebhookOutcome(Failed, payments, subscriptions, None)
    else if request.event.value != "charge.success" then WebhookOutcome(Received, payments, subscriptions, None)
    else if request.reference.None? then WebhookOutcome(Failed, payments, subscriptions, None)
    else match PaymentByReference(payments, request.reference.value)
      case None => WebhookOutcome(JsonResponse(404, "Payment not found"), payments, subscriptions, None)
      case Some(i) =>
        if !request.hasAmount then WebhookOutcome(Failed, payments, subscriptions, None)
        else
          var marked := payments[i := payments[i].(status := Success)];
          var c := CreateSubscription(marked[i], subscriptions, users, plans, services, now, curl);
          match c.result
          case Threw(post) => WebhookOutcome(Failed, marked, c.subscriptions, post)
          case Created(post, _) => WebhookOutcome(Processed, marked, c.subscriptions, Some(post))
  }

  method HandleWebhook(
    payments: PaymentTable, subscriptions: SubscriptionTable,
    users: seq<User>, plans: seq<Plan>, services: seq<Cors>,
    gateway: Gateway, request: WebhookRequest, now: int, curl: CurlOutcome)
    returns (response: JsonResponse, post: Option<RelayPost>)
    requires subscriptions.Valid()
    modifies payments, subscriptions
    ensures subscriptions.Valid()
    ensures var o := Webhook(old(payments.rows), old(subscriptions.rows), users, plans, services, gateway, request, now, curl);
      response == o.response && post == o.post &&
      payments.rows == o.payments && subscriptions.rows == o.subscriptions
  {
    if !SignatureValid(request.signature, request.rawBody, gateway) {
      return JsonResponse(400, "Invalid signature"), None;
    }
    if request.event.None? {
      return Failed, None;
    }
    if request.event.value != "charge.success" {
      return Received, None;
    }
    if request.reference.None? {
      return Failed, None;
    }
    var found := PaymentByReference(payments.rows, request.reference.value);
    if found.None? {
      return JsonResponse(404, "Payment not found"), None;
    }
    if !request.hasAmount {
      return Failed, None;
    }
    var i := found.value;
    payments.SetStatus(i, Success);
    var result := CreateSubscriptionFor(subscriptions, payments.rows[i], users, plans, services, now, curl);
    match result
    case Threw(p) =>
      response, post := Failed, p;
    case Created(p, _) =>
      response, post := Processed, Some(p);
  }

  // ------------------------------------------------------- webhook properties

  /** Only a correctly signed `charge.success` for a known reference changes either table. */
  lemma OnlyAuthenticChargesChangeState(
    payments: seq<Payment>, subscriptions: seq<Subscription>,
    users: seq<User>, plans: seq<Plan>, services: seq<Cors>,
    gateway: Gateway, request: WebhookRequest, now: int, curl: CurlOutcome)
    ensures var o := Webhook(payments, subscriptions, users, plans, services, gateway, request, now, curl);
      (o.payments != payments || o.subscriptions != subscriptions || o.post.Some?) ==>
        request.signature == Some(gateway.hmacSha512(request.rawBody, gateway.secretKey)) &&
        CompleteCharge(request) && PaymentByReference(payments, request.reference.value).Some?
    ensures var o := Webhook(payments, subscriptions, users, plans, services, gateway, request, now, curl);
      request.signature != Some(gateway.hmacSha512(request.rawBody, gateway.secretKey)) ==>
        o.response == JsonResponse(400, "Invalid signature")
    ensures var o := Webhook(payments, subscriptions, users, plans, services, gateway, request, now, curl);
      request.signature == Some(gateway.hmacSha512(request.rawBody, gateway.secretKey)) ==>
        (request.event.None? ==> o.response == Failed) &&
        (request.event.Some? && request.event.value != "charge.success" ==> o.response == Received) &&
        (request.event == Some("charge.success") && request.reference.Some? &&
         PaymentByReference(payments, request.reference.value).None? ==>
           o.response == JsonResponse(404, "Payment not found"))
  {
  }

  /**
   * A correctly signed `charge.success` for a pending payment whose user,
   * plan and service exist and whose reference has no subscription yet:
   * the payment is marked `success`, exactly one subscription is appended
   * with expiry today + duration, the plan's capacity, the duration as days
   * limit and the payment's reference, and the provisioning command is
   * relayed.
   */
  lemma ChargeCreatesSubscription(
    payments: seq<Payment>, subscriptions: seq<Subscription>,
    users: seq<User>, plans: seq<Plan>, services: seq<Cors>,
    gateway: Gateway, request: WebhookRequest, now: int, curl: CurlOutcome,
    i: nat, user: User, plan: Plan, cors: Cors)
    requires request.signature == Some(gateway.hmacSha512(request.rawBody, gateway.secretKey))
    requires CompleteCharge(request)
    requires PaymentByReference(payments, request.reference.value) == Some(i)
    requires FindUser(users, payments[i].userId) == Some(user)
    requires FindPlan(plans, payments[i].planId) == Some(plan)
    requires FindCors(services, payments[i].corsId) == Some(cors)
    requires !HasReference(subscriptions, request.reference.value)
    requires !SuccessLogThrows(curl)
    ensures var o := Webhook(payments, subscriptions, users, plans, services, gateway, request, now, curl);
      o.response == Processed &&
      o.payments == payments[i := payments[i].(status := Success)] &&
      |o.subscriptions| == |subscriptions| + 1 && o.subscriptions[..|subscriptions|] == subscriptions &&
      o.post == Some(RelayPostFor(ProvisioningUrl(cors, user.userName,
                                                  SubscriptionParams(plan.duration, plan.userLimit, now))))
    ensures var s := Webhook(payments, subscriptions, users, plans, services, gateway, request, now, curl).subscriptions[|subscriptions|];
      s.paymentReference == request.reference.value && s.userId == payments[i].userId &&
      s.corsId == payments[i].corsId && s.planId == payments[i].planId &&
      s.expiryDay == Calendar.DayOf(now) + plan.duration &&
      s.userLimit == plan.userLimit && s.daysLimit == plan.duration && s.createdAt == now
  {
    var o := Webhook(payments, subscriptions, users, plans, services, gateway, request, now, curl);
    assert o.subscriptions == subscriptions + [SubscriptionFor(payments[i].(status := Success), user, plan, cors, now)];
  }

  /**
   * What the charge buys: the subscription it records shows in the user's
   * profile on every day before the expiry day (today + the plan's
   * duration, counted from the day of the charge) and never from that day on.
   */
  lemma ChargeGrantsAccessUntilExpiryDay(
    payments: seq<Payment>, subscriptions: seq<Subscription>,
    users: seq<User>, plans: seq<Plan>, services: seq<Cors>,
    gateway: Gateway, request: WebhookRequest, now: int, curl: CurlOutcome,
    i: nat, user: User, plan: Plan, cors: Cors, today: int)
    requires request.signature == Some(gateway.hmacSha512(request.rawBody, gateway.secretKey))
    requires CompleteCharge(request)
    requires PaymentByReference(payments, request.reference.value) == Some(i)
    requires FindUser(users, payments[i].userId) == Some(user)
    requires FindPlan(plans, payments[i].planId) == Some(plan)
    requires FindCors(services, payments[i].corsId) == Some(cors)
    requires !HasReference(subscriptions, request.reference.value)
    requires !SuccessLogThrows(curl)
    ensures var o := Webhook(payments, subscriptions, users, plans, services, gateway, request, now, curl);
      |o.subscriptions| == |subscriptions| + 1 &&
      (o.subscriptions[|subscriptions|] in Session.ActiveSubscriptions(o.subscriptions, payments[i].userId, today) <==>
         today < Calendar.DayOf(now) + plan.duration)
  {
    ChargeCreatesSubscription(payments, subscriptions, users, plans, services, gateway, request, now, curl, i, user, plan, cors);
    var o := Webhook(payments, subscriptions, users, plans, services, gateway, request, now, curl);
    var s := o.subscriptions[|subscriptions|];
    assert s in o.subscriptions;
    assert s.userId == payments[i].userId && s.expiryDay == Calendar.DayOf(now) + plan.duration;
  }

  /**
   * Deliberate policy: the subscription is stored before the relay is
   * called and is kept whatever the relay returns (a curl error, a reply
   * that does not decode, `success: false`, or success). The tables end the
   * same for any two relay outcomes, and the answer is 200 unless the
   * success branch's log raises.
   */
  lemma RelayOutcomeNeverRollsBack(
    payments: seq<Payment>, subscriptions: seq<Subscription>,
    users: seq<User>, plans: seq<Plan>, services: seq<Cors>,
    gateway: Gateway, request: WebhookRequest, now: int, curl1: CurlOutcome, curl2: CurlOutcome)
    ensures var o1 := Webhook(payments, subscriptions, users, plans, services, gateway, request, now, curl1);
      var o2 := Webhook(payments, subscriptions, users, plans, services, gateway, request, now, curl2);
      o1.payments == o2.payments && o1.subscriptions == o2.subscriptions && o1.post == o2.post
    ensures var o1 := Webhook(payments, subscriptions, users, plans, services, gateway, request, now, curl1);
      var o2 := Webhook(payments, subscriptions, users, plans, services, gateway, request, now, curl2);
      o1.response == Processed && !SuccessLogThrows(curl2) ==> o2.response == Processed
  {
  }

  /** A processed charge was authentic and complete, marked its payment, and left its reference taken. */
  lemma ProcessedCharge(
    payments: seq<Payment>, subscriptions: seq<Subscription>,
    users: seq<User>, plans: seq<Plan>, services: seq<Cors>,
    gateway: Gateway, request: WebhookRequest, now: int, curl: CurlOutcome)
    requires Webhook(payments, subscriptions, users, plans, services, gateway, request, now, curl).response == Processed
    ensures SignatureValid(request.signature, request.rawBody, gateway) && CompleteCharge(request)
    ensures var found := PaymentByReference(payments, request.reference.value);
      var o := Webhook(payments, subscriptions, users, plans, services, gateway, request, now, curl);
      found.Some? &&
      o.payments == payments[found.value := payments[found.value].(status := Success)] &&
      HasReference(o.subscriptions, request.reference.value)
  {
    var reference := request.reference.value;
    var i := PaymentByReference(payments, reference).value;
    var marked := payments[i := payments[i].(status := Success)];
    var c := CreateSubscription(marked[i], subscriptions, users, plans, services, now, curl);
    assert c.result.Created?;
    assert c.subscriptions[|subscriptions|].paymentReference == reference;
  }

  /** Marking a payment keeps the lookup by reference pointing at it. */
  lemma MarkingKeepsLookup(payments: seq<Payment>, reference: string, i: nat)
    requires PaymentByReference(payments, reference) == Some(i)
    ensures PaymentByReference(payments[i := payments[i].(status := Success)], reference) == Some(i)
  {
    var marked := payments[i := payments[i].(status := Success)];
    assert forall j :: 0 <= j < |marked| ==> marked[j].reference == payments[j].reference;
  }

  /** A charge whose reference already has a subscription fails without changing anything. */
  lemma TakenReferenceFails(
    payments: seq<Payment>, subscriptions: seq<Subscription>,
    users: seq<User>, plans: seq<Plan>, services: seq<Cors>,
    gateway: Gateway, request: WebhookRequest, now: int, curl: CurlOutcome, i: nat)
    requires SignatureValid(request.signature, request.rawBody, gateway) && CompleteCharge(request)
    requires PaymentByReference(payments, request.reference.value) == Some(i)
    requires payments[i].status == Success
    requires HasReference(subscriptions, request.reference.value)
    ensures Webhook(payments, subscriptions, users, plans, services, gateway, request, now, curl) ==
      WebhookOutcome(Failed, payments, subscriptions, None)
  {
    assert payments[i := payments[i].(status := Success)] == payments;
  }

  /**
   * No terminal-state guard: delivering the same `charge.success` again
   * after it was processed marks the payment again, the unique column
   * refuses a second subscription, and the answer is 500, not 200. Neither
   * table changes.
   */
  lemma RedeliveryIsNotIdempotent(
    payments: seq<Payment>, subscriptions: seq<Subscription>,
    users: seq<User>, plans: seq<Plan>, services: seq<Cors>,
    gateway: Gateway, request: WebhookRequest, now1: int, now2: int, curl1: CurlOutcome, curl2: CurlOutcome)
    requires Webhook(payments, subscriptions, users, plans, services, gateway, request, now1, curl1).response == Processed
    ensures var o1 := Webhook(payments, subscriptions, users, plans, services, gateway, request, now1, curl1);
      var o2 := Webhook(o1.payments, o1.subscriptions, users, plans, services, gateway, request, now2, curl2);
      o2.response == Failed &&
      o2.payments == o1.payments && o2.subscriptions == o1.subscriptions && o2.post.None?
  {
    ProcessedCharge(payments, subscriptions, users, plans, services, gateway, request, now1, curl1);
    var o1 := Webhook(payments, subscriptions, users, plans, services, gateway, request, now1, curl1);
    var i := PaymentByReference(payments, request.reference.value).value;
    MarkingKeepsLookup(payments, request.reference.value, i);
    TakenReferenceFails(o1.payments, o1.subscriptions, users, plans, services, gateway, request, now2, curl2, i);
  }

  /** Whatever webhooks arrive, no payment reference ever has two subscriptions. */
  lemma WebhookKeepsReferencesUnique(
    payments: seq<Payment>, subscriptions: seq<Subscription>,
    users: seq<User>, plans: seq<Plan>, services: seq<Cors>,
    gateway: Gateway, request: WebhookRequest, now: int, curl: CurlOutcome)
    requires UniqueReferences(subscriptions)
    ensures UniqueReferences(Webhook(payments, subscriptions, users, plans, services, gateway, request, now, curl).subscriptions)
  {
    var o := Webhook(payments, subscriptions, users, plans, services, gateway, request, now, curl);
    if o.subscriptions != subscriptions {
      AppendFreshReference(subscriptions, o.subscriptions);
    }
  }

  // ---------------------------------------------------------- initializePayment

  /** The body POSTed to the gateway's `/transaction/initialize`. */
  datatype InitRequest = InitRequest(email: string, amount: int, userId: nat, corsId: nat, planId: nat)

  datatype InitData = InitData(reference: string, authorizationUrl: string)

  /**
   * The gateway's answer: a thrown transport error, or a status with
   * `data.reference` and `data.authorization_url` when the body has them.
   */
  datatype GatewayReply =
    | GatewayThrew(message: string)
    | GatewayReplied(status: int, reference: Option<string>, authorizationUrl: Option<string>)

  datatype InitResponse = InitResponse(status: int, message: string, data: Option<InitData>)

  /** The amount is sent in the currency's minor unit: price times 100. */
  function InitializeRequest(user: User, plan: Plan, cors: Cors): (r: InitRequest)
    ensures r.amount == plan.price * 100 && r.email == user.email
    ensures r.userId == user.id && r.corsId == cors.id && r.planId == plan.id
  {
    InitRequest(user.email, plan.price * 100, user.id, cors.id, plan.id)
  }

  /** The gateway accepted the payment and named its reference. */
  predicate Accepted(reply: GatewayReply) {
    reply.GatewayReplied? && Successful(reply.status) && reply.reference.Some?
  }

  /**
   * initializePayment: a pending payment carrying the gateway's reference
   * and the plan's price is recorded exactly when the gateway answers
   * successfully with a reference. The answer is 200 with the reference and
   * the authorization URL when both are there, 400 for an unsuccessful
   * status, and 500 when an exception is raised: a transport error, a
   * missing reference (nothing recorded) or a missing authorization URL
   * (raised after the payment was recorded).
   */
  method InitializePayment(
    payments: PaymentTable, users: seq<User>, plans: seq<Plan>, services: seq<Cors>,
    userId: nat, corsId: nat, planId: nat, reply: GatewayReply)
    returns (response: InitResponse, sent: InitRequest)
    requires FindUser(users, userId).Some? && FindPlan(plans, planId).Some? && FindCors(services, corsId).Some?
    modifies payments
    ensures var user, plan, cors := FindUser(users, userId).value, FindPlan(plans, planId).value, FindCors(services, corsId).value;
      sent == InitializeRequest(user, plan, cors) &&
      payments.rows == old(payments.rows) +
        (if Accepted(reply) then [Payment(userId, planId, corsId, plan.price, reply.reference.value, Pending, "paystack")] else [])
    ensures response.data.Some? <==> Accepted(reply) && reply.authorizationUrl.Some?
    ensures response.data.Some? ==>
      response == InitResponse(200, "Payment initialized successfully",
                               Some(InitData(reply.reference.value, reply.authorizationUrl.value)))
    ensures response.data.None? ==>
      response.status == (if reply.GatewayReplied? && !Successful(reply.status) then 400 else 500)
  {
    var user := FindUser(users, userId).value;
    var plan := FindPlan(plans, planId).value;
    var cors := FindCors(services, corsId).value;
    sent := InitializeRequest(user, plan, cors);
    match reply
    case GatewayThrew(_) =>
      response := InitResponse(500, "Payment initialization failed", None);
    case GatewayReplied(status, reference, authorizationUrl) =>
      if !Successful(status) {
        response := InitResponse(400, "Failed to initialize payment", None);
      } else if reference.None? {
        response := InitResponse(500, "Payment initialization failed", None);
      } else {
        payments.Insert(Payment(user.id, plan.id, cors.id, plan.price, reference.value, Pending, "paystack"));
        if authorizationUrl.None? {
          response := InitResponse(500, "Payment initialization failed", None);
        } else {
          response := InitResponse(200, "Payment initialized successfully",
                                   Some(InitData(reference.value, authorizationUrl.value)));
        }
      }
  }

  // ------------------------------------------------------------------ callback

  /** The gateway's answer to `/transaction/verify/{reference}`. */
  datatype VerifyReply = VerifyThrew | VerifyReplied(status: int, transactionStatus: Option<string>)

  datatype CallbackPage = SuccessPage(reference: string) | FailurePage(reference: string) | ServerError

  /**
   * callback: the success page exactly when the verification answer is
   * successful and reports `data.status === 'success'`; a successful answer
   * without that field, or a transport error, ends in a server error.
   */
  function Callback(reference: string, reply: VerifyReply): (page: CallbackPage)
    ensures page.SuccessPage? <==>
      reply.VerifyReplied? && Successful(reply.status) && reply.transactionStatus == Some("success")
    ensures page.ServerError? <==>
      reply.VerifyThrew? || (Successful(reply.status) && reply.transactionStatus.None?)
    ensures !page.ServerError? ==> page.reference == reference
  {
    match reply
    case VerifyThrew => ServerError
    case VerifyReplied(status, tx) =>
      if !Successful(status) then FailurePage(reference)
      else match tx
        case None => ServerError
        case Some(s) => if s == "success" then SuccessPage(reference) else FailurePage(reference)
  }
}
