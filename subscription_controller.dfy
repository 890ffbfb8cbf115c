/**
 * The subscription controller: the direct ("beta") subscription that
 * provisions first and records afterwards, the order history, and the plans
 * sold for a service.
 */
module SubscriptionController {
  import opened Wrappers
  import opened Decimal
  import opened Store
  import opened Provisioning
  import Calendar

  // ------------------------------------------------------------------ subscribe

  /** The HTTP status curl reports (0 when no answer came) and the body, absent when curl failed. */
  datatype CurlResult = CurlResult(statusCode: int, body: Option<string>)

  datatype SubscribeResponse =
    | Subscribed(subscription: Subscription, generatedUrl: string, body: Option<string>)
    | Unconfirmed(generatedUrl: string, body: Option<string>)
    | SubscribeFailed(generatedUrl: string)

  /** The HTTP status of each answer. */
  function StatusOf(r: SubscribeResponse): int {
    if r.Subscribed? then 200 else 500
  }

  /** `BETA-` followed by the current Unix second: the reference of a subscription nobody paid for. */
  function BetaReference(now: int): string {
    "BETA-" + IntText(now)
  }

  /** Two direct subscriptions get the same reference exactly when they happen in the same second. */
  lemma BetaReferenceInjective(a: int, b: int)
    ensures BetaReference(a) == BetaReference(b) <==> a == b
  {
    if BetaReference(a) == BetaReference(b) {
      assert IntText(a) == BetaReference(a)[5..];
      assert IntText(b) == BetaReference(b)[5..];
      IntTextInjective(a, b);
    }
  }

  /**
   * The row subscribe records. Two clock reads are involved: `now`
   * (`Carbon::now()` before the command is sent) fixes the expiry, and
   * `later` (after the blocking curl call) gives `time()` for the reference
   * and the `created_at` stamp of the insert.
   */
  function BetaSubscription(user: User, plan: Plan, cors: Cors, now: int, later: int): Subscription {
    var p := SubscriptionParams(plan.duration, plan.userLimit, now);
    Subscription(user.id, cors.id, plan.id, BetaReference(later), Calendar.DayOf(p.expiryAt), plan.userLimit, p.days, later)
  }

  function CommandUrl(user: User, plan: Plan, cors: Cors, now: int): string {
    ProvisioningUrl(cors, user.userName, SubscriptionParams(plan.duration, plan.userLimit, now))
  }

  /**
   * subscribe as a transition of the subscriptions table: the command is
   * sent first, and a subscription is recorded only when the service
   * answered 200 and the reference of the insert's second is still free
   * (otherwise the unique column raises and the answer is the generic
   * failure).
   */
  function SubscribeStep(
    subscriptions: seq<Subscription>, user: User, plan: Plan, cors: Cors, now: int, later: int, curl: CurlResult)
    : (r: (SubscribeResponse, seq<Subscription>))
    ensures r.0.Subscribed? <==> curl.statusCode == 200 && !HasReference(subscriptions, BetaReference(later))
    ensures r.0.Subscribed? ==> r.1 == subscriptions + [r.0.subscription]
    ensures !r.0.Subscribed? ==> r.1 == subscriptions
    ensures r.0.Subscribed? ==>
      r.0.subscription.paymentReference == BetaReference(later) && r.0.subscription.createdAt == later
    ensures r.0.generatedUrl == CommandUrl(user, plan, cors, now)
  {
    var url := CommandUrl(user, plan, cors, now);
    if curl.statusCode != 200 then (Unconfirmed(url, curl.body), subscriptions)
    else if HasReference(subscriptions, BetaReference(later)) then (SubscribeFailed(url), subscriptions)
    else
      var s := BetaSubscription(user, plan, cors, now, later);
      (Subscribed(s, url, curl.body), subscriptions + [s])
  }

  method Subscribe(
    subscriptions: SubscriptionTable, users: seq<User>, plans: seq<Plan>, services: seq<Cors>,
    userId: nat, corsId: nat, planId: nat, now: int, later: int, curl: CurlResult)
    returns (response: SubscribeResponse)
    requires FindUser(users, userId).Some? && FindPlan(plans, planId).Some? && FindCors(services, corsId).Some?
    requires subscriptions.Valid()
    modifies subscriptions
    ensures subscriptions.Valid()
    ensures (response, subscriptions.rows) ==
      SubscribeStep(old(subscriptions.rows), FindUser(users, userId).value, FindPlan(plans, planId).value,
                    FindCors(services, corsId).value, now, later, curl)
  {
    var cors := FindCors(services, corsId).value;
    var user := FindUser(users, userId).value;
    var plan := FindPlan(plans, planId).value;
    var url := CommandUrl(user, plan, cors, now);
    if curl.statusCode == 200 {
      var s := BetaSubscription(user, plan, cors, now, later);
      var inserted := subscriptions.Create(s);
      if inserted {
        return Subscribed(s, url, curl.body);
      }
      return SubscribeFailed(url);
    }
    response := Unconfirmed(url, curl.body);
  }

  /**
   * The direct path sends the same provisioning command as the paid path for
   * the same user, plan, service and instant, and the subscription it
   * records carries the same expiry day, capacity and days limit.
   */
  lemma SubscribeMatchesPaidPath(
    subscriptions: seq<Subscription>, user: User, plan: Plan, cors: Cors, now: int, later: int, curl: CurlResult)
    ensures SubscribeStep(subscriptions, user, plan, cors, now, later, curl).0.generatedUrl ==
      ProvisioningUrl(cors, user.userName, SubscriptionParams(plan.duration, plan.userLimit, now))
    ensures var r := SubscribeStep(subscriptions, user, plan, cors, now, later, curl).0;
      r.Subscribed? ==>
        r.subscription.expiryDay == Calendar.DayOf(now) + plan.duration &&
        r.subscription.userLimit == plan.userLimit && r.subscription.daysLimit == plan.duration &&
        r.subscription.userId == user.id && r.subscription.corsId == cors.id && r.subscription.planId == plan.id
  {
  }

  /**
   * Two direct subscriptions inserted in the same second: once the first is
   * recorded, the second is provisioned at the service but refused by the
   * unique column, and the table keeps one row for that second. In
   * different seconds the first never blocks the second.
   */
  lemma SameSecondCollides(
    subscriptions: seq<Subscription>, user1: User, plan1: Plan, cors1: Cors, now1: int, later1: int, curl1: CurlResult,
    user2: User, plan2: Plan, cors2: Cors, now2: int, later2: int, curl2: CurlResult)
    requires SubscribeStep(subscriptions, user1, plan1, cors1, now1, later1, curl1).0.Subscribed?
    requires curl2.statusCode == 200
    ensures var after := SubscribeStep(subscriptions, user1, plan1, cors1, now1, later1, curl1).1;
      SubscribeStep(after, user2, plan2, cors2, now2, later2, curl2).0.Subscribed? <==>
        later1 != later2 && !HasReference(subscriptions, BetaReference(later2))
  {
    var s := BetaSubscription(user1, plan1, cors1, now1, later1);
    HasReferenceAppend(subscriptions, s, BetaReference(later2));
    BetaReferenceInjective(later1, later2);
  }

  // -------------------------------------------------------------- order_history

  /** A subscription joined with one payment of the same reference, with that payment's amount as `price`. */
  datatype HistoryRow = HistoryRow(subscription: Subscription, price: int)

  /** The join rows of one subscription: one per payment with its reference, in payment order. */
  function Matches(s: Subscription, payments: seq<Payment>): (r: seq<HistoryRow>)
    ensures forall x :: x in r <==>
      x.subscription == s && exists p :: p in payments && p.reference == s.paymentReference && x.price == p.amount
  {
    if payments == [] then []
    else
      var rest := Matches(s, payments[1..]);
      assert forall p :: p in payments[1..] ==> p in payments;
      assert forall p :: p in payments ==> p == payments[0] || p in payments[1..];
      if payments[0].reference == s.paymentReference then [HistoryRow(s, payments[0].amount)] + rest
      else rest
  }

  /** The inner join on the payment reference, restricted to one user, in table order. */
  function JoinRows(subscriptions: seq<Subscription>, payments: seq<Payment>, userId: nat): seq<HistoryRow> {
    if subscriptions == [] then []
    else
      (if subscriptions[0].userId == userId then Matches(subscriptions[0], payments) else [])
      + JoinRows(subscriptions[1..], payments, userId)
  }

  /** A row is in the join exactly when its subscription is the user's and a payment with that reference has the row's price. */
  lemma {:induction false} JoinRowsMembers(subscriptions: seq<Subscription>, payments: seq<Payment>, userId: nat, x: HistoryRow)
    ensures x in JoinRows(subscriptions, payments, userId) <==>
      x.subscription in subscriptions && x.subscription.userId == userId &&
      exists p :: p in payments && p.reference == x.subscription.paymentReference && x.price == p.amount
  {
    if subscriptions != [] {
      JoinRowsMembers(subscriptions[1..], payments, userId, x);
      assert subscriptions == [subscriptions[0]] + subscriptions[1..];
    }
  }

  predicate NewestFirst(rows: seq<HistoryRow>) {
    forall i, j :: 0 <= i < j < |rows| ==> rows[i].subscription.createdAt >= rows[j].subscription.createdAt
  }

  function InsertByCreation(x: HistoryRow, rows: seq<HistoryRow>): seq<HistoryRow> {
    if rows == [] || x.subscription.createdAt >= rows[0].subscription.createdAt then [x] + rows
    else [rows[0]] + InsertByCreation(x, rows[1..])
  }

  /** Ordering by creation time, newest first; rows created in the same second may come in any order, this is one of them. */
  function SortNewestFirst(rows: seq<HistoryRow>): seq<HistoryRow> {
    if rows == [] then [] else InsertByCreation(rows[0], SortNewestFirst(rows[1..]))
  }

  lemma {:induction false} InsertByCreationSorted(x: HistoryRow, rows: seq<HistoryRow>)
    requires NewestFirst(rows)
    ensures NewestFirst(InsertByCreation(x, rows))
    ensures multiset(InsertByCreation(x, rows)) == multiset(rows) + multiset{x}
  {
    if rows == [] || x.subscription.createdAt >= rows[0].subscription.createdAt {
    } else {
      var rest := InsertByCreation(x, rows[1..]);
      InsertByCreationSorted(x, rows[1..]);
      assert rows == [rows[0]] + rows[1..];
      forall k | 0 <= k < |rest|
        ensures rows[0].subscription.createdAt >= rest[k].subscription.createdAt
      {
        assert rest[k] in multiset(rest);
        assert rest[k] == x || rest[k] in multiset(rows[1..]);
        if rest[k] != x {
          assert rest[k] in rows[1..];
        }
      }
    }
  }

  lemma {:induction false} SortNewestFirstSorted(rows: seq<HistoryRow>)
    ensures NewestFirst(SortNewestFirst(rows))
    ensures multiset(SortNewestFirst(rows)) == multiset(rows)
  {
    if rows != [] {
      SortNewestFirstSorted(rows[1..]);
      InsertByCreationSorted(rows[0], SortNewestFirst(rows[1..]));
      assert rows == [rows[0]] + rows[1..];
    }
  }

  /** order_history. */
  function OrderHistory(subscriptions: seq<Subscription>, payments: seq<Payment>, userId: nat): (r: seq<HistoryRow>)
    ensures NewestFirst(r)
    ensures multiset(r) == multiset(JoinRows(subscriptions, payments, userId))
  {
    SortNewestFirstSorted(JoinRows(subscriptions, payments, userId));
    SortNewestFirst(JoinRows(subscriptions, payments, userId))
  }

  /**
   * The order history lists, newest first, every pairing of one of the
   * user's subscriptions with a payment of the same reference, as often as
   * the join produces it, and nothing else.
   */
  lemma OrderHistoryContents(subscriptions: seq<Subscription>, payments: seq<Payment>, userId: nat)
    ensures NewestFirst(OrderHistory(subscriptions, payments, userId))
    ensures multiset(OrderHistory(subscriptions, payments, userId)) == multiset(JoinRows(subscriptions, payments, userId))
    ensures forall x :: x in OrderHistory(subscriptions, payments, userId) <==>
      x.subscription in subscriptions && x.subscription.userId == userId &&
      exists p :: p in payments && p.reference == x.subscription.paymentReference && x.price == p.amount
  {
    var join := JoinRows(subscriptions, payments, userId);
    SortNewestFirstSorted(join);
    forall x
      ensures x in OrderHistory(subscriptions, payments, userId) <==> x in join
    {
      assert x in OrderHistory(subscriptions, payments, userId) <==> x in multiset(OrderHistory(subscriptions, payments, userId));
    }
    forall x
      ensures x in join <==>
        x.subscription in subscriptions && x.subscription.userId == userId &&
        exists p :: p in payments && p.reference == x.subscription.paymentReference && x.price == p.amount
    {
      JoinRowsMembers(subscriptions, payments, userId, x);
    }
  }

  /**
   * The inner join hides every subscription without a payment of its
   * reference, in particular the direct ("BETA-") ones.
   */
  lemma UnpaidSubscriptionsAreHidden(subscriptions: seq<Subscription>, payments: seq<Payment>, userId: nat, s: Subscription)
    requires forall p :: p in payments ==> p.reference != s.paymentReference
    ensures forall x :: x in OrderHistory(subscriptions, payments, userId) ==> x.subscription != s
  {
    OrderHistoryContents(subscriptions, payments, userId);
  }

  // ----------------------------------------------------------------------- plan

  /** The plans whose JSON list of services contains the id: the plans sold for a service, in table order. */
  function PlansFor(plans: seq<Plan>, corsId: int): (r: seq<Plan>)
    ensures forall p :: p in r <==> p in plans && corsId in p.cors
  {
    Filter(plans, (p: Plan) => corsId in p.cors)
  }

  /** Every plan listing the service is returned, as often as it is stored, and no other plan. */
  lemma PlansForContents(plans: seq<Plan>, corsId: int, p: Plan)
    ensures p in PlansFor(plans, corsId) <==> p in plans && corsId in p.cors
    ensures multiset(PlansFor(plans, corsId))[p] == if corsId in p.cors then multiset(plans)[p] else 0
  {
    FilterCounts(plans, (q: Plan) => corsId in q.cors, p);
  }
}
