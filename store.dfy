/**
 * The persistent state the controllers work on: database tables of users,
 * payments, subscriptions and API tokens (each a class whose `rows` the
 * controllers change in place), the read-only plan and service catalogues,
 * and the application cache that holds one-time codes.
 */
module Store {
  import opened Wrappers

  datatype User = User(
    id: nat, firstName: string, lastName: string, email: string,
    userName: string, passwordHash: string, emailVerifiedAt: Option<int>)

  /** A plan: price in currency units, duration in days, capacity, and the services it is sold for. */
  datatype Plan = Plan(id: nat, price: int, duration: int, userLimit: int, cors: seq<int>)

  /** A target service ("CORS" service) with its service-account credentials. */
  datatype Cors = Cors(id: nat, url: string, username: string, password: string)

  datatype PaymentStatus = Pending | Success | Failed

  datatype Payment = Payment(
    userId: nat, planId: nat, corsId: nat, amount: int,
    reference: string, status: PaymentStatus, paymentMethod: string)

  /**
   * `expiryDay` is the day number (days since 1970-01-01, UTC) kept by the
   * `expiry_date` DATE column, which drops the time of day; `createdAt` is
   * an instant in Unix seconds.
   */
  datatype Subscription = Subscription(
    userId: nat, corsId: nat, planId: nat, paymentReference: string,
    expiryDay: int, userLimit: int, daysLimit: int, createdAt: int)

  /** A personal access token; `secret` is the random part of its plain text. */
  datatype Token = Token(id: nat, userId: nat, secret: string)

  /** Index of the first row satisfying p: the row a `where` query returns first. */
  function FirstIndex<T>(rows: seq<T>, p: T -> bool): (r: Option<nat>)
    ensures r.Some? ==> r.value < |rows| && p(rows[r.value])
    ensures r.Some? ==> forall j :: 0 <= j < r.value ==> !p(rows[j])
    ensures r.None? ==> forall j :: 0 <= j < |rows| ==> !p(rows[j])
  {
    if rows == [] then None
    else if p(rows[0]) then Some(0)
    else match FirstIndex(rows[1..], p)
      case None => None
      case Some(k) => Some(k + 1)
  }

  function FindUser(users: seq<User>, id: nat): (r: Option<User>)
    ensures r.Some? ==> r.value in users && r.value.id == id
    ensures r.None? <==> forall u :: u in users ==> u.id != id
  {
    match FirstIndex(users, (u: User) => u.id == id)
    case None => None
    case Some(i) => Some(users[i])
  }

  function FindPlan(plans: seq<Plan>, id: nat): (r: Option<Plan>)
    ensures r.Some? ==> r.value in plans && r.value.id == id
    ensures r.None? <==> forall p :: p in plans ==> p.id != id
  {
    match FirstIndex(plans, (p: Plan) => p.id == id)
    case None => None
    case Some(i) => Some(plans[i])
  }

  function FindCors(services: seq<Cors>, id: nat): (r: Option<Cors>)
    ensures r.Some? ==> r.value in services && r.value.id == id
    ensures r.None? <==> forall c :: c in services ==> c.id != id
  {
    match FirstIndex(services, (c: Cors) => c.id == id)
    case None => None
    case Some(i) => Some(services[i])
  }

  /** The first payment carrying the reference. */
  function PaymentByReference(payments: seq<Payment>, reference: string): (r: Option<nat>)
    ensures r.Some? ==> r.value < |payments| && payments[r.value].reference == reference
    ensures r.None? <==> forall p :: p in payments ==> p.reference != reference
  {
    FirstIndex(payments, (p: Payment) => p.reference == reference)
  }

  /** A letter as the case-insensitive collation of the `email` column sees it: upper-case ASCII folds to lower case. */
  function FoldChar(c: char): (r: char)
    ensures !('A' <= r <= 'Z')
    ensures 'a' <= r <= 'z' <==> 'A' <= c <= 'Z' || 'a' <= c <= 'z'
    ensures c != r ==> 'A' <= c <= 'Z'
  {
    if 'A' <= c <= 'Z' then (c as int + 32) as char else c
  }

  /** The case-folded form of a string, character by character. */
  function FoldCase(s: string): (r: string)
    ensures |r| == |s|
    ensures forall i :: 0 <= i < |s| ==> r[i] == FoldChar(s[i])
  {
    if s == [] then [] else [FoldChar(s[0])] + FoldCase(s[1..])
  }

  /** Folding twice changes nothing more than folding once. */
  lemma FoldCaseIdempotent(s: string)
    ensures FoldCase(FoldCase(s)) == FoldCase(s)
  {
    assert forall i :: 0 <= i < |s| ==> FoldChar(FoldChar(s[i])) == FoldChar(s[i]);
  }

  /** Two emails the database treats as the same value. */
  predicate SameEmail(a: string, b: string) {
    FoldCase(a) == FoldCase(b)
  }

  /** The query matches the user whose stored email equals the given one up to letter case. */
  function UserByEmail(users: seq<User>, email: string): (r: Option<nat>)
    ensures r.Some? ==> r.value < |users| && SameEmail(users[r.value].email, email)
    ensures r.Some? ==> forall j :: 0 <= j < r.value ==> !SameEmail(users[j].email, email)
    ensures r.None? <==> forall u :: u in users ==> !SameEmail(u.email, email)
  {
    var key := FoldCase(email);
    FirstIndex(users, (u: User) => FoldCase(u.email) == key)
  }

  /** Spellings that differ only in letter case find the same user. */
  lemma UserByEmailIgnoresCase(users: seq<User>, a: string, b: string)
    requires SameEmail(a, b)
    ensures UserByEmail(users, a) == UserByEmail(users, b)
  {
  }

  function UserNames(users: seq<User>): set<string> {
    set u | u in users :: u.userName
  }

  predicate HasReference(subscriptions: seq<Subscription>, reference: string) {
    exists i :: 0 <= i < |subscriptions| && subscriptions[i].paymentReference == reference
  }

  lemma HasReferenceAppend(subscriptions: seq<Subscription>, s: Subscription, reference: string)
    ensures HasReference(subscriptions + [s], reference) <==>
      HasReference(subscriptions, reference) || s.paymentReference == reference
  {
    var after := subscriptions + [s];
    if HasReference(after, reference) && s.paymentReference != reference {
      var i :| 0 <= i < |after| && after[i].paymentReference == reference;
      assert after[i] == subscriptions[i];
    }
    if s.paymentReference == reference {
      assert after[|subscriptions|] == s;
    }
    if HasReference(subscriptions, reference) {
      var i :| 0 <= i < |subscriptions| && subscriptions[i].paymentReference == reference;
      assert after[i] == subscriptions[i];
    }
  }

  /** The unique index on `subscriptions.payment_reference`. */
  ghost predicate UniqueReferences(subscriptions: seq<Subscription>) {
    forall i, j :: 0 <= i < j < |subscriptions| ==>
      subscriptions[i].paymentReference != subscriptions[j].paymentReference
  }

  /** The rows satisfying p, in their original order: a `where` clause. */
  function Filter<T(!new)>(rows: seq<T>, p: T -> bool): (r: seq<T>)
    ensures forall x :: x in r <==> x in rows && p(x)
    ensures |r| <= |rows|
  {
    if rows == [] then []
    else if p(rows[0]) then [rows[0]] + Filter(rows[1..], p)
    else Filter(rows[1..], p)
  }

  /** A `where` clause keeps every occurrence of a matching row and drops every other row. */
  lemma {:induction false} FilterCounts<T(!new)>(rows: seq<T>, p: T -> bool, x: T)
    ensures multiset(Filter(rows, p))[x] == if p(x) then multiset(rows)[x] else 0
  {
    if rows != [] {
      FilterCounts(rows[1..], p, x);
      assert rows == [rows[0]] + rows[1..];
    }
  }

  /** Appending one row whose reference is not taken keeps the references unique. */
  lemma AppendFreshReference(before: seq<Subscription>, after: seq<Subscription>)
    requires UniqueReferences(before)
    requires |after| == |before| + 1 && after[..|before|] == before
    requires !HasReference(before, after[|before|].paymentReference)
    ensures UniqueReferences(after)
  {
    forall i, j | 0 <= i < j < |after|
      ensures after[i].paymentReference != after[j].paymentReference
    {
      assert after[i] == before[i];
      if j < |before| {
        assert after[j] == before[j];
      }
    }
  }

  class PaymentTable {
    var rows: seq<Payment>

    /** `Payment::create`; no uniqueness of the reference is assumed for payments. */
    method Insert(p: Payment)
      modifies this
      ensures rows == old(rows) + [p]
    {
      rows := rows + [p];
    }

    /** Updating the status of row i. */
    method SetStatus(i: nat, status: PaymentStatus)
      requires i < |rows|
      modifies this
      ensures rows == old(rows)[i := old(rows)[i].(status := status)]
    {
      rows := rows[i := rows[i].(status := status)];
    }
  }

  class SubscriptionTable {
    var rows: seq<Subscription>

    ghost predicate Valid()
      reads this
    {
      UniqueReferences(rows)
    }

    /**
     * `Subscription::create`: the unique column refuses a second row with the
     * same payment reference (the database raises an exception and nothing is
     * inserted).
     */
    method Create(s: Subscription) returns (inserted: bool)
      requires Valid()
      modifies this
      ensures Valid()
      ensures inserted == !HasReference(old(rows), s.paymentReference)
      ensures rows == if inserted then old(rows) + [s] else old(rows)
    {
      inserted := !HasReference(rows, s.paymentReference);
      if inserted {
        rows := rows + [s];
      }
    }
  }

  class UserTable {
    var rows: seq<User>

    method Insert(u: User)
      modifies this
      ensures rows == old(rows) + [u]
    {
      rows := rows + [u];
    }

    method SetPasswordHash(i: nat, hash: string)
      requires i < |rows|
      modifies this
      ensures rows == old(rows)[i := old(rows)[i].(passwordHash := hash)]
    {
      rows := rows[i := rows[i].(passwordHash := hash)];
    }

    method SetEmailVerifiedAt(i: nat, at: int)
      requires i < |rows|
      modifies this
      ensures rows == old(rows)[i := old(rows)[i].(emailVerifiedAt := Some(at))]
    {
      rows := rows[i := rows[i].(emailVerifiedAt := Some(at))];
    }
  }

  /** The tokens of every user except `userId`, in their original order. */
  function WithoutUser(tokens: seq<Token>, userId: nat): (r: seq<Token>)
    ensures forall t :: t in r <==> t in tokens && t.userId != userId
    ensures |r| <= |tokens|
  {
    if tokens == [] then []
    else if tokens[0].userId == userId then WithoutUser(tokens[1..], userId)
    else [tokens[0]] + WithoutUser(tokens[1..], userId)
  }

  /** The tokens belonging to `userId`. */
  function TokensOf(tokens: seq<Token>, userId: nat): (r: seq<Token>)
    ensures forall t :: t in r <==> t in tokens && t.userId == userId
  {
    if tokens == [] then []
    else if tokens[0].userId == userId then [tokens[0]] + TokensOf(tokens[1..], userId)
    else TokensOf(tokens[1..], userId)
  }

  /** Auto-increment ids grow in row order, so no two rows share an id. */
  ghost predicate IdsIncreasing(tokens: seq<Token>) {
    forall i, j :: 0 <= i < j < |tokens| ==> tokens[i].id < tokens[j].id
  }

  lemma IncreasingTail(tokens: seq<Token>)
    requires tokens != [] && IdsIncreasing(tokens)
    ensures IdsIncreasing(tokens[1..])
    ensures forall t :: t in tokens[1..] ==> tokens[0].id < t.id
  {
    var tail := tokens[1..];
    forall i, j | 0 <= i < j < |tail| ensures tail[i].id < tail[j].id {
      assert tail[i] == tokens[i + 1] && tail[j] == tokens[j + 1];
    }
    forall t | t in tail ensures tokens[0].id < t.id {
      var j :| 0 <= j < |tail| && tail[j] == t;
      assert tokens[j + 1] == t;
    }
  }

  lemma IncreasingCons(x: Token, rest: seq<Token>)
    requires IdsIncreasing(rest) && forall t :: t in rest ==> x.id < t.id
    ensures IdsIncreasing([x] + rest)
  {
    var r := [x] + rest;
    forall i, j | 0 <= i < j < |r| ensures r[i].id < r[j].id {
      assert r[j] == rest[j - 1];
      if i > 0 {
        assert r[i] == rest[i - 1];
      }
    }
  }

  /** Deleting one user's tokens keeps the remaining ids increasing. */
  lemma {:induction false} WithoutUserIncreasing(tokens: seq<Token>, userId: nat)
    requires IdsIncreasing(tokens)
    ensures IdsIncreasing(WithoutUser(tokens, userId))
  {
    if tokens != [] {
      IncreasingTail(tokens);
      WithoutUserIncreasing(tokens[1..], userId);
      if tokens[0].userId != userId {
        IncreasingCons(tokens[0], WithoutUser(tokens[1..], userId));
      }
    }
  }

  class TokenTable {
    var rows: seq<Token>
    var nextId: nat

    /** Ids grow in row order and were all handed out before `nextId`: ids are unique and never reused. */
    ghost predicate Valid()
      reads this
    {
      (forall t :: t in rows ==> t.id < nextId) && IdsIncreasing(rows)
    }

    /** Deleting every token of one user. */
    method RevokeAll(userId: nat)
      requires Valid()
      modifies this
      ensures Valid()
      ensures rows == WithoutUser(old(rows), userId) && nextId == old(nextId)
    {
      WithoutUserIncreasing(rows, userId);
      rows := WithoutUser(rows, userId);
    }

    /** Creating a token: a new row with the next auto-increment id. */
    method Issue(userId: nat, secret: string) returns (t: Token)
      requires Valid()
      modifies this
      ensures Valid()
      ensures t == Token(old(nextId), userId, secret)
      ensures rows == old(rows) + [t] && nextId == old(nextId) + 1
    {
      t := Token(nextId, userId, secret);
      forall i | 0 <= i < |rows| ensures rows[i].id < t.id {
        assert rows[i] in rows;
      }
      rows := rows + [t];
      nextId := nextId + 1;
    }
  }

  /** Cached values: the reset code is a string, the e-mail verification code an integer. */
  datatype CacheValue = Text(text: string) | Number(number: int)

  datatype CacheEntry = CacheEntry(value: CacheValue, expiresAt: int)

  /** PHP truthiness of a cached value. */
  predicate CacheTruthy(v: CacheValue) {
    match v
    case Text(t) => t != "" && t != "0"
    case Number(n) => n != 0
  }

  /** Reading the cache at instant `now`: an entry whose expiry has passed reads as absent. */
  function Lookup(entries: map<string, CacheEntry>, key: string, now: int): (r: Option<CacheValue>)
    ensures r.Some? <==> key in entries && now < entries[key].expiresAt
    ensures r.Some? ==> r.value == entries[key].value
  {
    if key in entries && now < entries[key].expiresAt then Some(entries[key].value) else None
  }

  /** Storing under one key leaves what every other key reads unchanged. */
  lemma LookupOtherKey(entries: map<string, CacheEntry>, key: string, entry: CacheEntry, other: string, now: int)
    requires other != key
    ensures Lookup(entries[key := entry], other, now) == Lookup(entries, other, now)
  {
    var after := entries[key := entry];
    assert other in after <==> other in entries;
    if other in entries {
      assert after[other] == entries[other];
    }
  }

  /** The application cache: entries keyed by string, each with an expiry instant (Unix seconds). */
  class CodeCache {
    var entries: map<string, CacheEntry>

    /** Storing an entry with its expiry: overwrites any earlier entry for the key. */
    method Put(key: string, value: CacheValue, expiresAt: int)
      modifies this
      ensures entries == old(entries)[key := CacheEntry(value, expiresAt)]
    {
      entries := entries[key := CacheEntry(value, expiresAt)];
    }

    /** Removing the entry for a key. */
    method Forget(key: string)
      modifies this
      ensures entries == old(entries) - {key}
    {
      entries := entries - {key};
    }
  }
}
