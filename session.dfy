/**
 * The session controller for the mobile API: login replaces every token
 * the user had with one new token, and the profile lists the user's
 * subscriptions that have not yet expired. The password check, the token's
 * random part and the clock are inputs.
 */
module Session {
  import opened Wrappers
  import opened Decimal
  import opened Store
  import Calendar
  import Registration

  datatype LoginResponse =
    | LoggedIn(user: User, token: string)
    | InvalidCredentials

  function StatusOf(r: LoginResponse): int {
    if r.LoggedIn? then 200 else 401
  }

  /**
   * Authentication with email and password: the first user whose email
   * matches (up to letter case, as the column's collation compares), if the
   * password checks against its hash.
   */
  function Attempt(users: seq<User>, email: string, password: string, check: (string, string) -> bool): (r: Option<nat>)
    ensures r.Some? <==> UserByEmail(users, email).Some? && check(password, users[UserByEmail(users, email).value].passwordHash)
    ensures r.Some? ==> r == UserByEmail(users, email)
  {
    match UserByEmail(users, email)
    case None => None
    case Some(i) => if check(password, users[i].passwordHash) then Some(i) else None
  }

  /** A login typed with different letter case authenticates exactly as the stored spelling would. */
  lemma AttemptIgnoresCase(users: seq<User>, a: string, b: string, password: string, check: (string, string) -> bool)
    requires SameEmail(a, b)
    ensures Attempt(users, a, password, check) == Attempt(users, b, password, check)
  {
    UserByEmailIgnoresCase(users, a, b);
  }

  /**
   * store (login): with wrong credentials nothing changes and the answer is
   * 401; otherwise every token of the user is revoked and exactly one new
   * token is issued and returned.
   */
  method Login(users: UserTable, tokens: TokenTable, email: string, password: string,
               check: (string, string) -> bool, secret: string)
    returns (response: LoginResponse)
    requires tokens.Valid()
    modifies tokens
    ensures tokens.Valid()
    ensures match Attempt(users.rows, email, password, check)
      case None =>
        response == InvalidCredentials && tokens.rows == old(tokens.rows) && tokens.nextId == old(tokens.nextId)
      case Some(i) =>
        var t := Token(old(tokens.nextId), users.rows[i].id, secret);
        response == LoggedIn(users.rows[i], Registration.PlainTextToken(t)) &&
        tokens.rows == WithoutUser(old(tokens.rows), users.rows[i].id) + [t]
  {
    var found := Attempt(users.rows, email, password, check);
    if found.None? {
      return InvalidCredentials;
    }
    var user := users.rows[found.value];
    tokens.RevokeAll(user.id);
    var t := tokens.Issue(user.id, secret);
    response := LoggedIn(user, Registration.PlainTextToken(t));
  }

  lemma {:induction false} TokensOfAppend(a: seq<Token>, b: seq<Token>, userId: nat)
    ensures TokensOf(a + b, userId) == TokensOf(a, userId) + TokensOf(b, userId)
  {
    if a == [] {
      assert a + b == b;
    } else {
      TokensOfAppend(a[1..], b, userId);
      assert (a + b)[0] == a[0] && (a + b)[1..] == a[1..] + b;
    }
  }

  lemma {:induction false} RevokedHasNone(tokens: seq<Token>, userId: nat)
    ensures TokensOf(WithoutUser(tokens, userId), userId) == []
  {
    if tokens != [] {
      RevokedHasNone(tokens[1..], userId);
    }
  }

  lemma {:induction false} RevokeKeepsOthers(tokens: seq<Token>, userId: nat, other: nat)
    requires other != userId
    ensures TokensOf(WithoutUser(tokens, userId), other) == TokensOf(tokens, other)
  {
    if tokens != [] {
      RevokeKeepsOthers(tokens[1..], userId, other);
    }
  }

  /**
   * After a login the user holds exactly the token just issued, and every
   * other user's tokens are as they were.
   */
  lemma LoginLeavesOneToken(tokens: seq<Token>, userId: nat, t: Token, other: nat)
    requires t.userId == userId && other != userId
    ensures TokensOf(WithoutUser(tokens, userId) + [t], userId) == [t]
    ensures TokensOf(WithoutUser(tokens, userId) + [t], other) == TokensOf(tokens, other)
  {
    TokensOfAppend(WithoutUser(tokens, userId), [t], userId);
    TokensOfAppend(WithoutUser(tokens, userId), [t], other);
    RevokedHasNone(tokens, userId);
    RevokeKeepsOthers(tokens, userId, other);
  }

  // ---------------------------------------------------------------- user profile

  /**
   * `expiry_date > Carbon::today()`: the stored expiry day, read as midnight
   * of that day, is later than midnight (UTC) of day `today`.
   */
  predicate Active(s: Subscription, today: int) {
    s.expiryDay > today
  }

  /** The profile's subscriptions: the user's rows still active today, in table order. */
  function ActiveSubscriptions(subscriptions: seq<Subscription>, userId: nat, today: int): (r: seq<Subscription>)
    ensures forall s :: s in r <==> s in subscriptions && s.userId == userId && today < s.expiryDay
  {
    Filter(subscriptions, (s: Subscription) => s.userId == userId && Active(s, today))
  }

  lemma ActiveSubscriptionsContents(subscriptions: seq<Subscription>, userId: nat, today: int, s: Subscription)
    ensures s in ActiveSubscriptions(subscriptions, userId, today) <==>
      s in subscriptions && s.userId == userId && today < s.expiryDay
    ensures multiset(ActiveSubscriptions(subscriptions, userId, today))[s] ==
      if s.userId == userId && today < s.expiryDay then multiset(subscriptions)[s] else 0
  {
    FilterCounts(subscriptions, (x: Subscription) => x.userId == userId && Active(x, today), s);
  }
}
