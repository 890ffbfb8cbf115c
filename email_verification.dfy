/**
 * Email verification: the signed-link handler that marks the address as
 * verified, and the four-digit code flow (a code cached for ten minutes,
 * compared loosely with the submitted digits). The random draw, the clock,
 * the mail outcome and the intended redirect are inputs.
 */
module EmailVerification {
  import opened Wrappers
  import opened Decimal
  import opened Store
  import opened Http
  import PasswordReset

  /** How long a verification code stays in the cache, in seconds. */
  const CodeLifetime: int := 600

  function VerificationKey(email: string): string {
    "verification_code_" + email
  }

  /** The verification codes and the reset codes never share a cache entry. */
  lemma KeysNeverClash(a: string, b: string)
    ensures VerificationKey(a) != PasswordReset.ResetKey(b)
  {
    assert VerificationKey(a)[0] == 'v';
    assert PasswordReset.ResetKey(b)[0] == 'p';
  }

  /**
   * PHP's loose comparison of the cached code with a submitted string of four digits:
   * a cached integer is compared by value, a cached numeric string too.
   */
  predicate LooseEquals(v: CacheValue, code: string)
    requires AllDigits(code)
  {
    match v
    case Number(n) => n == Value(code)
    case Text(s) => s != "" && AllDigits(s) && Value(s) == Value(code)
  }

  predicate CodeMatches(stored: Option<CacheValue>, code: string)
    requires AllDigits(code)
  {
    stored.Some? && CacheTruthy(stored.value) && LooseEquals(stored.value, code)
  }

  function WithVerificationCode(entries: map<string, CacheEntry>, email: string, r: int, now: int): map<string, CacheEntry> {
    entries[VerificationKey(email) := CacheEntry(Number(r), now + CodeLifetime)]
  }

  lemma FourDigits(r: int)
    requires 1000 <= r <= 9999
    ensures |Dec(r)| == 4
  {
    assert Dec(r / 1000) == [DigitChar(r / 1000)];
    assert Dec(r / 100) == Dec(r / 1000) + [DigitChar(r / 100 % 10)];
    assert Dec(r / 10) == Dec(r / 100) + [DigitChar(r / 10 % 10)];
  }

  /**
   * After a code was sent, four submitted digits are accepted exactly when
   * they are the code's decimal text and fewer than ten minutes have passed.
   */
  lemma SentCodeMatches(entries: map<string, CacheEntry>, email: string, r: int, now: int, t: int, code: string)
    requires 1000 <= r <= 9999
    requires |code| == 4 && AllDigits(code)
    ensures CodeMatches(Lookup(WithVerificationCode(entries, email, r, now), VerificationKey(email), t), code) <==>
      t < now + CodeLifetime && code == Dec(r)
  {
    ValueOfDec(r);
    if Value(code) == r {
      FourDigits(r);
      ValueInjective(code, Dec(r));
    }
  }

  /** sendVerificationCode: a code from 1000 to 9999, kept for ten minutes and mailed; a failed mail answers 500 and the code stays. */
  method SendVerificationCode(users: UserTable, cache: CodeCache, email: string, r: int, now: int, mailSent: bool)
    returns (response: JsonResponse)
    requires UserByEmail(users.rows, email).Some?
    requires 1000 <= r <= 9999
    modifies cache
    ensures cache.entries == WithVerificationCode(old(cache.entries), email, r, now)
    ensures response == if mailSent then JsonResponse(200, "Verification code sent to your email.")
                        else JsonResponse(500, "Server Error")
  {
    cache.Put(VerificationKey(email), Number(r), now + CodeLifetime);
    if mailSent {
      response := JsonResponse(200, "Verification code sent to your email.");
    } else {
      response := JsonResponse(500, "Server Error");
    }
  }

  /**
   * verifyCode: a matching code stamps the user's `email_verified_at` with
   * the current instant and is forgotten; any other code changes nothing.
   */
  method VerifyCode(users: UserTable, cache: CodeCache, email: string, code: string, now: int)
    returns (response: JsonResponse)
    requires UserByEmail(users.rows, email).Some?
    requires |code| == 4 && AllDigits(code)
    modifies users, cache
    ensures var i := UserByEmail(old(users.rows), email).value;
      if CodeMatches(Lookup(old(cache.entries), VerificationKey(email), now), code) then
        response == JsonResponse(200, "Email verified successfully.") &&
        users.rows == old(users.rows)[i := old(users.rows)[i].(emailVerifiedAt := Some(now))] &&
        cache.entries == old(cache.entries) - {VerificationKey(email)}
      else
        response == JsonResponse(400, "Invalid verification code.") &&
        users.rows == old(users.rows) && cache.entries == old(cache.entries)
  {
    var cached := Lookup(cache.entries, VerificationKey(email), now);
    if cached.Some? && CacheTruthy(cached.value) && LooseEquals(cached.value, code) {
      var i := UserByEmail(users.rows, email).value;
      users.SetEmailVerifiedAt(i, now);
      cache.Forget(VerificationKey(email));
      return JsonResponse(200, "Email verified successfully.");
    }
    response := JsonResponse(400, "Invalid verification code.");
  }

  /**
   * The signed verification link (`__invoke`): an unverified user is
   * stamped and the `Verified` event fires; an already verified user is
   * left alone. Both go to the intended URL, or to the dashboard.
   */
  method MarkVerified(users: UserTable, i: nat, frontendUrl: string, intended: Option<string>, now: int)
    returns (redirect: string, eventFired: bool)
    requires i < |users.rows|
    modifies users
    ensures redirect == if intended.Some? then intended.value else frontendUrl + "/dashboard?verified=1"
    ensures eventFired <==> old(users.rows[i].emailVerifiedAt).None?
    ensures users.rows == if eventFired then old(users.rows)[i := old(users.rows)[i].(emailVerifiedAt := Some(now))]
                          else old(users.rows)
  {
    redirect := if intended.Some? then intended.value else frontendUrl + "/dashboard?verified=1";
    if users.rows[i].emailVerifiedAt.Some? {
      return redirect, false;
    }
    users.SetEmailVerifiedAt(i, now);
    eventFired := true;
  }
}
