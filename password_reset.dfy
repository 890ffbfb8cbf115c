/**
 * Password reset for the mobile app: a six-digit code kept in the cache
 * for ten minutes under a key derived from the email, checked strictly,
 * and forgotten once the password has been changed. The random draw, the
 * clock, the password hash and the mail outcome are inputs.
 */
module PasswordReset {
  import opened Wrappers
  import opened Decimal
  import opened Store
  import opened Http

  /** Ten minutes, in seconds: how long a reset code stays in the cache. */
  const CodeLifetime: int := 600

  function ResetKey(email: string): string {
    "password_reset_code_" + email
  }

  /** Codes of different emails live under different keys. */
  lemma ResetKeyInjective(a: string, b: string)
    ensures ResetKey(a) == ResetKey(b) <==> a == b
  {
    if ResetKey(a) == ResetKey(b) {
      assert a == ResetKey(a)[20..];
      assert b == ResetKey(b)[20..];
    }
  }

  /** A draw from 0 to 999999 zero-padded to six digits: the code reads back as the draw. */
  function ResetCode(r: int): (code: string)
    requires 0 <= r <= 999999
    ensures |code| == 6 && AllDigits(code) && Value(code) == r
  {
    assert Pow10(6) == 1000000;
    PaddedDec(r, 6);
    ZeroPad(Dec(r), 6)
  }

  /** Distinct draws give distinct codes: no two draws share a code. */
  lemma ResetCodeInjective(a: int, b: int)
    requires 0 <= a <= 999999 && 0 <= b <= 999999
    ensures ResetCode(a) == ResetCode(b) <==> a == b
  {
  }

  /** The code check: a stored value that is truthy and strictly identical to the submitted string. */
  predicate CodeAccepted(stored: Option<CacheValue>, code: string) {
    stored.Some? && CacheTruthy(stored.value) && stored.value == Text(code)
  }

  /** The cache right after a code was sent at `now`. */
  function WithResetCode(entries: map<string, CacheEntry>, email: string, r: int, now: int): map<string, CacheEntry>
    requires 0 <= r <= 999999
  {
    entries[ResetKey(email) := CacheEntry(Text(ResetCode(r)), now + CodeLifetime)]
  }

  /**
   * After a code was sent, a submitted code is accepted exactly when it is
   * that code and fewer than ten minutes have passed; an earlier code for
   * the same email no longer works.
   */
  lemma SentCodeAccepted(entries: map<string, CacheEntry>, email: string, r: int, now: int, t: int, code: string)
    requires 0 <= r <= 999999
    ensures CodeAccepted(Lookup(WithResetCode(entries, email, r, now), ResetKey(email), t), code) <==>
      t < now + CodeLifetime && code == ResetCode(r)
  {
  }

  /** Sending a code for one email leaves every other email's code as it was. */
  lemma SendingIsPerEmail(entries: map<string, CacheEntry>, email: string, other: string, r: int, now: int, t: int, code: string)
    requires 0 <= r <= 999999 && other != email
    ensures CodeAccepted(Lookup(WithResetCode(entries, email, r, now), ResetKey(other), t), code) ==
      CodeAccepted(Lookup(entries, ResetKey(other), t), code)
  {
    var key := ResetKey(other);
    assert key != ResetKey(email) by {
      ResetKeyInjective(email, other);
    }
    LookupOtherKey(entries, ResetKey(email), CacheEntry(Text(ResetCode(r)), now + CodeLifetime), key, t);
  }

  /**
   * sendResetLink: stores a fresh code for ten minutes (replacing any
   * earlier one) and mails it; a failed mail answers 500 but the stored
   * code stays.
   */
  method SendResetLink(users: UserTable, cache: CodeCache, email: string, r: int, now: int, mailSent: bool)
    returns (response: JsonResponse)
    requires UserByEmail(users.rows, email).Some?
    requires 0 <= r <= 999999
    modifies cache
    ensures cache.entries == WithResetCode(old(cache.entries), email, r, now)
    ensures response == if mailSent then JsonResponse(200, "Password reset code has been sent to your email")
                        else JsonResponse(500, "Failed to send reset code")
  {
    var code := ResetCode(r);
    cache.Put(ResetKey(email), Text(code), now + CodeLifetime);
    if mailSent {
      response := JsonResponse(200, "Password reset code has been sent to your email");
    } else {
      response := JsonResponse(500, "Failed to send reset code");
    }
  }

  /** verifyToken: checks the code without consuming it. */
  method VerifyToken(cache: CodeCache, email: string, code: string, now: int) returns (response: JsonResponse)
    requires |code| == 6
    ensures response.status == 200 <==> CodeAccepted(Lookup(cache.entries, ResetKey(email), now), code)
    ensures response == if response.status == 200 then JsonResponse(200, "Code verified successfully")
                        else JsonResponse(400, "Invalid or expired code")
  {
    var stored := Lookup(cache.entries, ResetKey(email), now);
    if stored.None? || !CacheTruthy(stored.value) || stored.value != Text(code) {
      return JsonResponse(400, "Invalid or expired code");
    }
    response := JsonResponse(200, "Code verified successfully");
  }

  /**
   * resetPassword: the same check as verifyToken; then the user with that
   * email gets the new password hash and the code is forgotten. A rejected
   * code or an unknown email changes nothing.
   */
  method ResetPassword(users: UserTable, cache: CodeCache, email: string, code: string, passwordHash: string, now: int)
    returns (response: JsonResponse)
    requires |code| == 6
    modifies users, cache
    ensures var accepted := CodeAccepted(Lookup(old(cache.entries), ResetKey(email), now), code);
      var found := UserByEmail(old(users.rows), email);
      if !accepted then
        response == JsonResponse(400, "Invalid or expired code") &&
        users.rows == old(users.rows) && cache.entries == old(cache.entries)
      else if found.None? then
        response == JsonResponse(404, "User not found") &&
        users.rows == old(users.rows) && cache.entries == old(cache.entries)
      else
        response == JsonResponse(200, "Password has been reset successfully") &&
        users.rows == old(users.rows)[found.value := old(users.rows)[found.value].(passwordHash := passwordHash)] &&
        cache.entries == old(cache.entries) - {ResetKey(email)}
  {
    var stored := Lookup(cache.entries, ResetKey(email), now);
    if stored.None? || !CacheTruthy(stored.value) || stored.value != Text(code) {
      return JsonResponse(400, "Invalid or expired code");
    }
    var found := UserByEmail(users.rows, email);
    if found.None? {
      return JsonResponse(404, "User not found");
    }
    users.SetPasswordHash(found.value, passwordHash);
    cache.Forget(ResetKey(email));
    response := JsonResponse(200, "Password has been reset successfully");
  }

  /** A code that has reset a password is gone: submitting it again, at any instant, is refused. */
  lemma ResetIsOneShot(entries: map<string, CacheEntry>, email: string, t: int, code: string)
    ensures !CodeAccepted(Lookup(entries - {ResetKey(email)}, ResetKey(email), t), code)
  {
  }
}
