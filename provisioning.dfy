/**
 * What both subscription paths compute before they contact the target
 * service: the subscription parameters (days, expiry, the "count" in
 * milliseconds, the capacity) and the provisioning URL
 * `{url}/ShareUser.html?usr=..&pwd=..&addusr=..&addpwd=..&addexp=..&addcnt=..&limitn=..`.
 * A query parser is the URL builder's partner: it recovers the seven fields
 * in their fixed order.
 */
module Provisioning {
  import opened Decimal
  import opened Calendar
  import opened Store

  /** `24 * 60 * 60 * 1000`: the source names it "days in seconds", it is milliseconds. */
  const MillisecondsPerDay: int := 86400000

  datatype Params = Params(days: int, expiryAt: int, expiryYmd: string, count: int, limit: int)

  /** The eight-digit `Ymd` text of the day an instant falls on. */
  function ExpiryText(expiryAt: int): string {
    Ymd(CivilFromDays(DayOf(expiryAt)))
  }

  /**
   * The provisioning parameters for a plan bought at `now`: the expiry
   * instant `days` days later, its `Ymd` text, and the count in
   * milliseconds.
   */
  function SubscriptionParams(days: int, limit: int, now: int): (p: Params)
    ensures p.days == days && p.limit == limit
    ensures DayOf(p.expiryAt) == DayOf(now) + days
    ensures p.count == days * MillisecondsPerDay
    ensures p.expiryYmd == ExpiryText(p.expiryAt)
  {
    var expiryAt := AddDays(now, days);
    Params(days, expiryAt, ExpiryText(expiryAt), days * 24 * 60 * 60 * 1000, limit)
  }

  /**
   * The expiry text is the date `days` after today (see `YmdFields` for
   * reading its fields back), written as eight digits whenever that date
   * falls in the years 0 to 9999.
   */
  lemma ExpiryTextIsDate(days: int, limit: int, now: int)
    requires 0 <= CivilFromDays(DayOf(now) + days).year <= 9999
    ensures SubscriptionParams(days, limit, now).expiryYmd == Ymd(CivilFromDays(DayOf(now) + days))
    ensures |SubscriptionParams(days, limit, now).expiryYmd| == 8
    ensures AllDigits(SubscriptionParams(days, limit, now).expiryYmd)
  {
    var p := SubscriptionParams(days, limit, now);
    var d := CivilFromDays(DayOf(now) + days);
    assert p.expiryYmd == Ymd(d);
    YmdFields(d);
  }

  /** The query fields in the order the target service's API expects them. */
  function ProvisioningFields(cors: Cors, userName: string, p: Params): seq<(string, string)> {
    [("usr", cors.username), ("pwd", cors.password),
     ("addusr", userName), ("addpwd", userName),
     ("addexp", p.expiryYmd), ("addcnt", IntText(p.count)), ("limitn", IntText(p.limit))]
  }

  function UrlBase(cors: Cors): string {
    cors.url + "/ShareUser.html?"
  }

  /** The provisioning command. Values are interpolated verbatim, without URL-encoding. */
  function ProvisioningUrl(cors: Cors, userName: string, p: Params): string {
    UrlBase(cors) + Query(ProvisioningFields(cors, userName, p))
  }

  function Pair(f: (string, string)): string {
    f.0 + "=" + f.1
  }

  /** `k1=v1&k2=v2&...`. */
  function Query(fields: seq<(string, string)>): string {
    if |fields| == 0 then ""
    else if |fields| == 1 then Pair(fields[0])
    else Pair(fields[0]) + "&" + Query(fields[1..])
  }

  /** The segments of a query string between '&' separators. */
  function Split(s: string): (r: seq<string>)
    ensures 1 <= |r|
  {
    if s == [] then [""]
    else
      var rest := Split(s[1..]);
      if s[0] == '&' then [""] + rest else [[s[0]] + rest[0]] + rest[1..]
  }

  /** A segment split at its first '='. */
  function ParsePair(segment: string): (string, string) {
    if segment == [] then ("", "")
    else if segment[0] == '=' then ("", segment[1..])
    else
      var (k, v) := ParsePair(segment[1..]);
      ([segment[0]] + k, v)
  }

  function ParsePairs(segments: seq<string>): (r: seq<(string, string)>)
    ensures |r| == |segments|
  {
    if segments == [] then [] else [ParsePair(segments[0])] + ParsePairs(segments[1..])
  }

  /** The key/value pairs of a query string, in order. */
  function ParseQuery(q: string): seq<(string, string)> {
    ParsePairs(Split(q))
  }

  lemma {:induction false} SplitPlain(a: string)
    requires '&' !in a
    ensures Split(a) == [a]
  {
    if a != [] {
      SplitPlain(a[1..]);
      assert [a[0]] + a[1..] == a;
    }
  }

  lemma {:induction false} SplitAt(a: string, b: string)
    requires '&' !in a
    ensures Split(a + "&" + b) == [a] + Split(b)
  {
    if a == [] {
      assert a + "&" + b == "&" + b;
    } else {
      assert (a + "&" + b)[1..] == a[1..] + "&" + b;
      SplitAt(a[1..], b);
      assert [a[0]] + a[1..] == a;
    }
  }

  lemma {:induction false} ParsePairOf(k: string, v: string)
    requires '=' !in k
    ensures ParsePair(k + "=" + v) == (k, v)
  {
    if k == [] {
      assert k + "=" + v == "=" + v;
    } else {
      assert (k + "=" + v)[1..] == k[1..] + "=" + v;
      ParsePairOf(k[1..], v);
      assert [k[0]] + k[1..] == k;
    }
  }

  ghost predicate Separable(fields: seq<(string, string)>) {
    forall i :: 0 <= i < |fields| ==>
      '&' !in fields[i].0 && '=' !in fields[i].0 && '&' !in fields[i].1
  }

  /** Parsing a built query gives back its fields, when no key or value carries a separator. */
  lemma {:induction false} ParseQueryRoundTrip(fields: seq<(string, string)>)
    requires 1 <= |fields| && Separable(fields)
    ensures ParseQuery(Query(fields)) == fields
  {
    ParsePairOf(fields[0].0, fields[0].1);
    if |fields| == 1 {
      SplitPlain(Pair(fields[0]));
    } else {
      SplitAt(Pair(fields[0]), Query(fields[1..]));
      ParseQueryRoundTrip(fields[1..]);
    }
  }

  lemma IntTextPlain(i: int)
    ensures '&' !in IntText(i) && '=' !in IntText(i)
  {
    var s := Dec(if i < 0 then -i else i);
    assert forall k :: 0 <= k < |s| ==> IsDigit(s[k]);
  }

  /**
   * The provisioning URL is the service's `/ShareUser.html?` followed by
   * exactly seven fields, `usr`, `pwd`, `addusr`, `addpwd`, `addexp`,
   * `addcnt`, `limitn` in that order, carrying the service credentials, the
   * user name twice, the expiry text, the count and the capacity, provided
   * the interpolated credentials contain no '&'.
   */
  lemma ProvisioningUrlFields(cors: Cors, userName: string, p: Params)
    requires '&' !in cors.username && '&' !in cors.password && '&' !in userName
    requires '&' !in p.expiryYmd
    ensures var url := ProvisioningUrl(cors, userName, p);
      |UrlBase(cors)| <= |url| && url[..|UrlBase(cors)|] == UrlBase(cors) &&
      ParseQuery(url[|UrlBase(cors)|..]) ==
        [("usr", cors.username), ("pwd", cors.password),
         ("addusr", userName), ("addpwd", userName),
         ("addexp", p.expiryYmd), ("addcnt", IntText(p.count)), ("limitn", IntText(p.limit))]
  {
    IntTextPlain(p.count);
    IntTextPlain(p.limit);
    var fields := ProvisioningFields(cors, userName, p);
    assert Separable(fields);
    ParseQueryRoundTrip(fields);
    var url := ProvisioningUrl(cors, userName, p);
    assert url[|UrlBase(cors)|..] == Query(fields);
  }

  /** The `addexp` value is made of digits (and a minus sign only before year 0): it never breaks the query. */
  lemma ExpiryTextPlain(expiryAt: int)
    ensures '&' !in ExpiryText(expiryAt)
  {
    var d := CivilFromDays(DayOf(expiryAt));
    var y := ZeroPad(Dec(if d.year < 0 then -d.year else d.year), 4);
    var m, dd := ZeroPad(Dec(d.month), 2), ZeroPad(Dec(d.day), 2);
    assert forall k :: 0 <= k < |y| ==> IsDigit(y[k]);
    assert forall k :: 0 <= k < |m| ==> IsDigit(m[k]);
    assert forall k :: 0 <= k < |dd| ==> IsDigit(dd[k]);
    assert ExpiryText(expiryAt) == (if d.year < 0 then "-" + y else y) + m + dd;
  }
}
