/**
 * Registration: the generated user name (a prefix of the cleaned first
 * name followed by random lower-case letters, twelve characters in all),
 * the numeric suffix that makes it unique, and the new account with its
 * first API token. The random draws are inputs.
 */
module Registration {
  import opened Wrappers
  import opened Decimal
  import opened Store

  predicate IsUpper(c: char) { 'A' <= c <= 'Z' }
  predicate IsLower(c: char) { 'a' <= c <= 'z' }

  /** `strtolower` on one ASCII letter. */
  function ToLower(c: char): (r: char)
    requires IsUpper(c) || IsLower(c)
    ensures IsLower(r)
  {
    if IsUpper(c) then (c as int - 'A' as int + 'a' as int) as char else c
  }

  /** The name reduced to its ASCII letters, in lower case. */
  function Clean(name: string): (r: string)
    ensures |r| <= |name|
    ensures forall i :: 0 <= i < |r| ==> IsLower(r[i])
  {
    if name == [] then []
    else if IsUpper(name[0]) || IsLower(name[0]) then [ToLower(name[0])] + Clean(name[1..])
    else Clean(name[1..])
  }

  /** A name made only of lower-case ASCII letters is its own cleaning. */
  lemma {:induction false} CleanLowercase(name: string)
    requires forall i :: 0 <= i < |name| ==> IsLower(name[i])
    ensures Clean(name) == name
  {
    if name != [] {
      CleanLowercase(name[1..]);
    }
  }

  /**
   * The first `min(5, max(3, n))` characters of the cleaned first name,
   * or of "user" when nothing is left; a cleaned name of one or two letters
   * is kept whole.
   */
  function Prefix(firstName: string): (p: string)
    ensures 1 <= |p| <= 5
    ensures forall i :: 0 <= i < |p| ==> IsLower(p[i])
    ensures Clean(firstName) == [] ==> p == "user"
    ensures Clean(firstName) != [] ==>
      |p| == (if |Clean(firstName)| < 5 then |Clean(firstName)| else 5) && p == Clean(firstName)[..|p|]
  {
    var c := if Clean(firstName) == [] then "user" else Clean(firstName);
    var n := if |c| < 3 then 3 else if |c| > 5 then 5 else |c|;
    if n <= |c| then c[..n] else c
  }

  /** The d-th letter of the lower-case alphabet. */
  function Letter(d: int): (c: char)
    requires 0 <= d < 26
    ensures IsLower(c)
  {
    ('a' as int + d) as char
  }

  predicate ValidDraws(draws: seq<int>) {
    forall i :: 0 <= i < |draws| ==> 0 <= draws[i] < 26
  }

  /** The letters chosen by a run of draws from 0 to 25. */
  function Letters(draws: seq<int>): (r: string)
    requires ValidDraws(draws)
    ensures |r| == |draws|
    ensures forall i :: 0 <= i < |r| ==> r[i] == Letter(draws[i])
  {
    if draws == [] then [] else Letters(draws[..|draws| - 1]) + [Letter(draws[|draws| - 1])]
  }

  /** The user name generated from a first name and the random draws it consumes. */
  function Username(firstName: string, draws: seq<int>): (r: string)
    requires ValidDraws(draws) && 12 - |Prefix(firstName)| <= |draws|
    ensures |r| == 12
    ensures forall i :: 0 <= i < 12 ==> IsLower(r[i])
    ensures r[..|Prefix(firstName)|] == Prefix(firstName)
  {
    Prefix(firstName) + Letters(draws[..12 - |Prefix(firstName)|])
  }

  /**
   * generateUsername: twelve lower-case letters, starting with the prefix.
   * The last name is not used.
   */
  method GenerateUsername(firstName: string, lastName: string, draws: seq<int>) returns (userName: string)
    requires ValidDraws(draws) && 12 - |Prefix(firstName)| <= |draws|
    ensures userName == Username(firstName, draws)
    ensures |userName| == 12
    ensures forall i :: 0 <= i < 12 ==> IsLower(userName[i])
    ensures userName[..|Prefix(firstName)|] == Prefix(firstName)
  {
    var prefix := Prefix(firstName);
    var randomLength := 12 - |prefix|;
    var randomChars := "";
    for i := 0 to randomLength
      invariant randomChars == Letters(draws[..i])
    {
      assert draws[..i + 1][..i] == draws[..i];
      randomChars := randomChars + [Letter(draws[i])];
    }
    userName := prefix + randomChars;
  }

  /** For one first name, different draws give different names: the random part is kept verbatim. */
  lemma UsernameDeterminedByDraws(firstName: string, draws1: seq<int>, draws2: seq<int>)
    requires ValidDraws(draws1) && 12 - |Prefix(firstName)| <= |draws1|
    requires ValidDraws(draws2) && 12 - |Prefix(firstName)| <= |draws2|
    ensures var n := 12 - |Prefix(firstName)|;
      Username(firstName, draws1) == Username(firstName, draws2) <==> draws1[..n] == draws2[..n]
  {
    var n := 12 - |Prefix(firstName)|;
    var p := Prefix(firstName);
    if Username(firstName, draws1) == Username(firstName, draws2) {
      var l1, l2 := Letters(draws1[..n]), Letters(draws2[..n]);
      assert l1 == Username(firstName, draws1)[|p|..];
      assert l2 == Username(firstName, draws2)[|p|..];
      forall i | 0 <= i < n
        ensures draws1[..n][i] == draws2[..n][i]
      {
        assert Letter(draws1[..n][i]) == l1[i] == l2[i] == Letter(draws2[..n][i]);
      }
    }
  }

  // ------------------------------------------------------------- unique name

  /** The k-th name tried: the generated name, then the name followed by 1, 2, ... */
  function Candidate(original: string, k: nat): string {
    if k == 0 then original else original + Dec(k)
  }

  lemma CandidateInjective(original: string, j: nat, k: nat)
    ensures Candidate(original, j) == Candidate(original, k) ==> j == k
  {
    if j != 0 && k != 0 && Candidate(original, j) == Candidate(original, k) {
      assert Dec(j) == Candidate(original, j)[|original|..];
      assert Dec(k) == Candidate(original, k)[|original|..];
      DecInjective(j, k);
    }
  }

  /** The candidates before the k-th. */
  ghost function Tried(original: string, k: nat): set<string> {
    if k == 0 then {} else Tried(original, k - 1) + {Candidate(original, k - 1)}
  }

  lemma {:induction false} NotYetTried(original: string, k: nat, m: nat)
    requires k <= m
    ensures Candidate(original, m) !in Tried(original, k)
  {
    if k > 0 {
      CandidateInjective(original, k - 1, m);
      NotYetTried(original, k - 1, m);
    }
  }

  lemma TryingShrinks(names: set<string>, tried: set<string>, next: string)
    requires next in names && next !in tried
    ensures |names - (tried + {next})| < |names - tried|
  {
    assert names - tried == (names - (tried + {next})) + {next};
  }

  /**
   * The counter loop of store: the first candidate no user has, with every
   * earlier candidate taken.
   */
  method UniqueUserName(users: UserTable, original: string) returns (userName: string, ghost k: nat)
    ensures userName == Candidate(original, k)
    ensures userName !in UserNames(users.rows)
    ensures forall j :: 0 <= j < k ==> Candidate(original, j) in UserNames(users.rows)
  {
    var names := UserNames(users.rows);
    userName := original;
    var counter := 1;
    k := 0;
    while userName in names
      invariant counter == k + 1 && userName == Candidate(original, k)
      invariant forall j :: 0 <= j < k ==> Candidate(original, j) in names
      decreases |names - Tried(original, k)|
    {
      ghost var tried := Tried(original, k);
      NotYetTried(original, k, k);
      TryingShrinks(names, tried, userName);
      assert Tried(original, k + 1) == tried + {userName};
      userName := original + Dec(counter);
      k := counter;
      counter := counter + 1;
    }
  }

  // -------------------------------------------------------------------- store

  datatype RegisterResponse = RegisterResponse(status: int, user: User, token: string)

  /** A token's plain text: its row id, a bar, and the random secret. */
  function PlainTextToken(t: Token): string {
    Dec(t.id) + "|" + t.secret
  }

  /**
   * store: creates the user under a unique generated name (the email is
   * already known to be unused, the id is the next auto-increment value),
   * issues its first token, and answers 201.
   */
  method Register(
    users: UserTable, tokens: TokenTable,
    id: nat, firstName: string, lastName: string, email: string, passwordHash: string,
    draws: seq<int>, secret: string)
    returns (response: RegisterResponse)
    requires FoldCase(email) == email
    requires UserByEmail(users.rows, email).None? && FindUser(users.rows, id).None?
    requires ValidDraws(draws) && 12 - |Prefix(firstName)| <= |draws|
    requires tokens.Valid()
    modifies users, tokens
    ensures tokens.Valid()
    ensures response.status == 201
    ensures users.rows == old(users.rows) + [response.user]
    ensures response.user == User(id, firstName, lastName, email, response.user.userName, passwordHash, None)
    ensures response.user.userName !in UserNames(old(users.rows))
    ensures exists k: nat ::
      && response.user.userName == Candidate(Username(firstName, draws), k)
      && forall j :: 0 <= j < k ==> Candidate(Username(firstName, draws), j) in UserNames(old(users.rows))
    ensures tokens.rows == old(tokens.rows) + [Token(old(tokens.nextId), id, secret)]
    ensures response.token == PlainTextToken(Token(old(tokens.nextId), id, secret))
  {
    var generated := GenerateUsername(firstName, lastName, draws);
    var userName, k := UniqueUserName(users, generated);
    var user := User(id, firstName, lastName, email, userName, passwordHash, None);
    users.Insert(user);
    var t := tokens.Issue(id, secret);
    response := RegisterResponse(201, user, PlainTextToken(t));
  }
}
