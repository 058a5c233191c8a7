/** Bearer-token authentication of the admin API routes: the `verifyAuth`
    helper that the posts, tags and category routes each define identically,
    and `verifyToken`. The header must start with `Bearer ` exactly (the
    scheme compared case-sensitively, a stricter reading of section 2.1 of
    RFC 6750 than the case-insensitive scheme of section 2.1 of RFC 7235),
    and the token is the second field of the header split on single spaces.
    The identity provider that checks the token is a parameter. */
module BearerAuth {
  import opened Wrappers
  import opened Strings

  const SCHEME := "Bearer "
  const NO_BEARER := "No bearer token provided"
  const INVALID_OR_EXPIRED := "Invalid or expired token"
  const AUTH_FAILED := "Authentication failed"
  const INVALID_TOKEN := "Invalid token"

  /** `authHeader?.startsWith('Bearer ')`: when it holds, the header's
      first space-separated field is `Bearer` and a second field exists, so
      `split(' ')[1]` is defined. */
  function IsBearer(header: Option<string>): (b: bool)
    ensures b ==> header.Some? && |Split(header.value, ' ')| >= 2 && Split(header.value, ' ')[0] == "Bearer"
  {
    if header.Some? && StartsWith(header.value, SCHEME) then BearerSplit(header.value); true
    else false
  }

  /** A header with the scheme splits into `Bearer` and the pieces of what
      follows the scheme's space. */
  lemma BearerSplit(h: string)
    requires StartsWith(h, SCHEME)
    ensures Split(h, ' ') == ["Bearer"] + Split(h[7..], ' ')
  {
    assert h == "Bearer" + h[6..];
    SplitPrefix("Bearer", h[6..], ' ');
    assert h[6..][0] == ' ' && h[6..][1..] == h[7..];
    assert Split(h[6..], ' ') == [""] + Split(h[7..], ' ');
    assert "Bearer" + "" == "Bearer";
  }

  /** `authHeader.split(' ')[1]` */
  function TokenOf(h: string): (token: string)
    requires StartsWith(h, SCHEME)
    ensures ' ' !in token
  {
    BearerSplit(h);
    Split(h, ' ')[1]
  }

  /** The token is everything after the scheme up to the next space. */
  lemma TokenIsRestUpToSpace(h: string)
    requires StartsWith(h, SCHEME)
    ensures TokenOf(h) == Before(h[7..], ' ')
  {
    BearerSplit(h);
  }

  /** Round trip: a token without spaces is read back from the header built
      for it, whatever follows it after a space. */
  lemma TokenRoundTrip(token: string, rest: string)
    requires ' ' !in token
    ensures TokenOf(SCHEME + token) == token
    ensures TokenOf(SCHEME + token + " " + rest) == token
  {
    var h1 := SCHEME + token;
    var h2 := SCHEME + token + " " + rest;
    assert StartsWith(h1, SCHEME) && h1[7..] == token;
    assert StartsWith(h2, SCHEME) && h2[7..] == token + [' '] + rest;
    TokenIsRestUpToSpace(h1);
    TokenIsRestUpToSpace(h2);
    SplitPrefix(token, "", ' ');
    assert token + "" == token;
    BeforeOfJoined(token, rest, ' ');
  }

  /** Two spaces after the scheme give an empty token. */
  lemma DoubleSpaceGivesEmptyToken(rest: string)
    ensures TokenOf(SCHEME + " " + rest) == ""
  {
    var h := SCHEME + " " + rest;
    assert StartsWith(h, SCHEME) && h[7..] == "" + [' '] + rest;
    TokenIsRestUpToSpace(h);
    BeforeOfJoined("", rest, ' ');
  }

  /** The scheme is compared case-sensitively. */
  lemma LowercaseSchemeIsNotBearer(rest: string)
    ensures !IsBearer(Some("bearer " + rest))
  {
    assert ("bearer " + rest)[0] == 'b';
  }

  // ---------------------------------------------------------------------------
  // verifyAuth (posts, tags and category routes)

  /** What `supabase.auth.getUser(token)` answered: a user, an error or no
      user, or an exception (given as its string form). */
  datatype Lookup = Found(userId: string) | Rejected | Threw(description: string)

  /** `{ user }` or `{ error }` */
  datatype AuthResult = Authenticated(userId: string) | AuthFailed(error: string)

  function VerifyAuth(header: Option<string>, getUser: string -> Lookup): (r: AuthResult)
    ensures !IsBearer(header) ==> r == AuthFailed(NO_BEARER)
    ensures r.Authenticated? <==> IsBearer(header) && getUser(TokenOf(header.value)).Found?
    ensures r.Authenticated? ==> r.userId == getUser(TokenOf(header.value)).userId
    ensures IsBearer(header) && getUser(TokenOf(header.value)).Rejected? ==> r == AuthFailed(INVALID_OR_EXPIRED)
    ensures IsBearer(header) && getUser(TokenOf(header.value)).Threw? ==>
              r == AuthFailed(AUTH_FAILED + getUser(TokenOf(header.value)).description)
    ensures r.AuthFailed? ==> r.error != ""
  {
    if !IsBearer(header) then AuthFailed(NO_BEARER)
    else
      match getUser(TokenOf(header.value))
      case Found(u) => Authenticated(u)
      case Rejected => AuthFailed(INVALID_OR_EXPIRED)
      case Threw(d) => AuthFailed(AUTH_FAILED + d)
  }

  /** The identity provider is consulted with the token the client put in
      the header. */
  lemma VerifyAuthOfToken(token: string, getUser: string -> Lookup)
    requires ' ' !in token
    ensures VerifyAuth(Some(SCHEME + token), getUser) ==
            match getUser(token)
            case Found(u) => Authenticated(u)
            case Rejected => AuthFailed(INVALID_OR_EXPIRED)
            case Threw(d) => AuthFailed(AUTH_FAILED + d)
  {
    TokenRoundTrip(token, "");
    assert StartsWith(SCHEME + token, SCHEME);
  }

  // ---------------------------------------------------------------------------
  // verifyToken (utils/auth.ts)

  /** What the provider's `/auth/v1/user` endpoint answered: `ok` with the
      user's JSON, not `ok`, or an exception. */
  datatype TokenCheck<U> = Verified(user: U) | NotOk | CheckThrew(description: string)

  /** `{ user, error }`, where exactly one of the two is not null. */
  datatype TokenResult<U> = TokenResult(user: Option<U>, error: Option<string>)

  function VerifyToken<U>(header: Option<string>, check: string -> TokenCheck<U>): (r: TokenResult<U>)
    ensures r.user.Some? <==> r.error.None?
    ensures !IsBearer(header) ==> r == TokenResult(None, Some(NO_BEARER))
    ensures r.user.Some? <==> IsBearer(header) && check(TokenOf(header.value)).Verified?
    ensures r.user.Some? ==> r.user.value == check(TokenOf(header.value)).user
    ensures IsBearer(header) && r.error.Some? ==> StartsWith(r.error.value, INVALID_TOKEN)
    ensures IsBearer(header) && check(TokenOf(header.value)).NotOk? ==> r.error == Some(INVALID_TOKEN)
  {
    if !IsBearer(header) then TokenResult(None, Some(NO_BEARER))
    else
      match check(TokenOf(header.value))
      case Verified(u) => TokenResult(Some(u), None)
      case NotOk => TokenResult(None, Some(INVALID_TOKEN))
      case CheckThrew(d) =>
        assert (INVALID_TOKEN + d)[..|INVALID_TOKEN|] == INVALID_TOKEN;
        TokenResult(None, Some(INVALID_TOKEN + d))
  }

  /** Both helpers accept the same headers and read the same token from
      them: they differ only in their error messages and result shape. */
  lemma HelpersAgree<U>(header: Option<string>, getUser: string -> Lookup, check: string -> TokenCheck<U>)
    requires IsBearer(header) ==>
               (getUser(TokenOf(header.value)).Found? <==> check(TokenOf(header.value)).Verified?)
    ensures VerifyAuth(header, getUser).Authenticated? <==> VerifyToken(header, check).user.Some?
  {
  }
}
