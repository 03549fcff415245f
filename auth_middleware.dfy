/**
 * The request-authentication decisions: reading a bearer token out of an
 * `Authorization` header, the `requireAuth` decision chain and the type check
 * on interview-session tokens. Signing and verifying a JWT are inputs: a
 * verifier is a function from the token text to the decoded claims, `None`
 * when the signature or expiry does not check out.
 */
module AuthMiddleware {
  import opened Basics
  import opened Text

  /** The header prefix `extractTokenFromHeader` expects, before its single space. */
  const BearerScheme: string := "Bearer"

  /** `extractTokenFromHeader`: the second of exactly two space-separated parts whose first is `Bearer`. */
  function ExtractTokenFromHeader(authHeader: Option<string>): (r: Option<string>)
    ensures authHeader.None? || authHeader.value == "" ==> r.None?
  {
    if authHeader.None? || authHeader.value == "" then None
    else
      var parts := Split(authHeader.value, ' ');
      if |parts| != 2 || parts[0] != BearerScheme then None else Some(parts[1])
  }

  /** A token is only ever read from a header that is exactly `Bearer `, then that token, with no further space. */
  lemma ExtractTokenSound(authHeader: Option<string>)
    requires ExtractTokenFromHeader(authHeader).Some?
    ensures var t := ExtractTokenFromHeader(authHeader).value;
            authHeader == Some(BearerScheme + " " + t) && ' ' !in t
  {
    var h := authHeader.value;
    var parts := Split(h, ' ');
    SplitJoin(h, ' ');
    assert Join(parts, ' ') == parts[0] + [' '] + Join(parts[1..], ' ');
    assert parts[1..] == [parts[1]];
    assert ' ' !in parts[1] by {
      assert parts[1] == Split(h, ' ')[1];
    }
  }

  /** Conversely, `Bearer ` followed by any text without a space yields exactly that text. */
  lemma ExtractTokenComplete(token: string)
    requires ' ' !in token
    ensures ExtractTokenFromHeader(Some(BearerScheme + " " + token)) == Some(token)
  {
    assert BearerScheme + " " + token == BearerScheme + [' '] + token;
    SplitAround(BearerScheme, token, ' ');
    SplitNoSep(token, ' ');
  }

  /** `Bearer ` alone yields the empty token; a lower-case scheme or a token with a space yields nothing. */
  lemma ExtractTokenExamples()
    ensures ExtractTokenFromHeader(Some("Bearer ")) == Some("")
    ensures ExtractTokenFromHeader(Some("bearer abc")).None?
    ensures ExtractTokenFromHeader(Some("Bearer a b")).None?
  {
    ExtractTokenComplete("");
    assert BearerScheme + " " + "" == "Bearer ";
  }

  /** `TokenPayload`: the claims of a user token. */
  datatype TokenPayload = TokenPayload(userId: string, email: string, name: Option<string>, iat: int, exp: int)

  /** The object `requireAuth` resolves to. */
  datatype AuthResult = AuthResult(success: bool, payload: Option<TokenPayload>, error: Option<string>)

  const NoTokenError: string := "No authentication token provided"
  const InvalidTokenError: string := "Invalid or expired token"

  /**
   * `requireAuth`: a missing or empty token fails first, then a token the
   * verifier rejects; otherwise the verifier's claims are the payload.
   */
  function RequireAuth(authHeader: Option<string>, verifyToken: string -> Option<TokenPayload>): (r: AuthResult)
    ensures r.success <==> r.payload.Some?
    ensures r.success <==> r.error.None?
    ensures r.error == Some(NoTokenError) <==> ExtractTokenFromHeader(authHeader) in {None, Some("")}
    ensures r.error == Some(InvalidTokenError) <==>
              exists t :: ExtractTokenFromHeader(authHeader) == Some(t) && t != "" && verifyToken(t).None?
    ensures r.success ==> exists t :: ExtractTokenFromHeader(authHeader) == Some(t) && t != "" && verifyToken(t) == r.payload
  {
    var token := ExtractTokenFromHeader(authHeader);
    if token.None? || token.value == "" then AuthResult(false, None, Some(NoTokenError))
    else
      var payload := verifyToken(token.value);
      if payload.None? then AuthResult(false, None, Some(InvalidTokenError))
      else AuthResult(true, payload, None)
  }

  /** A well-formed bearer header whose token verifies authenticates with exactly the verified claims. */
  lemma RequireAuthOfBearer(token: string, verifyToken: string -> Option<TokenPayload>, claims: TokenPayload)
    requires ' ' !in token && token != ""
    requires verifyToken(token) == Some(claims)
    ensures RequireAuth(Some(BearerScheme + " " + token), verifyToken) == AuthResult(true, Some(claims), None)
  {
    ExtractTokenComplete(token);
  }

  /** The header `Bearer ` carries an empty token, which counts as no token at all. */
  lemma EmptyBearerIsNoToken(verifyToken: string -> Option<TokenPayload>)
    ensures RequireAuth(Some("Bearer "), verifyToken).error == Some(NoTokenError)
  {
    ExtractTokenExamples();
  }

  /** The claims `generateSessionToken` signs and `verifySessionToken` reads back. */
  datatype SessionClaims = SessionClaims(sessionId: string, kind: string, timestamp: int)

  /** The `type` claim of an interview-session token. */
  const SessionTokenType: string := "interview_session"

  /** The payload of `generateSessionToken`, with the clock reading as an input. */
  function SessionTokenClaims(sessionId: string, now: int): (c: SessionClaims)
    ensures c.sessionId == sessionId && c.kind == SessionTokenType && c.timestamp == now
  {
    SessionClaims(sessionId, SessionTokenType, now)
  }

  /** `verifySessionToken`: the decoded claims, but only when their type is `interview_session`. */
  function VerifySessionToken(token: string, decode: string -> Option<SessionClaims>): (r: Option<SessionClaims>)
    ensures r.Some? <==> decode(token).Some? && decode(token).value.kind == SessionTokenType
    ensures r.Some? ==> r == decode(token)
  {
    var decoded := decode(token);
    if decoded.None? || decoded.value.kind != SessionTokenType then None else decoded
  }

  /**
   * A token whose verified claims are those `generateSessionToken` signed is
   * accepted with those claims. That signing and verifying give back the signed
   * claims is what the `decode` parameter is assumed to do; the lemma shows only
   * that the type check accepts what `generateSessionToken` produces.
   */
  lemma SessionTokenRoundTrip(sessionId: string, now: int, token: string, decode: string -> Option<SessionClaims>)
    requires decode(token) == Some(SessionTokenClaims(sessionId, now))
    ensures VerifySessionToken(token, decode) == Some(SessionClaims(sessionId, SessionTokenType, now))
  {
  }
}
