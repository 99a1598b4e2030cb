/** `verify`: a two-branch check. A refresh token is valid when it matches the
    user's stored session; an access token is checked by the JWT library,
    whose answer is taken as given and whose errors are mapped to the
    service's own. */
module TokenVerifier {
  import opened AuthTypes
  import opened Ledger

  /** What `jwt.verify(token, secret, { algorithms: ["HS256"] })` does: decode
      the payload, throw TokenExpiredError, throw another JsonWebTokenError, or
      fail with some other exception. */
  datatype JwtOutcome =
    | Decoded(userId: UserId, exp: int)
    | ExpiredSignature
    | JwtError
    | OtherFailure(cause: string)

  /** The JWT library's check, as a function of the token string and the secret. */
  type Decoder = (string, string) -> JwtOutcome

  /** The value `verify` returns: the user id, and the expiry for an access token. */
  datatype Verified = Verified(userId: UserId, exp: Option<int>)

  /** The refresh branch: `userId` is the caller's hint, and the stored session
      decides alone. */
  function VerifyRefresh(sessions: map<UserId, Session>, jwtString: string, userId: Option<UserId>): (r: Result<Verified>)
    ensures r.Ok? <==>
      userId.Some? && userId.value != "" && userId.value in sessions &&
      sessions[userId.value].refreshToken == jwtString
    ensures r.Ok? ==> r.value == Verified(sessions[userId.value].userId, None)
    ensures r == Err(SessionNotFound) <==> userId.None? || userId.value == "" || userId.value !in sessions
    ensures r.Err? ==> r.error == SessionNotFound || r.error == TokenInvalid
  {
    if userId.None? || userId.value == "" then Err(SessionNotFound)
    else if userId.value !in sessions then Err(SessionNotFound)
    else if sessions[userId.value].refreshToken != jwtString then Err(TokenInvalid)
    else Ok(Verified(sessions[userId.value].userId, None))
  }

  /** The access branch, given what the JWT library made of the token. */
  function VerifyAccess(outcome: JwtOutcome): (r: Result<Verified>)
    ensures r.Ok? <==> outcome.Decoded?
    ensures r.Ok? ==> r.value == Verified(outcome.userId, Some(outcome.exp))
    ensures r == Err(TokenExpired) <==> outcome.ExpiredSignature?
    ensures r == Err(TokenInvalid) <==> outcome.JwtError?
    ensures outcome.OtherFailure? ==> r == Err(Rethrown(outcome.cause))
  {
    match outcome
    case Decoded(u, exp) => Ok(Verified(u, Some(exp)))
    case ExpiredSignature => Err(TokenExpired)
    case JwtError => Err(TokenInvalid)
    case OtherFailure(cause) => Err(Rethrown(cause))
  }

  /** `verify(jwtString, secret, type, userId)`. */
  function Verify(sessions: map<UserId, Session>, jwtString: string, secret: string, kind: TokenKind,
                  userId: Option<UserId>, decode: Decoder): Result<Verified>
  {
    if kind == Refresh then VerifyRefresh(sessions, jwtString, userId)
    else VerifyAccess(decode(jwtString, secret))
  }

  /** The refresh branch consults neither the secret nor the JWT library. */
  lemma RefreshIgnoresSecretAndClaims(sessions: map<UserId, Session>, jwtString: string, userId: Option<UserId>,
                                      secret1: string, secret2: string, decode1: Decoder, decode2: Decoder)
    ensures Verify(sessions, jwtString, secret1, Refresh, userId, decode1)
         == Verify(sessions, jwtString, secret2, Refresh, userId, decode2)
  {
  }

  /** The access branch never looks at the sessions and never reports a missing session. */
  lemma AccessIgnoresSessions(s1: map<UserId, Session>, s2: map<UserId, Session>, jwtString: string,
                              secret: string, userId: Option<UserId>, decode: Decoder)
    ensures Verify(s1, jwtString, secret, Access, userId, decode) == Verify(s2, jwtString, secret, Access, userId, decode)
    ensures Verify(s1, jwtString, secret, Access, userId, decode) != Err(SessionNotFound)
  {
  }

  /** The refresh token written by a token issuance verifies for its user and
      yields that user's id. */
  lemma IssuedRefreshTokenVerifies(st: Store, u: UserId, refreshToken: string, ip: string, userAgent: string)
    requires u != ""
    ensures VerifyRefresh(Issue(st, u, refreshToken, ip, userAgent).sessions, refreshToken, Some(u)) == Ok(Verified(u, None))
  {
  }

  /** A second issuance for the same user revokes the first refresh token:
      only the second one verifies, the first is TokenInvalid. */
  lemma ReissueInvalidatesEarlierToken(st: Store, u: UserId, t1: string, t2: string,
                                       ip1: string, ua1: string, ip2: string, ua2: string)
    requires u != "" && t1 != t2
    ensures var s := Issue(Issue(st, u, t1, ip1, ua1), u, t2, ip2, ua2).sessions;
      VerifyRefresh(s, t1, Some(u)) == Err(TokenInvalid) &&
      VerifyRefresh(s, t2, Some(u)) == Ok(Verified(u, None))
  {
  }

  /** In a reachable store, a refresh token that verifies yields exactly the
      user id it was looked up under. */
  lemma VerifiedRefreshNamesItsKey(st: Store, jwtString: string, u: UserId)
    requires Valid(st)
    requires VerifyRefresh(st.sessions, jwtString, Some(u)).Ok?
    ensures VerifyRefresh(st.sessions, jwtString, Some(u)).value.userId == u
  {
  }

  /** Once the session key has expired, every refresh token of that user is SessionNotFound. */
  lemma ExpiredSessionNotFound(st: Store, u: UserId, jwtString: string)
    ensures VerifyRefresh(ExpireSession(st, u).sessions, jwtString, Some(u)) == Err(SessionNotFound)
  {
  }
}
