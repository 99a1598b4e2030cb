/** The service object itself: the Redis keys it owns are fields that its
    methods update step by step, and each method is proved to make exactly the
    change its specification in `Ledger`, `TokenVerifier` or `Authenticator`
    describes. */
module AuthServiceModel {
  import opened AuthTypes
  import opened Ledger
  import opened TokenVerifier
  import Authenticator

  class AuthService {
    /** Injected collaborators (read-only to this service). */
    const users: map<Email, User>
    const compatible: (AuthType, ProviderId) -> bool
    const compare: (string, string) -> bool

    /** The Redis keys, one map per key family, and the block requests sent so far. */
    var attempts: map<UserId, nat>
    var sessions: map<UserId, Session>
    var blacklist: map<UserId, BlacklistEntry>
    var blockLog: seq<Block>

    function Snapshot(): Store
      reads this
    {
      Store(attempts, sessions, blacklist, blockLog)
    }

    function Collaborators(): Authenticator.Env
    {
      Authenticator.Env(users, compatible, compare)
    }

    ghost predicate Valid()
      reads this
    {
      Ledger.Valid(Snapshot())
    }

    constructor (users: map<Email, User>, compatible: (AuthType, ProviderId) -> bool, compare: (string, string) -> bool)
      ensures Valid() && Snapshot() == Empty()
      ensures Collaborators() == Authenticator.Env(users, compatible, compare)
    {
      this.users := users;
      this.compatible := compatible;
      this.compare := compare;
      attempts, sessions, blacklist, blockLog := map[], map[], map[], [];
    }

    /** GET the counter; at 5 or more request a block, otherwise INCR (or SET
        to 1 when absent); then throw. */
    method IncrementFailedLoginAttempts(userId: UserId) returns (e: AuthError)
      requires Valid()
      modifies this
      ensures Valid()
      ensures (Snapshot(), e) == Fail(old(Snapshot()), userId)
    {
      if userId in attempts {
        var count := attempts[userId];
        if count > MaxAttempts - 1 {
          blockLog := blockLog + [Block(userId, PasswordAttemptExceeded)];
          return AccountBlocked;
        }
        attempts := attempts[userId := count + 1];
        return Mismatch(count + 1);
      } else {
        attempts := attempts[userId := 1];
        return Mismatch(1);
      }
    }

    /** DEL the counter. */
    method ResetFailedLoginAttempts(userId: UserId)
      requires Valid()
      modifies this
      ensures Valid()
      ensures Snapshot() == Reset(old(Snapshot()), userId)
    {
      attempts := attempts - {userId};
    }

    /** HMSET the blacklist hash with the token and the time `now`. */
    method SetBlacklist(userId: UserId, accessToken: string, now: string) returns (status: BlacklistStatus)
      requires Valid()
      modifies this
      ensures Valid()
      ensures status == Blacklisted
      ensures Snapshot() == Revoke(old(Snapshot()), userId, accessToken, now)
    {
      blacklist := blacklist[userId := BlacklistEntry(accessToken, now)];
      status := Blacklisted;
    }

    /** HGETALL the blacklist hash and compare its token with `token`. */
    method GetBlacklist(userId: UserId, token: string) returns (status: BlacklistStatus)
      ensures status == BlacklistStatusOf(Snapshot(), userId, token)
    {
      status := NonBlacklisted;
      if userId in blacklist {
        var entry := blacklist[userId];
        if entry.accessToken == token {
          status := Blacklisted;
        }
      }
    }

    /** Sign the pair (`minted`) and HMSET the session hash, replacing the old session. */
    method CreateTokens(userId: UserId, ip: string, userAgent: string, minted: Token) returns (tokens: Token)
      requires Valid()
      modifies this
      ensures Valid()
      ensures tokens == minted
      ensures Snapshot() == Issue(old(Snapshot()), userId, minted.refreshToken, ip, userAgent)
    {
      sessions := sessions[userId := Session(userId, minted.refreshToken, ip, userAgent)];
      tokens := minted;
    }

    /** The refresh branch reads the session hash; the access branch asks the
        JWT library (`decode`) and maps its errors. */
    method Verify(jwtString: string, secret: string, kind: TokenKind, userId: Option<UserId>, decode: Decoder)
      returns (r: Result<Verified>)
      ensures r == TokenVerifier.Verify(sessions, jwtString, secret, kind, userId, decode)
    {
      if kind == Refresh {
        if userId.None? || userId.value == "" {
          return Err(SessionNotFound);
        }
        if userId.value !in sessions {
          return Err(SessionNotFound);
        }
        var session := sessions[userId.value];
        if session.refreshToken != jwtString {
          return Err(TokenInvalid);
        }
        return Ok(Verified(session.userId, None));
      } else {
        var outcome := decode(jwtString, secret);
        match outcome {
          case Decoded(u, exp) => r := Ok(Verified(u, Some(exp)));
          case ExpiredSignature => r := Err(TokenExpired);
          case JwtError => r := Err(TokenInvalid);
          case OtherFailure(cause) => r := Err(Rethrown(cause));
        }
      }
    }

    /** The session key's TTL running out. */
    method ExpireSessionKey(userId: UserId)
      requires Valid()
      modifies this
      ensures Valid()
      ensures Snapshot() == ExpireSession(old(Snapshot()), userId)
    {
      sessions := sessions - {userId};
    }

    /** The blacklist key's TTL running out. */
    method ExpireBlacklistKey(userId: UserId)
      requires Valid()
      modifies this
      ensures Valid()
      ensures Snapshot() == ExpireBlacklist(old(Snapshot()), userId)
    {
      blacklist := blacklist - {userId};
    }

    /** Look the user up, check the provider and the password, then issue
        tokens and reset the counter. */
    method Authenticate(creds: Credentials, ip: string, userAgent: string, minted: Token)
      returns (r: Result<Authenticator.Login>)
      requires Valid()
      modifies this
      ensures Valid()
      ensures Authenticator.Authenticate(Collaborators(), old(Snapshot()), creds, ip, userAgent, minted)
           == Authenticator.Step(r, Snapshot())
    {
      if creds.email !in users {
        return Err(UserNotFound);
      }
      var user := users[creds.email];
      if !compatible(creds.authType, user.authProviderId) {
        return Err(Forbidden(user.authProviderId));
      }
      if creds.password.Some? && user.password.Some? && user.password.value != "" {
        var isPasswordValid := compare(creds.password.value, user.password.value);
        if !isPasswordValid {
          var e := IncrementFailedLoginAttempts(user.id);
          return Err(e);
        }
      }
      var tokens := CreateTokens(user.id, ip, userAgent, minted);
      ResetFailedLoginAttempts(user.id);
      return Ok(Authenticator.Login(WithoutPassword(user), tokens));
    }
  }

  /** Two logins of the same user on one service object: the first refresh
      token stops verifying once the second login has replaced the session,
      and logging out blacklists exactly the token given. */
  method TwoLoginsThenLogout(users: map<Email, User>, compatible: (AuthType, ProviderId) -> bool,
                             compare: (string, string) -> bool, c: Credentials,
                             m1: Token, m2: Token, decode: Decoder)
    requires c.email in users && users[c.email].id != ""
    requires compatible(c.authType, users[c.email].authProviderId)
    requires c.password.Some? && users[c.email].password.Some?
    requires compare(c.password.value, users[c.email].password.value)
    requires m1.refreshToken != m2.refreshToken && m1.accessToken != m2.accessToken
  {
    var u := users[c.email].id;
    var service := new AuthService(users, compatible, compare);
    var r1 := service.Authenticate(c, "ip1", "agent1", m1);
    assert r1.Ok?;
    var v1 := service.Verify(m1.refreshToken, "", Refresh, Some(u), decode);
    assert SessionOf(service.Snapshot(), u).Some?;
    assert v1 == Ok(Verified(u, None));
    var r2 := service.Authenticate(c, "ip2", "agent2", m2);
    assert r2.Ok?;
    assert SessionOf(service.Snapshot(), u) == Some(Session(u, m2.refreshToken, "ip2", "agent2"));
    var stale := service.Verify(m1.refreshToken, "", Refresh, Some(u), decode);
    assert stale == Err(TokenInvalid);
    var current := service.Verify(m2.refreshToken, "", Refresh, Some(u), decode);
    assert current == Ok(Verified(u, None));
    var status := service.SetBlacklist(u, m2.accessToken, "now");
    var revoked := service.GetBlacklist(u, m2.accessToken);
    var other := service.GetBlacklist(u, m1.accessToken);
    assert revoked == Blacklisted && other == NonBlacklisted;
  }
}
