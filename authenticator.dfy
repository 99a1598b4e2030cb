/** `authenticate`: resolve the user, check that the login method suits the
    user's provider, check the password (a mismatch goes to the lockout
    policy), then issue tokens and clear the counter. Also a sequential caller
    making several logins in a row, and the lockout scenarios over it. */
module Authenticator {
  import opened AuthTypes
  import opened Ledger
  import Lockout
  import opened TokenVerifier

  /** The collaborators of the service: the users the user service knows by
      e-mail, the provider compatibility table (`INTEGRATED_AUTH_PROVIDERS`,
      as a relation) and the password-hash comparison of the encryption service. */
  datatype Env = Env(
    users: map<Email, User>,
    compatible: (AuthType, ProviderId) -> bool,
    compare: (string, string) -> bool)

  /** What a successful login returns: the user without the password, and the tokens. */
  datatype Login = Login(user: UserView, tokens: Token)

  /** The result of one call and the store after it. */
  datatype Step = Step(result: Result<Login>, store: Store)

  predicate Known(env: Env, c: Credentials)
  {
    c.email in env.users
  }

  /** The user exists and the requested login method suits the provider the user registered with. */
  predicate Admitted(env: Env, c: Credentials)
  {
    Known(env, c) && env.compatible(c.authType, env.users[c.email].authProviderId)
  }

  /** The password is compared only when the request carries one and the user has a (non-empty) hash. */
  predicate ChecksPassword(c: Credentials, u: User)
  {
    c.password.Some? && u.password.Some? && u.password.value != ""
  }

  predicate PasswordRejected(env: Env, c: Credentials)
  {
    Admitted(env, c) && ChecksPassword(c, env.users[c.email]) &&
    !env.compare(c.password.value, env.users[c.email].password.value)
  }

  /** `after` is `before` with user `u` logged in: no counter, a session holding
      exactly the issued refresh token with this ip and user agent, and nothing
      else changed. */
  ghost predicate LoggedIn(before: Store, after: Store, u: UserId, tokens: Token, ip: string, userAgent: string)
  {
    Counter(after, u) == None &&
    SessionOf(after, u) == Some(Session(u, tokens.refreshToken, ip, userAgent)) &&
    after.blacklist == before.blacklist && after.blocks == before.blocks &&
    forall v :: v != u ==> Counter(after, v) == Counter(before, v) && SessionOf(after, v) == SessionOf(before, v)
  }

  /** `authenticate(dto, ip, userAgent)`; `minted` is the pair the signer produces. */
  function Authenticate(env: Env, st: Store, c: Credentials, ip: string, userAgent: string, minted: Token): (r: Step)
    ensures !Known(env, c) ==> r == Step(Err(UserNotFound), st)
    ensures Known(env, c) && !Admitted(env, c) ==>
      r == Step(Err(Forbidden(env.users[c.email].authProviderId)), st)
    ensures PasswordRejected(env, c) ==> r.result.Err? && (r.store, r.result.error) == Fail(st, env.users[c.email].id)
    ensures r.result.Ok? <==> Admitted(env, c) && !PasswordRejected(env, c)
    ensures r.result.Ok? ==>
      r.result.value == Login(WithoutPassword(env.users[c.email]), minted) &&
      LoggedIn(st, r.store, env.users[c.email].id, minted, ip, userAgent)
    ensures r.result.Err? ==> r.store.sessions == st.sessions && r.store.blacklist == st.blacklist
    ensures Valid(st) ==> Valid(r.store)
  {
    if c.email !in env.users then Step(Err(UserNotFound), st)
    else
      var user := env.users[c.email];
      if !env.compatible(c.authType, user.authProviderId) then
        Step(Err(Forbidden(user.authProviderId)), st)
      else if ChecksPassword(c, user) && !env.compare(c.password.value, user.password.value) then
        var failed := Fail(st, user.id);
        Step(Err(failed.1), failed.0)
      else
        var issued := Issue(st, user.id, minted.refreshToken, ip, userAgent);
        Step(Ok(Login(WithoutPassword(user), minted)), Reset(issued, user.id))
  }

  /** A rejected password never yields tokens: the call fails with a mismatch
      count or a block, and no session or blacklist entry changes. */
  lemma RejectedPasswordIssuesNothing(env: Env, st: Store, c: Credentials, ip: string, userAgent: string, minted: Token)
    requires PasswordRejected(env, c)
    ensures var r := Authenticate(env, st, c, ip, userAgent, minted);
      r.result.Err? && (r.result.error.Mismatch? || r.result.error == AccountBlocked) &&
      r.store.sessions == st.sessions && r.store.blacklist == st.blacklist
  {
  }

  /** A user without a stored hash is not asked for a password: an admitted
      request for such a user always succeeds. */
  lemma NoHashNoPasswordCheck(env: Env, st: Store, c: Credentials, ip: string, userAgent: string, minted: Token)
    requires Admitted(env, c)
    requires env.users[c.email].password.None? || env.users[c.email].password == Some("")
    ensures Authenticate(env, st, c, ip, userAgent, minted).result.Ok?
  {
  }

  /** The refresh token a successful login returns verifies for that user. */
  lemma LoginRefreshTokenVerifies(env: Env, st: Store, c: Credentials, ip: string, userAgent: string, minted: Token)
    requires Admitted(env, c) && !PasswordRejected(env, c)
    requires env.users[c.email].id != ""
    ensures var u := env.users[c.email].id;
      VerifyRefresh(Authenticate(env, st, c, ip, userAgent, minted).store.sessions, minted.refreshToken, Some(u))
        == Ok(Verified(u, None))
  {
  }

  /** Logging in again revokes the refresh token of the previous login. */
  lemma ReloginRevokesEarlierRefreshToken(env: Env, st: Store, c: Credentials,
                                          ip1: string, ua1: string, m1: Token,
                                          ip2: string, ua2: string, m2: Token)
    requires Admitted(env, c) && !PasswordRejected(env, c)
    requires env.users[c.email].id != ""
    requires m1.refreshToken != m2.refreshToken
    ensures var u := env.users[c.email].id;
      var s2 := Authenticate(env, Authenticate(env, st, c, ip1, ua1, m1).store, c, ip2, ua2, m2).store;
      VerifyRefresh(s2.sessions, m1.refreshToken, Some(u)) == Err(TokenInvalid) &&
      VerifyRefresh(s2.sessions, m2.refreshToken, Some(u)) == Ok(Verified(u, None))
  {
  }

  /** One login request of a caller. */
  datatype Call = Call(creds: Credentials, ip: string, userAgent: string, minted: Token)

  /** A single sequential caller making `calls` in order: the store after the
      last one, and the result of each. */
  function Replay(env: Env, st: Store, calls: seq<Call>): (r: (Store, seq<Result<Login>>))
    ensures |r.1| == |calls|
    ensures Valid(st) ==> Valid(r.0)
  {
    if calls == [] then (st, [])
    else
      var prev := Replay(env, st, calls[..|calls| - 1]);
      var last := calls[|calls| - 1];
      var step := Authenticate(env, prev.0, last.creds, last.ip, last.userAgent, last.minted);
      (step.store, prev.1 + [step.result])
  }

  /** Whatever a sequential caller does from an empty store, a counter never exceeds 5. */
  lemma CounterNeverExceedsMax(env: Env, calls: seq<Call>, u: UserId)
    ensures var c := Counter(Replay(env, Empty(), calls).0, u);
      c.None? || 1 <= c.value <= MaxAttempts
  {
  }

  /** `k` consecutive rejected passwords from no counter: the counter follows
      the lockout policy, the i-th call reports the i-th failure, and one
      block is requested for each failure after the fifth. */
  lemma {:induction false} ConsecutiveBadPasswords(env: Env, st: Store, bad: Call, k: nat)
    requires PasswordRejected(env, bad.creds)
    requires Counter(st, env.users[bad.creds.email].id) == None
    ensures var u := env.users[bad.creds.email].id;
      var r := Replay(env, st, seq(k, _ => bad));
      Counter(r.0, u) == Lockout.CounterAfter(k) &&
      (forall i :: 0 <= i < k ==> r.1[i] == Err(Lockout.NthFailure(i + 1).error)) &&
      r.0.blocks == st.blocks + seq(Lockout.BlocksAfter(k), _ => Block(u, PasswordAttemptExceeded)) &&
      r.0.sessions == st.sessions && r.0.blacklist == st.blacklist
  {
    if k > 0 {
      var u := env.users[bad.creds.email].id;
      var calls := seq(k, _ => bad);
      assert calls[..k - 1] == seq(k - 1, _ => bad);
      ConsecutiveBadPasswords(env, st, bad, k - 1);
      var prev := Replay(env, st, seq(k - 1, _ => bad));
      var step := Authenticate(env, prev.0, bad.creds, bad.ip, bad.userAgent, bad.minted);
      assert Replay(env, st, calls) == (step.store, prev.1 + [step.result]);
      var f := Lockout.NthFailure(k);
      assert Fail(prev.0, u) == (step.store, step.result.error);
      var n := Lockout.BlocksAfter(k - 1);
      var block := Block(u, PasswordAttemptExceeded);
      if f.blocked {
        assert seq(n + 1, _ => block) == seq(n, _ => block) + [block];
      }
    }
  }

  /** Six rejected passwords in a row: the first five report 1 / 5 .. 5 / 5,
      the sixth blocks, and exactly one block is requested. */
  lemma SixthFailureBlocks(env: Env, st: Store, bad: Call)
    requires PasswordRejected(env, bad.creds)
    requires Counter(st, env.users[bad.creds.email].id) == None
    ensures var u := env.users[bad.creds.email].id;
      var r := Replay(env, st, seq(6, _ => bad));
      r.1 == [Err(Mismatch(1)), Err(Mismatch(2)), Err(Mismatch(3)), Err(Mismatch(4)), Err(Mismatch(5)),
              Err(AccountBlocked)] &&
      r.0.blocks == st.blocks + [Block(u, PasswordAttemptExceeded)] &&
      Counter(r.0, u) == Some(MaxAttempts)
  {
    var u := env.users[bad.creds.email].id;
    ConsecutiveBadPasswords(env, st, bad, 6);
    Lockout.FailureReports(1);
    Lockout.FailureReports(2);
    Lockout.FailureReports(3);
    Lockout.FailureReports(4);
    Lockout.FailureReports(5);
    Lockout.FailureReports(6);
    Lockout.BlocksAfterFailures(6);
    Lockout.CounterAfterFailures(6);
    assert seq(1, _ => Block(u, PasswordAttemptExceeded)) == [Block(u, PasswordAttemptExceeded)];
  }

  /** Four rejected passwords report 4 / 5; a successful login then deletes the
      counter, so the next rejected password reports 1 / 5 again, not 5 / 5. */
  lemma SuccessRestartsCount(env: Env, st: Store, bad: Call, good: Call)
    requires PasswordRejected(env, bad.creds)
    requires good.creds.email == bad.creds.email
    requires Admitted(env, good.creds) && !PasswordRejected(env, good.creds)
    requires Counter(st, env.users[bad.creds.email].id) == None
    ensures var u := env.users[bad.creds.email].id;
      var four := Replay(env, st, seq(4, _ => bad));
      var afterGood := Replay(env, st, seq(4, _ => bad) + [good]);
      var r := Replay(env, st, seq(4, _ => bad) + [good, bad]);
      four.1[3] == Err(Mismatch(4)) &&
      afterGood.1[4].Ok? && Counter(afterGood.0, u) == None &&
      r.1[5] == Err(Mismatch(1))
  {
    var u := env.users[bad.creds.email].id;
    var four := seq(4, _ => bad);
    ConsecutiveBadPasswords(env, st, bad, 4);
    Lockout.FailureReports(4);
    var five := four + [good];
    var six := four + [good, bad];
    assert five[..4] == four;
    assert six[..5] == five;
    var r4 := Replay(env, st, four);
    var r5 := Replay(env, st, five);
    assert r5.1 == r4.1 + [Authenticate(env, r4.0, good.creds, good.ip, good.userAgent, good.minted).result];
    assert Counter(r5.0, u) == None;
  }
}
