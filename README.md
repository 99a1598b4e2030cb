# Authentication and session lifecycle of `AuthService`

This project models the core of `AuthService` in `src/auth/auth.service.ts` of a
NestJS API. The service keeps three kinds of per-user record in Redis:

- a failed-password counter, which leads to a lockout after five failures;
- a single-slot session holding the one refresh token that is currently valid;
- a single-slot blacklist holding the one access token that was logged out.

It also asks the user repository to block a user once the counter is exhausted.

The model has two layers:

- **Specification** (pure functions and lemmas):
  - `AuthTypes` holds the constants and record layouts (`BlockStatus.PASSWORD_ATTEMPT_EXCEEDED = 2`,
    `TokenEnum`, `BlackListEnum`, the session and blacklist hashes) and the error kinds.
  - `Lockout` is the counter policy.
  - `Ledger` is the store and the change each operation makes to it.
  - `TokenVerifier` is the two branches of `verify`.
  - `Authenticator` is the login flow, plus a single sequential caller (`Replay`) that makes
    several logins in a row.
- **Implementation**: the class `AuthServiceModel.AuthService`. Its fields are the Redis key
  families (`attempts`, `sessions`, `blacklist`) and the log of `blockUser` calls. Its methods
  update these fields step by step, as the source does. Each method is proved to leave the store
  exactly as its specification function says.

Collaborators the service cannot see become parameters:

- the user service's `getUserByEmail` is a map from e-mail to user;
- `EncryptionService.compare` is a function `compare(plain, hash)`;
- the provider table `INTEGRATED_AUTH_PROVIDERS` is a relation `compatible(authType, providerId)`;
- `jwt.sign` together with `crypto.randomUUID` is the token pair `minted` handed to `createTokens`;
- `jwt.verify` is a `decode(token, secret)` function that returns a payload, an expiry error,
  another JWT error or some other failure;
- `new Date().toISOString()` is the `now` argument of `SetBlacklist`.

Behaviour of the code that the model makes explicit:

- A blocked user's counter stays at 5. Every further failure asks for one more block record.
  One description of the lockout says the counter is cleared by a block. The code
  (src/auth/auth.service.ts:98-102) leaves it in place, and the model follows the code.
- A password is compared only when the request carries one and the user has a non-empty stored
  hash. An admitted request for a user without a hash succeeds without any password check
  (`Authenticator.NoHashNoPasswordCheck`).
- A refresh check with no user id, or with the empty string as user id, fails with
  SessionNotFound. This is the `!userId` test at line 208.
- This code never consults a block flag. Whether a blocked user can still log in with the right
  password depends on the user service, which is not part of this model.

## Model

| member | source | states |
|---|---|---|
| `Lockout.RecordFailure` | src/auth/auth.service.ts:93-116 | one failure blocks iff a counter of 5 or more exists, and then the counter is unchanged and the error is AccountBlocked; otherwise the error is Mismatch with the new counter, which is in 1..5 (1 when there was no counter, n+1 after n) |
| `Lockout.CounterAfterFailures` | src/auth/auth.service.ts:94-116 | starting from no counter, k consecutive failures leave the counter at min(k, 5) |
| `Lockout.FailureReports` | src/auth/auth.service.ts:96-115 | the k-th consecutive failure reports "k / 5" for k ≤ 5; the sixth and every later one blocks |
| `Lockout.BlocksAfterFailures` | src/auth/auth.service.ts:98-101 | k consecutive failures request max(0, k − 5) blocks, so six failures request exactly one |
| `Ledger.Fail` | src/auth/auth.service.ts:87-117 | a failed check always ends in an error (Mismatch or AccountBlocked); a block appends `(userId, 2)` to the block log and keeps the counter; a mismatch sets the counter to the reported count; sessions, blacklist and other users' counters are unchanged; counters stay in 1..5 |
| `Ledger.Reset` | src/auth/auth.service.ts:118-124 | the user's counter is gone, other users' counters and all other records are unchanged, and resetting an absent counter changes nothing |
| `Ledger.ResetIdempotent` | src/auth/auth.service.ts:118-124 | resetting twice equals resetting once |
| `Ledger.Issue` | src/auth/auth.service.ts:183-196 | the user's session is exactly `{userId, refreshToken, ip, userAgent}` of this issuance, whatever it was before; other users' sessions and all other records are unchanged |
| `Ledger.Revoke` | src/auth/auth.service.ts:125-141 | afterwards the user's status is BLACKLISTED for exactly the given token and NON_BLACKLISTED for every other token; other users' statuses are unchanged |
| `Ledger.NoEntryNotBlacklisted` | src/auth/auth.service.ts:143-155 | a user without a blacklist entry is NON_BLACKLISTED for every token |
| `Ledger.SecondRevokeForgetsFirst` | src/auth/auth.service.ts:129-153 | after revoking t1 then t2 ≠ t1 for the same user, t1 reads NON_BLACKLISTED and t2 BLACKLISTED |
| `Ledger.ExpireSession` | src/auth/auth.service.ts:196 | the session TTL running out removes only that user's session |
| `Ledger.ExpireBlacklist` | src/auth/auth.service.ts:139 | the blacklist TTL running out makes every token of that user NON_BLACKLISTED and touches nothing else |
| `TokenVerifier.VerifyRefresh` | src/auth/auth.service.ts:207-222 | a refresh token verifies iff a non-empty user id is given, a session exists under it, and the stored refresh token equals the string; then it yields the session's user id and no expiry; SessionNotFound iff the id is missing, empty or has no session; any other failure is TokenInvalid |
| `TokenVerifier.VerifyAccess` | src/auth/auth.service.ts:223-238 | an access token yields the decoded user id and expiry iff the JWT library decodes it; an expired signature maps to TOKEN_EXPIRED and only it, any other JWT error to TOKEN_INVALID and only it, and any other exception is passed on unchanged |
| `TokenVerifier.RefreshIgnoresSecretAndClaims` | src/auth/auth.service.ts:207-222 | the refresh branch's answer does not depend on the secret or on what the JWT library would make of the token |
| `TokenVerifier.AccessIgnoresSessions` | src/auth/auth.service.ts:223-229 | the access branch's answer does not depend on the sessions, and it is never SessionNotFound |
| `TokenVerifier.IssuedRefreshTokenVerifies` | src/auth/auth.service.ts:183-222 | the refresh token just written for a user verifies for that user and yields that user's id |
| `TokenVerifier.ReissueInvalidatesEarlierToken` | src/auth/auth.service.ts:183-220 | after two issuances for one user, only the second refresh token verifies; the first is TokenInvalid |
| `TokenVerifier.VerifiedRefreshNamesItsKey` | src/auth/auth.service.ts:184-222 | in a reachable store, a verified refresh token yields exactly the user id it was looked up under |
| `TokenVerifier.ExpiredSessionNotFound` | src/auth/auth.service.ts:207-216 | after the session key expires, every refresh token of that user is SessionNotFound |
| `Authenticator.Authenticate` | src/auth/auth.service.ts:49-85 | unknown e-mail: UserNotFound; incompatible provider: Forbidden naming the registered provider. Both leave the store unchanged. A rejected password behaves as the lockout policy and creates no session. Success iff the user is admitted and the password is not rejected; it then returns the user without password and the issued pair, deletes the counter, stores exactly that refresh token with ip and user agent, and changes no other user. Reachable stores stay reachable |
| `Authenticator.RejectedPasswordIssuesNothing` | src/auth/auth.service.ts:69-82 | a password mismatch never returns tokens: the result is Mismatch or AccountBlocked, and no session or blacklist entry changes |
| `Authenticator.NoHashNoPasswordCheck` | src/auth/auth.service.ts:69-84 | an admitted request for a user with no (or an empty) stored hash always succeeds |
| `Authenticator.LoginRefreshTokenVerifies` | src/auth/auth.service.ts:81-84 | the refresh token of a successful login verifies for that user |
| `Authenticator.ReloginRevokesEarlierRefreshToken` | src/auth/auth.service.ts:81-82 | after a second successful login, the first login's refresh token is TokenInvalid and the second one verifies |
| `Authenticator.Replay` | src/auth/auth.service.ts:49-85 | a sequential caller gets one result per call, and a reachable store stays reachable |
| `Authenticator.CounterNeverExceedsMax` | src/auth/auth.service.ts:93-116 | from an empty store, whatever logins are made, every counter stays in 1..5 |
| `Authenticator.ConsecutiveBadPasswords` | src/auth/auth.service.ts:69-116 | k rejected logins from no counter: the counter is the lockout counter after k failures, the i-th result is the i-th failure's error, one block is logged per failure after the fifth, and sessions and blacklist are unchanged |
| `Authenticator.SixthFailureBlocks` | src/auth/auth.service.ts:93-103 | six rejected logins report 1/5 … 5/5 and then AccountBlocked, log exactly one block `(userId, 2)`, and leave the counter at 5 |
| `Authenticator.SuccessRestartsCount` | src/auth/auth.service.ts:75-82 | four rejected logins report 4/5; a successful login then deletes the counter, so the next rejected login reports 1/5 |
| `AuthServiceModel.AuthService.constructor` | src/auth/auth.service.ts:40-47 | a new service starts with an empty store and the given collaborators |
| `AuthServiceModel.AuthService.IncrementFailedLoginAttempts` | src/auth/auth.service.ts:87-117 | the GET / block / INCR / SET steps change the store exactly as `Ledger.Fail` and throw its error |
| `AuthServiceModel.AuthService.ResetFailedLoginAttempts` | src/auth/auth.service.ts:118-124 | the DEL changes the store exactly as `Ledger.Reset` |
| `AuthServiceModel.AuthService.SetBlacklist` | src/auth/auth.service.ts:125-141 | the HMSET changes the store exactly as `Ledger.Revoke` and answers BLACKLISTED |
| `AuthServiceModel.AuthService.GetBlacklist` | src/auth/auth.service.ts:143-155 | answers BLACKLISTED exactly when the user's stored entry holds this token, NON_BLACKLISTED otherwise (also when there is no entry) |
| `AuthServiceModel.AuthService.CreateTokens` | src/auth/auth.service.ts:157-198 | returns the minted pair and changes the store exactly as `Ledger.Issue` |
| `AuthServiceModel.AuthService.Verify` | src/auth/auth.service.ts:200-240 | answers as `TokenVerifier.VerifyRefresh` for refresh tokens and as `TokenVerifier.VerifyAccess` for access tokens |
| `AuthServiceModel.AuthService.ExpireSessionKey` | src/auth/auth.service.ts:196 | changes the store exactly as `Ledger.ExpireSession` |
| `AuthServiceModel.AuthService.ExpireBlacklistKey` | src/auth/auth.service.ts:139 | changes the store exactly as `Ledger.ExpireBlacklist` |
| `AuthServiceModel.AuthService.Authenticate` | src/auth/auth.service.ts:49-85 | the step-by-step login (lookup, provider check, password check, then `IncrementFailedLoginAttempts` or `CreateTokens` and `ResetFailedLoginAttempts`) returns and leaves what `Authenticator.Authenticate` specifies |

## Left out

- JWT cryptography is not modelled. This covers HS256 signing, the signature, algorithm and expiry
  checks, and the issuer and audience claims. Signing is the supplied `minted` pair, and checking
  is the supplied `decode` function. So the round trip "an access token just issued verifies to its
  user" is not stated.
- The randomness of `crypto.randomUUID` is not modelled. Lemmas that need two distinct refresh
  tokens take that as a hypothesis.
- Redis TTLs are not modelled in real time. The `expire` calls are the explicit events
  `ExpireSession` and `ExpireBlacklist`.
- Redis and database failures are left out. Every store call is assumed to succeed, so a session
  write that fails after signing is not modelled.
- Concurrency is left out. The non-atomic GET-then-INCR on the counter and last-writer-wins on
  sessions are interleaving effects, and the model has one sequential caller.
- HTTP exception classes, message text and logging are not modelled. Only the error kind and the
  mismatch count are kept. Two kinds are merged: TOKEN_INVALID is a 401 in the refresh branch and
  a 403 in the access branch.
- The counter is stored as a number, not as the decimal string Redis holds and `parseInt` reads.
  Only this code writes that key, always as "1" or by INCR.
- `Authenticator.Authenticate`: an `authType` missing from `INTEGRATED_AUTH_PROVIDERS` makes the
  source throw a TypeError. The model does not tell this apart, because the `compatible` relation
  decides every pair.
- `TokenVerifier.VerifyAccess`: a verified payload without a `userId` claim (the source then
  returns `undefined`) is not represented, because the decoder always yields a user id.
- The user repository and user service are not modelled beyond a map lookup and a log of
  `blockUser` calls. The metrics interceptor and the interface declarations are not part of this
  model.
