/** Identifiers, constants and record layouts shared by the authentication
    service: the values of `BlockStatus`, `TokenEnum` and `BlackListEnum`, the
    error kinds the service throws, and the shapes of the Redis hashes it
    writes. */
module AuthTypes {

  type UserId = string
  type Email = string
  type AuthType = string
  type ProviderId = int

  datatype Option<T> = None | Some(value: T)

  /** `maxAttempts`: failed password checks reported before the account is blocked. */
  const MaxAttempts: nat := 5

  /** `BlockStatus.PASSWORD_ATTEMPT_EXCEEDED`, the reason recorded with a lockout block. */
  const PasswordAttemptExceeded: nat := 2

  /** `TokenEnum`: which branch of `verify` runs. */
  datatype TokenKind = Access | Refresh

  /** `BlackListEnum`: the answer of the blacklist operations. */
  datatype BlacklistStatus = Blacklisted | NonBlacklisted

  /** The kinds of failure the service reports; the message text is not modelled.
      `Mismatch(count)` is PASSWORD_MISMATCH reporting "count / 5",
      `Forbidden(p)` names the provider the user registered with, and
      `Rethrown(cause)` is an exception `verify` passes on unchanged. */
  datatype AuthError =
    | UserNotFound
    | Forbidden(registeredProvider: ProviderId)
    | Mismatch(count: nat)
    | AccountBlocked
    | SessionNotFound
    | TokenInvalid
    | TokenExpired
    | Rethrown(cause: string)

  datatype Result<T> = Ok(value: T) | Err(error: AuthError)

  /** The access/refresh pair `createTokens` hands back. */
  datatype Token = Token(accessToken: string, refreshToken: string)

  /** The session hash written under the user's session key. */
  datatype Session = Session(userId: UserId, refreshToken: string, ip: string, userAgent: string)

  /** The blacklist hash written under the user's blacklist key. */
  datatype BlacklistEntry = BlacklistEntry(accessToken: string, time: string)

  /** One `blockUser(userId, reasonId)` call on the user repository. */
  datatype Block = Block(userId: UserId, reasonId: nat)

  /** A user row as the user service returns it; `password` is the stored hash,
      absent for accounts registered through a social provider. */
  datatype User = User(id: UserId, email: Email, password: Option<string>, authProviderId: ProviderId)

  /** The user returned by a successful login, with the password field deleted. */
  datatype UserView = UserView(id: UserId, email: Email, authProviderId: ProviderId)

  /** A login request: a `LoginDto` carries a password, a `SocialLoginDto` does not. */
  datatype Credentials = Credentials(email: Email, authType: AuthType, password: Option<string>)

  function WithoutPassword(u: User): UserView
  {
    UserView(u.id, u.email, u.authProviderId)
  }
}
