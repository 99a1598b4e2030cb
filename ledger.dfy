/** The per-user records the service keeps in Redis — the failed-attempt
    counter, the session hash and the blacklist hash — together with the log of
    block requests it sends to the user repository, and the changes each
    operation of the service makes to them. */
module Ledger {
  import opened AuthTypes
  import Lockout

  /** `attempts`, `sessions` and `blacklist` stand for the keys
      `failedLoginAttempts`, `session` and `blacklist` of every user;
      `blocks` lists the `blockUser` calls in the order they were made. */
  datatype Store = Store(
    attempts: map<UserId, nat>,
    sessions: map<UserId, Session>,
    blacklist: map<UserId, BlacklistEntry>,
    blocks: seq<Block>)

  function Empty(): Store
  {
    Store(map[], map[], map[], [])
  }

  /** What every reachable store satisfies: a counter lies in 1..5, and a
      session is stored under the key of the user it names. */
  ghost predicate Valid(st: Store)
  {
    (forall u :: u in st.attempts ==> 1 <= st.attempts[u] <= MaxAttempts) &&
    (forall u :: u in st.sessions ==> st.sessions[u].userId == u)
  }

  /** The counter of `u` as a GET returns it. */
  function Counter(st: Store, u: UserId): Option<nat>
  {
    if u in st.attempts then Some(st.attempts[u]) else None
  }

  /** The session of `u` as an HGETALL returns it (`None` for the empty hash). */
  function SessionOf(st: Store, u: UserId): Option<Session>
  {
    if u in st.sessions then Some(st.sessions[u]) else None
  }

  /** `getBlacklist`: BLACKLISTED exactly when the stored hash holds this token. */
  function BlacklistStatusOf(st: Store, u: UserId, token: string): BlacklistStatus
  {
    if u in st.blacklist && st.blacklist[u].accessToken == token then Blacklisted else NonBlacklisted
  }

  /** `incrementFailedLoginAttempts`: the store after one failed password
      check, and the error the call throws (it never returns normally). */
  function Fail(st: Store, u: UserId): (r: (Store, AuthError))
    ensures Valid(st) ==> Valid(r.0)
    ensures r.0.sessions == st.sessions && r.0.blacklist == st.blacklist
    ensures forall v :: v != u ==> Counter(r.0, v) == Counter(st, v)
    ensures r.1 == AccountBlocked || r.1.Mismatch?
    ensures r.1 == AccountBlocked ==>
      r.0.attempts == st.attempts && r.0.blocks == st.blocks + [Block(u, PasswordAttemptExceeded)]
    ensures r.1.Mismatch? ==> Counter(r.0, u) == Some(r.1.count) && r.0.blocks == st.blocks
  {
    var f := Lockout.RecordFailure(Counter(st, u));
    if f.blocked then
      (st.(blocks := st.blocks + [Block(u, PasswordAttemptExceeded)]), f.error)
    else
      (st.(attempts := st.attempts[u := f.counter]), f.error)
  }

  /** `resetFailedLoginAttempts`: DEL of the counter key. */
  function Reset(st: Store, u: UserId): (r: Store)
    ensures Counter(r, u) == None
    ensures forall v :: v != u ==> Counter(r, v) == Counter(st, v)
    ensures r.sessions == st.sessions && r.blacklist == st.blacklist && r.blocks == st.blocks
    ensures Counter(st, u) == None ==> r == st
    ensures Valid(st) ==> Valid(r)
  {
    st.(attempts := st.attempts - {u})
  }

  /** The session write of `createTokens`: all four fields of the hash are
      set, so whatever session `u` had is replaced as a whole. */
  function Issue(st: Store, u: UserId, refreshToken: string, ip: string, userAgent: string): (r: Store)
    ensures SessionOf(r, u) == Some(Session(u, refreshToken, ip, userAgent))
    ensures forall v :: v != u ==> SessionOf(r, v) == SessionOf(st, v)
    ensures r.attempts == st.attempts && r.blacklist == st.blacklist && r.blocks == st.blocks
    ensures Valid(st) ==> Valid(r)
  {
    st.(sessions := st.sessions[u := Session(u, refreshToken, ip, userAgent)])
  }

  /** `setBlacklist`: the user's single blacklist slot now holds `accessToken`. */
  function Revoke(st: Store, u: UserId, accessToken: string, time: string): (r: Store)
    ensures forall t :: BlacklistStatusOf(r, u, t) == if t == accessToken then Blacklisted else NonBlacklisted
    ensures forall v, t :: v != u ==> BlacklistStatusOf(r, v, t) == BlacklistStatusOf(st, v, t)
    ensures r.attempts == st.attempts && r.sessions == st.sessions && r.blocks == st.blocks
    ensures Valid(st) ==> Valid(r)
  {
    st.(blacklist := st.blacklist[u := BlacklistEntry(accessToken, time)])
  }

  /** Redis dropping the session key when its TTL (the refresh-token lifetime) runs out. */
  function ExpireSession(st: Store, u: UserId): (r: Store)
    ensures SessionOf(r, u) == None
    ensures forall v :: v != u ==> SessionOf(r, v) == SessionOf(st, v)
    ensures r.attempts == st.attempts && r.blacklist == st.blacklist && r.blocks == st.blocks
    ensures Valid(st) ==> Valid(r)
  {
    st.(sessions := st.sessions - {u})
  }

  /** Redis dropping the blacklist key when its TTL (the access-token lifetime) runs out. */
  function ExpireBlacklist(st: Store, u: UserId): (r: Store)
    ensures forall t :: BlacklistStatusOf(r, u, t) == NonBlacklisted
    ensures forall v, t :: v != u ==> BlacklistStatusOf(r, v, t) == BlacklistStatusOf(st, v, t)
    ensures r.attempts == st.attempts && r.sessions == st.sessions && r.blocks == st.blocks
    ensures Valid(st) ==> Valid(r)
  {
    st.(blacklist := st.blacklist - {u})
  }

  /** A user with no blacklist entry is never reported as blacklisted. */
  lemma NoEntryNotBlacklisted(st: Store, u: UserId, token: string)
    requires u !in st.blacklist
    ensures BlacklistStatusOf(st, u, token) == NonBlacklisted
  {
  }

  /** Revoking a second token for the same user forgets the first: the earlier
      token reads as never revoked, only the later one as blacklisted. */
  lemma SecondRevokeForgetsFirst(st: Store, u: UserId, t1: string, t2: string, time1: string, time2: string)
    requires t1 != t2
    ensures var r := Revoke(Revoke(st, u, t1, time1), u, t2, time2);
      BlacklistStatusOf(r, u, t1) == NonBlacklisted && BlacklistStatusOf(r, u, t2) == Blacklisted
  {
  }

  /** Resetting twice is the same as resetting once. */
  lemma ResetIdempotent(st: Store, u: UserId)
    ensures Reset(Reset(st, u), u) == Reset(st, u)
  {
  }
}
