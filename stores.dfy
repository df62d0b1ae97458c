/** The two stores the login flow works on, as values: the users table
    (keyed by the identity provider's subject identifier) and the session
    store (a session's "profile" entry, keyed by session identifier). */
module Stores {

  /** A generated row identifier and a point in time: both are produced by
      the database and only compared for equality here. */
  datatype Uuid = Uuid(bits: nat)
  datatype Time = Time(instant: int)

  /** A nullable timestamp column: `time` is the zero time when not `valid`. */
  datatype NullTime = NullTime(time: Time, valid: bool)

  /** A row of the users table. */
  datatype User = User(id: Uuid, email: string, auth0Id: string, createdAt: NullTime)

  /** A decoded identity-token claim. Only strings are told apart: every
      other JSON value fails a string type assertion alike. */
  datatype ClaimValue = Str(s: string) | Number(n: int) | Boolean(b: bool) | Null | Composite

  type Claims = map<string, ClaimValue>

  /** The session's "profile" entry: the raw claims under "auth0" plus the
      reconciled user fields. */
  datatype Profile = Profile(auth0: Claims, userId: Uuid, email: string, auth0Id: string, createdAt: Time)

  type SessionId = string

  /** The outcome of `store.Get(c)`: the request's session, or an error. */
  datatype SessionFetch = Fetched(sid: SessionId) | FetchFailed

  type UserTable = map<string, User>
  type SessionStore = map<SessionId, Profile>

  /** The session fields that must mirror the user row they were built from. */
  predicate ProfileOfRow(p: Profile, u: User)
  {
    p.userId == u.id && p.email == u.email && p.auth0Id == u.auth0Id && p.createdAt == u.createdAt.time
  }

  /** Each row is stored under its own subject identifier, and every stored
      profile mirrors the row of its subject: a session with a profile
      implies the user exists. */
  ghost predicate Consistent(users: UserTable, sessions: SessionStore)
  {
    && (forall k :: k in users ==> users[k].auth0Id == k)
    && (forall s :: s in sessions ==>
          sessions[s].auth0Id in users && ProfileOfRow(sessions[s], users[sessions[s].auth0Id]))
  }
}
