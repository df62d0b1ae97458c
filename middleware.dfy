/** The access gate in front of the user page: a request goes on to the
    protected handler only when its session can be read and holds a
    "profile"; otherwise it is redirected home. */
module Middleware {
  import opened Http
  import opened Stores
  import opened Auth

  /** Either the protected handler runs (once), or the gate answers itself. */
  datatype GateDecision = CallNext | Deny(response: Response)

  /** `IsAuthenticated`. It takes the session store as a value: the gate can
      read sessions but has no way to change them. */
  function IsAuthenticated(fetch: SessionFetch, sessions: SessionStore): (d: GateDecision)
    ensures d == CallNext <==> fetch.Fetched? && fetch.sid in sessions
    ensures d.Deny? ==> d.response == RedirectTo("/")
  {
    match fetch
    case FetchFailed => Deny(RedirectTo("/"))
    case Fetched(sid) =>
      if sid !in sessions then Deny(RedirectTo("/")) else CallNext
  }

  /** A request the gate lets through belongs to a user who has a row in
      the users table, with the profile mirroring that row. */
  lemma PassingSessionHasUser(fetch: SessionFetch, users: UserTable, sessions: SessionStore)
    requires Consistent(users, sessions)
    requires IsAuthenticated(fetch, sessions) == CallNext
    ensures var p := sessions[fetch.sid]; p.auth0Id in users && ProfileOfRow(p, users[p.auth0Id])
  {
  }

  /** After a successful callback, the same session passes the gate. */
  lemma CallbackThenGatePasses(query: map<string, string>, env: CallbackEnv, users: UserTable, sessions: SessionStore)
    requires CallbackStep(query, env, users, sessions).response.Redirect?
    ensures IsAuthenticated(env.session, CallbackStep(query, env, users, sessions).sessions) == CallNext
  {
  }

  /** After a logout that destroyed the session, that session is turned
      away by the gate, whatever the rest of the logout did. */
  lemma LogoutThenGateDenies(env: LogoutEnv, sessions: SessionStore)
    requires env.session.Fetched? && env.destroyOk
    ensures IsAuthenticated(env.session, LogoutStep(env, sessions).sessions) == Deny(RedirectTo("/"))
  {
  }
}
