/** The login callback and the logout handler. Each is a step over the
    users table and the session store; what the identity provider, the
    database and the session backend answer arrives as already-resolved
    inputs. `CallbackStep` and `LogoutStep` say what one request does;
    class `Server` performs the same requests by updating its stores in
    place, and its methods are proved to agree with them. */
module Auth {
  import opened Http
  import opened Stores
  import opened Identity

  const MissingCodeMessage := "Missing authorization code"
  const ExchangeFailedMessage := "Failed to exchange token"
  const VerifyFailedMessage := "Failed to verify ID token"
  const ClaimsFailedMessage := "Failed to get user info"
  const MissingSubMessage := "Invalid profile: missing sub claim"
  const CreateFailedMessage := "Failed to create user"
  const DatabaseErrorMessage := "Database error"
  const SessionGetFailedMessage := "Failed to get session"
  const SessionSaveFailedMessage := "Failed to save session"
  const DestroyFailedMessage := "Failed to destroy session"

  /** Whether the token's claims could be decoded into a map. */
  datatype Decoded = Decoded(claims: Claims) | DecodeFailed

  /** What `CreateUser` answers: the generated id and creation time of the
      inserted row, or an error. */
  datatype CreateResult = Created(id: Uuid, createdAt: NullTime) | CreateFailed

  /** The answers of every outside party the callback may consult. An answer
      is only looked at when the callback gets as far as asking for it. */
  datatype CallbackEnv = CallbackEnv(
    exchangeOk: bool,       // auth.Exchange
    verifyOk: bool,         // auth.VerifyIDToken
    decoded: Decoded,       // idToken.Claims
    lookupFails: bool,      // GetUserByAuth0ID fails with an error other than "no rows"
    create: CreateResult,   // CreateUser
    session: SessionFetch,  // store.Get
    saveOk: bool)           // sess.Save

  /** The outside calls a request makes, in order. */
  datatype Call = Exchange | VerifyIdToken | DecodeClaims | GetUserByAuth0Id | CreateUser | GetSession | SaveSession

  /** One callback request: its response, both stores afterwards, and the calls it made. */
  datatype Step = Step(response: Response, users: UserTable, sessions: SessionStore, calls: seq<Call>)

  /** `GetUserByAuth0ID`: a row, "no rows", or another database error. */
  datatype Lookup = Found(user: User) | NoRows | DbError

  function LookupUser(users: UserTable, sub: string, lookupFails: bool): (r: Lookup)
    ensures r.DbError? <==> lookupFails
    ensures r.NoRows? <==> !lookupFails && sub !in users
    ensures r.Found? ==> sub in users && r.user == users[sub]
  {
    if lookupFails then DbError else if sub in users then Found(users[sub]) else NoRows
  }

  /** Lookup-or-create: the user row the session will describe, or the
      failure response; with the table afterwards and the calls made. */
  datatype Reconciled =
    | Reconciled(user: User, users: UserTable, calls: seq<Call>)
    | NotReconciled(response: Response, users: UserTable, calls: seq<Call>)

  function Reconcile(users: UserTable, sub: string, email: string, lookupFails: bool, create: CreateResult): (r: Reconciled)
    ensures r.Reconciled? <==> !lookupFails && (sub in users || create.Created?)
    ensures r.Reconciled? ==> sub in r.users && r.users[sub] == r.user
    ensures r.Reconciled? && sub in users ==> r.user == users[sub] && r.users == users
    ensures r.Reconciled? && sub !in users ==>
      r.user == User(create.id, email, sub, create.createdAt) && r.users == users[sub := r.user]
    ensures r.NotReconciled? ==> r.users == users && r.response.Status? && r.response.code == StatusInternalServerError
    ensures (CreateUser in r.calls) <==> !lookupFails && sub !in users
  {
    match LookupUser(users, sub, lookupFails)
    case Found(u) => Reconciled(u, users, [GetUserByAuth0Id])
    case DbError => NotReconciled(Status(StatusInternalServerError, DatabaseErrorMessage), users, [GetUserByAuth0Id])
    case NoRows =>
      match create
      case CreateFailed =>
        NotReconciled(Status(StatusInternalServerError, CreateFailedMessage), users, [GetUserByAuth0Id, CreateUser])
      case Created(id, createdAt) =>
        var u := User(id, email, sub, createdAt);
        Reconciled(u, users[sub := u], [GetUserByAuth0Id, CreateUser])
  }

  /** The session profile: raw claims plus the fields of the reconciled row. */
  function SessionProfile(claims: Claims, u: User): (p: Profile)
    ensures ProfileOfRow(p, u) && p.auth0 == claims
  {
    Profile(claims, u.id, u.email, u.auth0Id, u.createdAt.time)
  }

  /** What one request to the callback endpoint does. */
  function CallbackStep(query: map<string, string>, env: CallbackEnv, users: UserTable, sessions: SessionStore): (step: Step)
    ensures users.Keys <= step.users.Keys
    ensures step.response.Redirect? ==>
      step.response == RedirectTo("/user") && env.session.Fetched? && env.session.sid in step.sessions
    ensures step.response.Status? ==> step.sessions == sessions
  {
    if Query(query, "code") == "" then
      Step(Status(StatusBadRequest, MissingCodeMessage), users, sessions, [])
    else if !env.exchangeOk then
      Step(Status(StatusInternalServerError, ExchangeFailedMessage), users, sessions, [Exchange])
    else if !env.verifyOk then
      Step(Status(StatusUnauthorized, VerifyFailedMessage), users, sessions, [Exchange, VerifyIdToken])
    else if env.decoded.DecodeFailed? then
      Step(Status(StatusInternalServerError, ClaimsFailedMessage), users, sessions, [Exchange, VerifyIdToken, DecodeClaims])
    else
      var claims := env.decoded.claims;
      var provider := [Exchange, VerifyIdToken, DecodeClaims];
      match Subject(claims)
      case None =>
        Step(Status(StatusInternalServerError, MissingSubMessage), users, sessions, provider)
      case Some(sub) =>
        var rec := Reconcile(users, sub, ChosenEmail(claims, sub), env.lookupFails, env.create);
        var calls := provider + rec.calls;
        if rec.NotReconciled? then
          Step(rec.response, rec.users, sessions, calls)
        else if env.session.FetchFailed? then
          Step(Status(StatusInternalServerError, SessionGetFailedMessage), rec.users, sessions, calls + [GetSession])
        else if !env.saveOk then
          Step(Status(StatusInternalServerError, SessionSaveFailedMessage), rec.users, sessions, calls + [GetSession, SaveSession])
        else
          Step(RedirectTo("/user"), rec.users, sessions[env.session.sid := SessionProfile(claims, rec.user)],
               calls + [GetSession, SaveSession])
  }

  /** Whether `url.Parse` accepted its input, with the error text otherwise. */
  datatype Parse = Parsed | ParseError(message: string)

  /** The answers the logout handler may consult, and its configuration. */
  datatype LogoutEnv = LogoutEnv(
    session: SessionFetch,  // store.Get
    destroyOk: bool,        // sess.Destroy
    logoutUrl: Parse,       // url.Parse of the provider's logout endpoint
    protocol: string,       // c.Protocol()
    hostname: string,       // c.Hostname()
    returnTo: Parse,        // url.Parse of the returnTo URL
    domain: string,         // AUTH0_DOMAIN
    clientId: string)       // AUTH0_CLIENT_ID

  datatype LogoutResult = LogoutResult(response: Response, sessions: SessionStore)

  /** The scheme of the returnTo URL. */
  function Scheme(protocol: string): (scheme: string)
    ensures scheme == "https" <==> protocol == "https"
    ensures scheme == "http" <==> protocol != "https"
  {
    if protocol == "https" then "https" else "http"
  }

  /** What one request to the logout endpoint does. */
  function LogoutStep(env: LogoutEnv, sessions: SessionStore): (out: LogoutResult)
    ensures out.sessions == sessions || (env.session.Fetched? && out.sessions == sessions - {env.session.sid})
    ensures out.response.Redirect? ==>
      (out.response.code == StatusFound && out.response.location == Path("/")) ||
      (out.response.code == StatusTemporaryRedirect && out.response.location.ProviderLogout?)
  {
    match env.session
    case FetchFailed => LogoutResult(RedirectTo("/"), sessions)
    case Fetched(sid) =>
      if !env.destroyOk then LogoutResult(Status(StatusInternalServerError, DestroyFailedMessage), sessions)
      else
        var remaining := sessions - {sid};
        if env.logoutUrl.ParseError? then LogoutResult(Status(StatusInternalServerError, env.logoutUrl.message), remaining)
        else
          var scheme := Scheme(env.protocol);
          if env.returnTo.ParseError? then LogoutResult(Status(StatusInternalServerError, env.returnTo.message), remaining)
          else LogoutResult(Redirect(ProviderLogout(env.domain, scheme, env.hostname, env.clientId), StatusTemporaryRedirect),
                            remaining)
  }

  /** The callback keeps the stores consistent: a row stays under its
      subject and a new profile mirrors the row it was built from. */
  lemma CallbackKeepsConsistent(query: map<string, string>, env: CallbackEnv, users: UserTable, sessions: SessionStore)
    requires Consistent(users, sessions)
    ensures var step := CallbackStep(query, env, users, sessions); Consistent(step.users, step.sessions)
  {
  }

  /** Logout keeps the stores consistent: it only removes a session. */
  lemma LogoutKeepsConsistent(env: LogoutEnv, users: UserTable, sessions: SessionStore)
    requires Consistent(users, sessions)
    ensures Consistent(users, LogoutStep(env, sessions).sessions)
  {
  }

  /** The web application's state: the users table and the session storage. */
  class Server {
    var users: UserTable
    var sessions: SessionStore

    ghost predicate Valid()
      reads this
    {
      Consistent(users, sessions)
    }

    constructor (users0: UserTable, sessions0: SessionStore)
      requires Consistent(users0, sessions0)
      ensures Valid() && users == users0 && sessions == sessions0
    {
      users := users0;
      sessions := sessions0;
    }

    /** The callback handler: exchange, verify, decode, look up or create
        the user, then write the session profile. */
    method HandleCallback(query: map<string, string>, env: CallbackEnv) returns (response: Response, calls: seq<Call>)
      requires Valid()
      modifies this
      ensures Valid()
      ensures Step(response, users, sessions, calls) == CallbackStep(query, env, old(users), old(sessions))
    {
      CallbackKeepsConsistent(query, env, users, sessions);
      calls := [];
      var code := Query(query, "code");
      if code == "" {
        return Status(StatusBadRequest, MissingCodeMessage), calls;
      }

      calls := calls + [Exchange];
      if !env.exchangeOk {
        return Status(StatusInternalServerError, ExchangeFailedMessage), calls;
      }
      calls := calls + [VerifyIdToken];
      if !env.verifyOk {
        return Status(StatusUnauthorized, VerifyFailedMessage), calls;
      }
      calls := calls + [DecodeClaims];
      if env.decoded.DecodeFailed? {
        return Status(StatusInternalServerError, ClaimsFailedMessage), calls;
      }
      var profile := env.decoded.claims;

      var sub := Subject(profile);
      if sub.None? {
        return Status(StatusInternalServerError, MissingSubMessage), calls;
      }
      var auth0Id := sub.value;
      var email := ChosenEmail(profile, auth0Id);
      ghost var rec := Reconcile(users, auth0Id, email, env.lookupFails, env.create);
      assert calls == [Exchange, VerifyIdToken, DecodeClaims];

      var userId: Uuid, userEmail: string, userAuth0Id: string, userCreatedAt: NullTime;
      calls := calls + [GetUserByAuth0Id];
      var existing := LookupUser(users, auth0Id, env.lookupFails);
      if !existing.Found? {
        if existing.NoRows? {
          calls := calls + [CreateUser];
          if env.create.CreateFailed? {
            return Status(StatusInternalServerError, CreateFailedMessage), calls;
          }
          var newUser := User(env.create.id, email, auth0Id, env.create.createdAt);
          users := users[auth0Id := newUser];
          userId, userEmail, userAuth0Id, userCreatedAt := newUser.id, newUser.email, newUser.auth0Id, newUser.createdAt;
          assert rec == Reconciled(newUser, users, [GetUserByAuth0Id, CreateUser]);
        } else {
          return Status(StatusInternalServerError, DatabaseErrorMessage), calls;
        }
      } else {
        userId, userEmail, userAuth0Id, userCreatedAt :=
          existing.user.id, existing.user.email, existing.user.auth0Id, existing.user.createdAt;
        assert rec == Reconciled(existing.user, users, [GetUserByAuth0Id]);
      }

      assert rec.Reconciled? && calls == [Exchange, VerifyIdToken, DecodeClaims] + rec.calls;
      assert Profile(profile, userId, userEmail, userAuth0Id, userCreatedAt.time) == SessionProfile(profile, rec.user);
      calls := calls + [GetSession];
      if env.session.FetchFailed? {
        return Status(StatusInternalServerError, SessionGetFailedMessage), calls;
      }
      var sessionProfile := Profile(profile, userId, userEmail, userAuth0Id, userCreatedAt.time);
      calls := calls + [SaveSession];
      if !env.saveOk {
        return Status(StatusInternalServerError, SessionSaveFailedMessage), calls;
      }
      sessions := sessions[env.session.sid := sessionProfile];
      response := RedirectTo("/user");
    }

    /** The logout handler: destroy the session, then send the browser to
        the provider's logout endpoint. */
    method HandleLogout(env: LogoutEnv) returns (response: Response)
      requires Valid()
      modifies this`sessions
      ensures Valid()
      ensures LogoutResult(response, sessions) == LogoutStep(env, old(sessions))
    {
      LogoutKeepsConsistent(env, users, sessions);
      if env.session.FetchFailed? {
        return RedirectTo("/");
      }
      if !env.destroyOk {
        return Status(StatusInternalServerError, DestroyFailedMessage);
      }
      sessions := sessions - {env.session.sid};

      if env.logoutUrl.ParseError? {
        return Status(StatusInternalServerError, env.logoutUrl.message);
      }
      var scheme := "http";
      if env.protocol == "https" {
        scheme := "https";
      }
      if env.returnTo.ParseError? {
        return Status(StatusInternalServerError, env.returnTo.message);
      }
      response := Redirect(ProviderLogout(env.domain, scheme, env.hostname, env.clientId), StatusTemporaryRedirect);
    }
  }
}
