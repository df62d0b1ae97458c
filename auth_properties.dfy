/** What the callback and logout steps promise, stated over `CallbackStep`
    and `LogoutStep` for all inputs. */
module AuthProperties {
  import opened Http
  import opened Stores
  import opened Identity
  import opened Auth

  /** The provider, as far as the callback gets past it: a non-empty code,
      a successful exchange and verification, and decodable claims. */
  predicate ProviderAccepted(query: map<string, string>, env: CallbackEnv)
  {
    Query(query, "code") != "" && env.exchangeOk && env.verifyOk && env.decoded.Decoded?
  }

  /** An empty or absent code is a 400 before anything is called or changed. */
  lemma MissingCodeRejected(query: map<string, string>, env: CallbackEnv, users: UserTable, sessions: SessionStore)
    requires Query(query, "code") == ""
    ensures CallbackStep(query, env, users, sessions) ==
            Step(Status(StatusBadRequest, MissingCodeMessage), users, sessions, [])
  {
  }

  /** Exchange failure is a 500, verification failure a 401 and a claims
      decoding failure a 500; each stops the callback at that call and
      leaves both stores as they were. */
  lemma ProviderFailuresChangeNothing(query: map<string, string>, env: CallbackEnv, users: UserTable, sessions: SessionStore)
    requires Query(query, "code") != ""
    ensures var step := CallbackStep(query, env, users, sessions);
      !env.exchangeOk ==>
        step == Step(Status(StatusInternalServerError, ExchangeFailedMessage), users, sessions, [Exchange])
    ensures var step := CallbackStep(query, env, users, sessions);
      env.exchangeOk && !env.verifyOk ==>
        step == Step(Status(StatusUnauthorized, VerifyFailedMessage), users, sessions, [Exchange, VerifyIdToken])
    ensures var step := CallbackStep(query, env, users, sessions);
      env.exchangeOk && env.verifyOk && env.decoded.DecodeFailed? ==>
        step == Step(Status(StatusInternalServerError, ClaimsFailedMessage), users, sessions,
                     [Exchange, VerifyIdToken, DecodeClaims])
  {
  }

  /** The response is always one of four kinds: a redirect to /user, or a
      400, 401 or 500 status. A 400 means exactly that the code was missing
      and a 401 exactly that verification failed. */
  lemma CallbackStatusCodes(query: map<string, string>, env: CallbackEnv, users: UserTable, sessions: SessionStore)
    ensures var r := CallbackStep(query, env, users, sessions).response;
      r == RedirectTo("/user") || (r.Status? && r.code in {StatusBadRequest, StatusUnauthorized, StatusInternalServerError})
    ensures var r := CallbackStep(query, env, users, sessions).response;
      r.code == StatusBadRequest <==> Query(query, "code") == ""
    ensures var r := CallbackStep(query, env, users, sessions).response;
      r.code == StatusUnauthorized <==> Query(query, "code") != "" && env.exchangeOk && !env.verifyOk
  {
  }

  /** Claims without a string "sub" are a 500 after the provider calls; no
      user is looked up or created and no session is written. */
  lemma MissingSubjectRejected(query: map<string, string>, env: CallbackEnv, users: UserTable, sessions: SessionStore)
    requires ProviderAccepted(query, env)
    requires Subject(env.decoded.claims).None?
    ensures CallbackStep(query, env, users, sessions) ==
            Step(Status(StatusInternalServerError, MissingSubMessage), users, sessions, [Exchange, VerifyIdToken, DecodeClaims])
  {
  }

  /** A known subject reuses its row as stored: no row is created, and a
      written profile carries the stored e-mail, id and creation time even
      when the new claims say otherwise. */
  lemma FoundUserReused(query: map<string, string>, env: CallbackEnv, users: UserTable, sessions: SessionStore, sub: string)
    requires ProviderAccepted(query, env)
    requires Subject(env.decoded.claims) == Some(sub)
    requires !env.lookupFails && sub in users
    ensures var step := CallbackStep(query, env, users, sessions);
      step.users == users && CreateUser !in step.calls
    ensures var step := CallbackStep(query, env, users, sessions);
      step.response.Redirect? ==>
        && env.session.Fetched?
        && step.sessions == sessions[env.session.sid := SessionProfile(env.decoded.claims, users[sub])]
        && ProfileOfRow(step.sessions[env.session.sid], users[sub])
  {
  }

  /** An unknown subject gets exactly one new row, keyed and labelled by the
      subject and carrying the chosen e-mail; a failed create is a 500 and
      adds nothing. */
  lemma NewUserCreated(query: map<string, string>, env: CallbackEnv, users: UserTable, sessions: SessionStore, sub: string)
    requires ProviderAccepted(query, env)
    requires Subject(env.decoded.claims) == Some(sub)
    requires !env.lookupFails && sub !in users
    ensures var step := CallbackStep(query, env, users, sessions);
      env.create.Created? ==>
        && step.users == users[sub := User(env.create.id, ChosenEmail(env.decoded.claims, sub), sub, env.create.createdAt)]
        && |step.users| == |users| + 1
    ensures var step := CallbackStep(query, env, users, sessions);
      env.create.CreateFailed? ==>
        step == Step(Status(StatusInternalServerError, CreateFailedMessage), users, sessions,
                     [Exchange, VerifyIdToken, DecodeClaims, GetUserByAuth0Id, CreateUser])
  {
  }

  /** A lookup error other than "no rows" is a 500 with no row created. */
  lemma LookupErrorRejected(query: map<string, string>, env: CallbackEnv, users: UserTable, sessions: SessionStore)
    requires ProviderAccepted(query, env)
    requires Subject(env.decoded.claims).Some?
    requires env.lookupFails
    ensures CallbackStep(query, env, users, sessions) ==
            Step(Status(StatusInternalServerError, DatabaseErrorMessage), users, sessions,
                 [Exchange, VerifyIdToken, DecodeClaims, GetUserByAuth0Id])
  {
  }

  /** A session failure after the user was reconciled is a 500 that writes
      no session, but a row created earlier in the request stays. */
  lemma SessionFailureKeepsNewRow(query: map<string, string>, env: CallbackEnv, users: UserTable, sessions: SessionStore, sub: string)
    requires ProviderAccepted(query, env)
    requires Subject(env.decoded.claims) == Some(sub)
    requires !env.lookupFails && sub !in users && env.create.Created?
    requires env.session.FetchFailed? || !env.saveOk
    ensures var step := CallbackStep(query, env, users, sessions);
      && step.response.Status? && step.response.code == StatusInternalServerError
      && step.sessions == sessions
      && sub in step.users && sub !in users
  {
  }

  /** The callback succeeds exactly when every call succeeds, and then it
      redirects to /user with the request's session holding the raw claims
      and the reconciled row of the claims' subject. */
  lemma CallbackSuccess(query: map<string, string>, env: CallbackEnv, users: UserTable, sessions: SessionStore)
    ensures var step := CallbackStep(query, env, users, sessions);
      step.response.Redirect? <==>
        && ProviderAccepted(query, env)
        && Subject(env.decoded.claims).Some?
        && !env.lookupFails
        && (Subject(env.decoded.claims).value in users || env.create.Created?)
        && env.session.Fetched? && env.saveOk
    ensures var step := CallbackStep(query, env, users, sessions);
      step.response.Redirect? ==>
        && step.response == RedirectTo("/user")
        && var sub := Subject(env.decoded.claims).value;
        && sub in step.users
        && step.sessions == sessions[env.session.sid := SessionProfile(env.decoded.claims, step.users[sub])]
        && step.sessions[env.session.sid].auth0 == env.decoded.claims
        && step.calls == [Exchange, VerifyIdToken, DecodeClaims, GetUserByAuth0Id] +
                         (if sub in users then [] else [CreateUser]) + [GetSession, SaveSession]
  {
  }

  /** Only the "code" query parameter is read: in particular a "state"
      parameter never changes what the callback does. */
  lemma StateParameterIgnored(query: map<string, string>, key: string, value: string, env: CallbackEnv,
                              users: UserTable, sessions: SessionStore)
    requires key != "code"
    ensures CallbackStep(query[key := value], env, users, sessions) == CallbackStep(query, env, users, sessions)
  {
  }

  /** Each callback changes nothing but the row of the claims' subject and
      the request's own session: existing rows are never altered or
      removed, at most one row appears, and no other session changes. */
  lemma CallbackFrame(query: map<string, string>, env: CallbackEnv, users: UserTable, sessions: SessionStore)
    ensures var step := CallbackStep(query, env, users, sessions);
      && (forall k :: k in users ==> k in step.users && step.users[k] == users[k])
      && (forall k :: k in step.users && k !in users ==>
            ProviderAccepted(query, env) && Subject(env.decoded.claims) == Some(k))
      && |step.users| <= |users| + 1
    ensures var step := CallbackStep(query, env, users, sessions);
      && (forall s :: s in sessions && !(env.session.Fetched? && s == env.session.sid) ==>
            s in step.sessions && step.sessions[s] == sessions[s])
      && (forall s :: s in step.sessions && s !in sessions ==> env.session.Fetched? && s == env.session.sid)
  {
  }

  /** Two callbacks for the same subject leave one row for it in total: once
      the first has reconciled the user, the second creates nothing,
      whatever else it is told. */
  lemma RepeatedLoginCreatesOneRow(query1: map<string, string>, env1: CallbackEnv,
                                   query2: map<string, string>, env2: CallbackEnv,
                                   users: UserTable, sessions: SessionStore, sub: string)
    requires ProviderAccepted(query1, env1) && Subject(env1.decoded.claims) == Some(sub)
    requires CallbackStep(query1, env1, users, sessions).response.Redirect?
    requires ProviderAccepted(query2, env2) && Subject(env2.decoded.claims) == Some(sub)
    ensures var step1 := CallbackStep(query1, env1, users, sessions);
      var step2 := CallbackStep(query2, env2, step1.users, step1.sessions);
      && step2.users == step1.users
      && CreateUser !in step2.calls
      && sub in step2.users
      && |step2.users| == |users| + (if sub in users then 0 else 1)
  {
  }

  /** Logout: a failed session lookup redirects home and a failed destroy is
      a 500, both changing nothing; otherwise the session is gone, and the
      answer is a 307 to the provider's logout endpoint unless a URL fails
      to parse. The users table is never touched (the method may modify
      only `sessions`). */
  lemma LogoutOutcomes(env: LogoutEnv, sessions: SessionStore)
    ensures var out := LogoutStep(env, sessions);
      env.session.FetchFailed? ==> out == LogoutResult(RedirectTo("/"), sessions)
    ensures var out := LogoutStep(env, sessions);
      env.session.Fetched? && !env.destroyOk ==>
        out == LogoutResult(Status(StatusInternalServerError, DestroyFailedMessage), sessions)
    ensures var out := LogoutStep(env, sessions);
      env.session.Fetched? && env.destroyOk ==>
        && out.sessions == sessions - {env.session.sid}
        && env.session.sid !in out.sessions
        && (out.response.Redirect? <==> env.logoutUrl.Parsed? && env.returnTo.Parsed?)
        && (out.response.Status? ==> out.response.code == StatusInternalServerError)
        && (env.logoutUrl.ParseError? ==> out.response == Status(StatusInternalServerError, env.logoutUrl.message))
        && (env.logoutUrl.Parsed? && env.returnTo.ParseError? ==>
              out.response == Status(StatusInternalServerError, env.returnTo.message))
  {
  }

  /** The logout redirect is a 307 whose returnTo uses https exactly when
      the request came over https, and http otherwise. */
  lemma LogoutReturnToScheme(env: LogoutEnv, sessions: SessionStore)
    requires env.session.Fetched? && env.destroyOk && env.logoutUrl.Parsed? && env.returnTo.Parsed?
    ensures var r := LogoutStep(env, sessions).response;
      && r == Redirect(ProviderLogout(env.domain, r.location.returnToScheme, env.hostname, env.clientId),
                       StatusTemporaryRedirect)
      && (r.location.returnToScheme == "https" <==> env.protocol == "https")
      && (r.location.returnToScheme == "http" <==> env.protocol != "https")
  {
  }

  /** A request to one of the two endpoints that change the stores. */
  datatype Request =
    | CallbackRequest(query: map<string, string>, env: CallbackEnv)
    | LogoutRequest(logout: LogoutEnv)

  datatype StoreState = StoreState(users: UserTable, sessions: SessionStore)

  function Serve(req: Request, st: StoreState): StoreState
  {
    match req
    case CallbackRequest(query, env) =>
      var step := CallbackStep(query, env, st.users, st.sessions);
      StoreState(step.users, step.sessions)
    case LogoutRequest(env) => StoreState(st.users, LogoutStep(env, st.sessions).sessions)
  }

  /** The stores after serving the requests one after another. */
  function Run(reqs: seq<Request>, st: StoreState): StoreState
  {
    if reqs == [] then st else Run(reqs[1..], Serve(reqs[0], st))
  }

  /** Over any sequence of callbacks and logouts, every stored profile keeps
      mirroring an existing user row of its subject. */
  lemma {:induction false} RunKeepsConsistent(reqs: seq<Request>, st: StoreState)
    requires Consistent(st.users, st.sessions)
    ensures var end := Run(reqs, st); Consistent(end.users, end.sessions)
  {
    if reqs != [] {
      match reqs[0] {
        case CallbackRequest(query, env) => CallbackKeepsConsistent(query, env, st.users, st.sessions);
        case LogoutRequest(env) => LogoutKeepsConsistent(env, st.users, st.sessions);
      }
      RunKeepsConsistent(reqs[1..], Serve(reqs[0], st));
    }
  }

  /** Over any sequence of callbacks and logouts, no user row is ever
      altered or deleted, so a subject keeps the row it first got. */
  lemma {:induction false} RunKeepsRows(reqs: seq<Request>, st: StoreState)
    ensures var end := Run(reqs, st);
      forall k :: k in st.users ==> k in end.users && end.users[k] == st.users[k]
  {
    if reqs != [] {
      if reqs[0].CallbackRequest? {
        CallbackFrame(reqs[0].query, reqs[0].env, st.users, st.sessions);
      }
      RunKeepsRows(reqs[1..], Serve(reqs[0], st));
    }
  }
}
