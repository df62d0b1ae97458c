# Login callback, logout and access gate of a Go/Fiber Auth0 template

This project models, in Dafny, the decision logic of a small web application
that logs users in through an OAuth2/OIDC identity provider (Auth0), keeps a
server-side session, and lazily creates a local user row on first login:

- the login **callback** (`HandleCallback`): read the `code` query parameter,
  exchange it for tokens, verify the ID token, decode its claims, take the
  mandatory `sub` and a best-effort e-mail (`email`, else `name`, else `sub`),
  look the user up by subject and create the row when there is none, then
  write the session's `"profile"` and redirect to `/user`;
- the **logout** handler (`HandleLogout`): destroy the session and send the
  browser, with a 307, to the provider's logout endpoint with a `returnTo`
  whose scheme follows the request's protocol;
- the **bearer header parser** (`ExtractToken`): `strings.Split` on a space,
  exactly two parts, the first exactly `Bearer`;
- the **access gate** (`IsAuthenticated`): redirect to `/` unless the session
  can be read and holds a `"profile"`, otherwise call the next handler.

Everything outside the process arrives as an already-resolved input: whether
the token exchange, the verification and the claims decoding succeeded (with
the decoded claims), whether the user lookup hit a database error, what
`CreateUser` generated (id and `created_at`) or that it failed, the request's
session identifier or a session-store error, and whether save or destroy
succeeded. Claims are a map from name to a tagged JSON value, so "present and
a string" is told apart from "absent or another type", as Go's
`profile["sub"].(string)` does. The user lookup itself is computed from the
users table (found / no rows), so reconciliation and idempotence are stated
against the table.

Layout:

- `http.dfy` (module `Http`): status codes, redirect locations, responses, `c.Query`.
- `stores.dfy` (module `Stores`): user rows, claims, session profiles, the
  two stores, and `Consistent`, the invariant that every stored profile
  mirrors an existing user row of its subject.
- `identity.dfy` (module `Identity`): subject and e-mail extraction from the claims.
- `auth.dfy` (module `Auth`): `CallbackStep` and `LogoutStep`, what one request
  does to the two stores and what it answers, with a trace of the outside
  calls it made; class `Server`, whose `users` and `sessions` fields the
  imperative `HandleCallback` and `HandleLogout` methods update step by step
  as the Go handlers do, each proved to agree with its step function and to
  keep `Consistent`.
- `auth_properties.dfy` (module `AuthProperties`): the callback's and the
  logout's properties, for all inputs, and for any sequence of such requests.
- `helpers.dfy` (module `Helpers`): `strings.Split` with a one-character
  separator, its inverse `Join`, and `ExtractToken`.
- `middleware.dfy` (module `Middleware`): the gate, and how it sees the
  stores that the callback and the logout leave behind.

The callback never reads a `state` parameter (`StateParameterIgnored`): the
anti-forgery value generated at login is not checked when the provider
redirects back. The model states this as the code behaves and does not add a
check.

The model follows the live handlers. The old, commented-out handler in `platform/router/router.go` answers
401 on a failed exchange; the live handler in
`platform/router/handlers/auth.go` answers 500, and so does the model. An
`"email"` claim that is the empty string is a string, so it is chosen over
`"name"`. The header `"Bearer "` (empty token) is accepted and gives the
empty token.

## Model

| member | source | states |
|---|---|---|
| `Identity.StringClaim` | platform/router/handlers/auth.go:63-72 | a claim reads as text exactly when it is present and a string; its text is then that string |
| `Identity.EmailFallbackChain` | platform/router/handlers/auth.go:69-79 | when `sub` is a string, the chosen e-mail is the first string among the claims `email`, `name`, `sub` (checked against an independent first-match definition) |
| `Identity.Subject` | platform/router/handlers/auth.go:63-67 | the subject is found exactly when `sub` is present and a string, and it is then that string; `MissingSubjectRejected` gives the 500 otherwise |
| `Identity.ChosenEmail` | platform/router/handlers/auth.go:69-79 | the chosen e-mail is always the `email` claim, the `name` claim or the subject: a string `email` wins (even when empty), else a string `name`, else the subject; it never fails |
| `Auth.Scheme` | platform/router/handlers/auth.go:166-170 | the returnTo scheme is `https` exactly when the request protocol is `https`, and `http` otherwise |
| `Auth.LookupUser` | platform/router/handlers/auth.go:88-90 | a database error exactly when the lookup fails; otherwise the stored row of the subject when there is one, and "no rows" exactly when there is none |
| `Auth.Reconcile` | platform/router/handlers/auth.go:88-117 | lookup-or-create: a known subject reuses its stored row and leaves the table as it is; an unknown one gets the row `User(id, email, sub, createdAt)` added; a lookup or create error is a 500 that leaves the table as it is; `CreateUser` is called exactly on "no rows" |
| `Auth.SessionProfile` | platform/router/handlers/auth.go:127-133 | the profile holds the raw claims under `auth0`, and its user id, e-mail, subject and creation time are those of the reconciled row |
| `Auth.CallbackStep` | platform/router/handlers/auth.go:30-145 | no user row ever disappears; a redirect is to `/user` and writes the request's session; an error status writes no session (the rest is stated by the `AuthProperties` lemmas below) |
| `Auth.LogoutStep` | platform/router/handlers/auth.go:149-185 | the session store is left as it is or loses exactly the request's session; a redirect is a 302 to `/` or a 307 to the provider's logout endpoint (the rest is stated by `LogoutOutcomes` and `LogoutReturnToScheme`) |
| `Auth.CallbackKeepsConsistent` | platform/router/handlers/auth.go:88-138 | every callback keeps each row under its own subject and every stored profile mirroring the row of its subject |
| `Auth.LogoutKeepsConsistent` | platform/router/handlers/auth.go:151-157 | logout keeps the stores consistent, since it only removes a session |
| `Auth.Server.HandleCallback` | platform/router/handlers/auth.go:30-145 | the in-place handler produces the response, the call trace and the new users and sessions that `CallbackStep` gives for the old ones, and keeps `Consistent` |
| `Auth.Server.HandleLogout` | platform/router/handlers/auth.go:149-185 | the in-place handler changes only the session store, as `LogoutStep` says, and keeps `Consistent` |
| `AuthProperties.MissingCodeRejected` | platform/router/handlers/auth.go:32-36 | an empty or absent code gives 400 "Missing authorization code", calls nothing (no exchange) and changes neither store |
| `AuthProperties.ProviderFailuresChangeNothing` | platform/router/handlers/auth.go:38-57 | exchange failure gives 500, verification failure 401, claims decoding failure 500; each stops at that call and changes neither store |
| `AuthProperties.CallbackStatusCodes` | platform/router/handlers/auth.go:30-145 | the answer is a redirect to `/user` or a 400, 401 or 500; 400 exactly when the code is missing, 401 exactly when verification failed |
| `AuthProperties.MissingSubjectRejected` | platform/router/handlers/auth.go:63-67 | claims without a string `sub` give 500 "Invalid profile: missing sub claim", with no lookup, no row and no session written |
| `AuthProperties.FoundUserReused` | platform/router/handlers/auth.go:111-133 | a known subject creates no row, and the written profile carries the stored row's id, e-mail, subject and creation time, not the new claims' e-mail |
| `AuthProperties.NewUserCreated` | platform/router/handlers/auth.go:88-106 | an unknown subject gets exactly one new row with `Auth0ID = sub`, the chosen e-mail and the generated id and time; a failed create gives 500 and adds nothing |
| `AuthProperties.LookupErrorRejected` | platform/router/handlers/auth.go:107-110 | a lookup error other than "no rows" gives 500 "Database error" with no create call and no change |
| `AuthProperties.SessionFailureKeepsNewRow` | platform/router/handlers/auth.go:97-141 | a session get or save failure gives 500 and writes no session, but the row created earlier in the request stays |
| `AuthProperties.CallbackSuccess` | platform/router/handlers/auth.go:120-144 | the callback redirects exactly when every call succeeds; then it goes to `/user`, the session holds the raw claims under `auth0` plus the reconciled row, and the call order is fixed |
| `AuthProperties.StateParameterIgnored` | platform/router/handlers/auth.go:32 | no query parameter other than `code`, `state` included, changes what the callback does |
| `AuthProperties.CallbackFrame` | platform/router/handlers/auth.go:88-138 | existing rows are never altered or removed, at most one row appears and only for the claims' subject, and no other session changes |
| `AuthProperties.RepeatedLoginCreatesOneRow` | platform/router/handlers/auth.go:88-117 | after a successful callback, a second callback for the same subject creates no row, so the subject has one row in total |
| `AuthProperties.LogoutOutcomes` | platform/router/handlers/auth.go:151-184 | a failed session read redirects to `/` and a failed destroy gives 500, both changing nothing; otherwise the session is removed, and the answer is a redirect exactly when both URLs parse, else 500 whose body is the text of the first parse error |
| `AuthProperties.LogoutReturnToScheme` | platform/router/handlers/auth.go:166-184 | the logout redirect is a 307 to the provider's endpoint with the configured domain, host and client id, and an `https` returnTo exactly for `https` requests |
| `AuthProperties.RunKeepsConsistent` | platform/router/handlers/auth.go:30-185 | after any sequence of callbacks and logouts, every stored profile still mirrors an existing user row of its subject |
| `AuthProperties.RunKeepsRows` | platform/router/handlers/auth.go:88-117 | after any sequence of callbacks and logouts, every user row is still there, unchanged |
| `Helpers.Split` | platform/utils/helpers.go:19 | the pieces contain no separator, there is one more piece than separators, and joining them back gives the input |
| `Helpers.SplitJoin` | platform/utils/helpers.go:19 | splitting undoes joining separator-free pieces |
| `Helpers.ExtractToken` | platform/utils/helpers.go:12-25 | the "missing" error exactly for an empty header; every other error is the format error; a returned token has no space and `"Bearer " + token` is the header |
| `Helpers.ExtractTokenRoundTrip` | platform/utils/helpers.go:19-24 | for any token without a space, the empty one included, `ExtractToken("Bearer " + t)` gives `t` |
| `Helpers.ExtractTokenAccepts` | platform/utils/helpers.go:19-24 | a header is accepted exactly when it is `"Bearer "` followed by a space-free token |
| `Helpers.WrongSpaceCountRejected` | platform/utils/helpers.go:19-22 | a non-empty header with zero, two or more spaces gives the format error |
| `Helpers.SchemeIsCaseSensitive` | platform/utils/helpers.go:20-21 | `bearer x`, `Token x` and `BEARER x` are refused with the format error |
| `Middleware.IsAuthenticated` | platform/middleware/isAuthenticated.go:11-25 | the next handler is called exactly when the session can be read and holds a profile; otherwise the answer is a redirect to `/` |
| `Middleware.PassingSessionHasUser` | platform/middleware/isAuthenticated.go:18-23 | in consistent stores, a request the gate lets through has a user row that its profile mirrors |
| `Middleware.CallbackThenGatePasses` | platform/middleware/isAuthenticated.go:13-23 | after a successful callback, the same session passes the gate |
| `Middleware.LogoutThenGateDenies` | platform/middleware/isAuthenticated.go:18-21 | after a logout that destroyed the session, that session is redirected to `/` by the gate |

## Left out

- The identity provider (`auth.Exchange`, `VerifyIDToken`, `Claims`): OAuth2 token exchange and signature checks are foreign cryptographic calls, modelled only as success or failure, with the decoded claims as input.
- `CreateUser`'s returned row: it is assumed to carry the `Auth0ID` and `Email` that were inserted, so the model builds the new row's subject and e-mail from the request and takes only the generated id and `created_at` from the database.
- UUID generation and `created_at` timestamps: supplied by the database on create, so they are inputs to the model; uniqueness of generated ids is not modelled.
- `url.Parse`, `url.Values.Encode` and `returnTo.String()`: library behaviour. A parse outcome is an input, and the logout redirect target is kept as its components (domain, returnTo scheme and host, client id) rather than as the encoded URL string.
- `HandleLogin` and `GenerateRandomState`: a redirect to a library-built URL with a CSPRNG value encoded in base64 (the `rand.Read` error is ignored); nothing to state beyond the foreign calls.
- Logging, the HTTP context plumbing, cookies, and session expiry (the 24-hour lifetime set in `platform/router/router.go`): the session store is modelled as a map from session identifier to the `"profile"` entry only.
- Concurrency: each request is one sequential step. The race between two first logins for the same subject is not modelled; a lost race shows up only as a create failure input, and the create is not claimed to be atomic with the session write.
- The gate's verdict after a logout whose session read failed: not stated, since no session was destroyed then.
- `Consistent` holds only for stores that the callback and logout alone have changed; code outside this model that edits rows or sessions is not covered.
- `platform/router/router.go` (route and template wiring, plus commented-out duplicates of the handlers), `main.go` and `internal/db/connection.go` (environment loading, database open and server start), `platform/utils/encoder.go` (type registration for session encoding) and `platform/router/handlers/users.go` (template rendering) are not part of this model.
