/** HTTP-level vocabulary shared by the handlers and the middleware: the
    status codes the web framework uses, where a redirect goes, and the
    response a handler ends with. */
module Http {

  const StatusFound := 302              // the framework's default for c.Redirect
  const StatusTemporaryRedirect := 307
  const StatusBadRequest := 400
  const StatusUnauthorized := 401
  const StatusInternalServerError := 500

  /** Where a redirect sends the browser. The identity provider's logout URL
      is kept as its components: its query encoding is library behaviour. */
  datatype Location =
    | Path(path: string)
    | ProviderLogout(domain: string, returnToScheme: string, returnToHost: string, clientId: string)

  /** What a handler answers: a redirect, or a status code with a plain-text body. */
  datatype Response =
    | Redirect(location: Location, code: int)
    | Status(code: int, message: string)

  /** `c.Redirect(path)` with no explicit status. */
  function RedirectTo(path: string): Response
  {
    Redirect(Path(path), StatusFound)
  }

  /** `c.Query(key)`: the query parameter's value, or "" when it is absent. */
  function Query(query: map<string, string>, key: string): string
  {
    if key in query then query[key] else ""
  }
}
