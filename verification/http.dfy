/** What the two endpoints share: the session token test and the errors a
    handler ends with. */
module Http {
  import opened Wrappers

  /** How a request fails: an `HTTPException` the handler raises itself, or
      any other exception, which leaves the handler unhandled. */
  datatype Error = HttpError(status: int, detail: string) | Unhandled(message: string)

  const NotLoggedIn: string := "Not logged in"

  /** `request.session.get("access_token")` is truthy: present and non-empty. */
  predicate HasToken(session: Option<string>) {
    session.Some? && session.value != ""
  }
}
