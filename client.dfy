/** How the session store and the gateway meet: only through `localStorage`. */
module Client {
  import opened Wrappers
  import opened BrowserStorage
  import opened Jwt
  import opened Session
  import opened Api

  /** Logging out is seen by the very next gateway call: headers are built
      from storage, so no stale token is sent; after a login, the new token is. */
  lemma HeadersFollowSession(s: State, t: string, e: Option<string>)
    ensures Authorization !in AuthHeaders(LogoutState(s).storage)
    ensures t != "" ==> AuthHeaders(LoginState(s, t, e).storage)[Authorization] == "Bearer " + t
    ensures t == "" ==> Authorization !in AuthHeaders(LoginState(s, t, e).storage)
  {
  }

  /** A 401 from `testAuth` clears storage but not the store's memory: the
      page stays authenticated until the next reload, which then finds no
      session to restore. */
  lemma UnauthorizedLeavesMemorySession(s: State, resp: Response<string>, decode: Decoder, now: int, reloadedAt: Location)
    requires Authenticated(s)
    requires resp.status == 401
    ensures var out := TestAuthEffect(s.storage, resp);
            var afterCall := s.(storage := out.1);
            out.0 == Err(ApiError(401, "Unauthorized")) &&
            Authenticated(afterCall) && afterCall.token == s.token &&
            TokenKey !in out.1 && EmailKey !in out.1 &&
            !Authenticated(RestoreState(InitialState(out.1, reloadedAt), decode, now))
  {
  }
}
