/** The route table the guard consults: for every handler of the auth, users,
    roles and mail controllers, its HTTP method, its route template under the
    global "/api/v1" prefix, and whether it is flagged public or skips the
    permission check. Handlers of the other controllers are not part of this
    model. */
module Routes {
  import opened Common
  import opened JwtAuthGuard

  datatype Route = Route(httpMethod: string, path: string, isPublic: bool, skipPermission: bool)

  const ROUTES: seq<Route> := [
    // auth controller
    Route("POST", "/api/v1/auth/login", true, false),
    Route("POST", "/api/v1/auth/register", true, false),
    Route("GET", "/api/v1/auth/account", false, false),
    Route("GET", "/api/v1/auth/refresh", true, false),
    Route("POST", "/api/v1/auth/logout", false, false),
    // users controller
    Route("POST", "/api/v1/users", false, false),
    Route("GET", "/api/v1/users", false, false),
    Route("GET", "/api/v1/users/:id", true, false),
    Route("PATCH", "/api/v1/users", false, false),
    Route("DELETE", "/api/v1/users/:id", false, false),
    // roles controller
    Route("POST", "/api/v1/roles", false, false),
    Route("GET", "/api/v1/roles", false, false),
    Route("GET", "/api/v1/roles/:id", false, false),
    Route("PATCH", "/api/v1/roles/:id", false, false),
    Route("DELETE", "/api/v1/roles/:id", false, false),
    // mail controller
    Route("GET", "/api/v1/mail", true, false)
  ]

  /** The guard run on a request to route `r`. */
  function Guard(r: Route, auth: AuthOutcome): (v: Verdict)
    ensures r.isPublic ==> v == Admit(None)
    ensures !r.isPublic && auth.err.None? && auth.user.None? ==> v == Reject(Unauthorized)
  {
    CanActivate(r.isPublic, r.skipPermission, auth, Request(r.httpMethod, r.path))
  }

  /** Every handler of the auth controller is reachable by any authenticated
      caller, whatever its permission list; login, register and refresh even
      without a token. */
  lemma AuthControllerNeedsNoPermission(r: Route, u: AuthUser)
    requires r in ROUTES && AUTH_PREFIX <= r.path
    ensures Guard(r, AuthOutcome(None, Some(u))).Admit?
    ensures r.path in {"/api/v1/auth/login", "/api/v1/auth/register", "/api/v1/auth/refresh"} ==>
              forall a :: Guard(r, a) == Admit(None)
  {
  }

  /** Outside the auth namespace, every non-public handler listed here is
      Forbidden to an authenticated caller with an empty permission list. */
  lemma ProtectedRoutesNeedAnEntry(r: Route, id: Id, email: string)
    requires r in ROUTES && !r.isPublic && !(AUTH_PREFIX <= r.path)
    ensures Guard(r, AuthOutcome(None, Some(AuthUser(id, email, Some([]))))) == Reject(Forbidden)
  {
  }
}
