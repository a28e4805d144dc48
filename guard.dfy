/** The global JWT guard (`JwtAuthGuard`): `canActivate` lets public handlers
    through without looking at the token; otherwise the passport strategy
    authenticates and `handleRequest` decides between admitting the user,
    Unauthorized and Forbidden. */
module JwtAuthGuard {
  import opened Common

  /** One entry of the permission list materialised into the user's token. */
  datatype Permission = Permission(apiPath: string, httpMethod: string)

  /** The user object passport hands over; `permissions` may be absent. */
  datatype AuthUser = AuthUser(id: Id, email: string, permissions: Option<seq<Permission>>)

  /** What the passport JWT strategy produced: an error it raised (`err`) and
      the user it resolved (`user`, absent when the token is missing or bad). */
  datatype AuthOutcome = AuthOutcome(err: Option<ErrorKind>, user: Option<AuthUser>)

  /** The request as the guard sees it: `request.method` and the route
      template `request.route.path` (e.g. "/api/v1/users/:id"). */
  datatype Request = Request(httpMethod: string, routePath: string)

  /** The guard's answer: the handler runs (with the user, if one was
      authenticated) or the request fails with an exception. */
  datatype Verdict = Admit(user: Option<AuthUser>) | Reject(error: ErrorKind)

  const AUTH_PREFIX: string := "/api/v1/auth"

  /** An entry grants a request when its apiPath is the route template and its
      method is the HTTP method, both by strict string equality. */
  predicate Matches(p: Permission, req: Request) {
    p.apiPath == req.routePath && p.httpMethod == req.httpMethod
  }

  /** The `find` over the permission list: the index of the first entry
      matching the request, if any. */
  function FindPermission(perms: seq<Permission>, req: Request): (r: Option<nat>)
    ensures r.Some? ==> r.value < |perms| && Matches(perms[r.value], req)
                        && forall j :: 0 <= j < r.value ==> !Matches(perms[j], req)
    ensures r.None? <==> forall j :: 0 <= j < |perms| ==> !Matches(perms[j], req)
  {
    if perms == [] then None
    else if Matches(perms[0], req) then Some(0)
    else
      match FindPermission(perms[1..], req)
      case None => None
      case Some(k) => Some(k + 1)
  }

  /** The user's permission list, an absent one read as empty. */
  function PermissionsOf(u: AuthUser): seq<Permission> {
    match u.permissions
    case None => []
    case Some(ps) => ps
  }

  /** Whether `isExist` ends up truthy: a matching entry exists, or the route
      template starts with "/api/v1/auth". */
  predicate Granted(perms: seq<Permission>, req: Request) {
    FindPermission(perms, req).Some? || AUTH_PREFIX <= req.routePath
  }

  /** `handleRequest`: the decision taken once the strategy has run. */
  function HandleRequest(auth: AuthOutcome, isSkipPermission: bool, req: Request): (v: Verdict)
    ensures auth.err.Some? ==> v == Reject(auth.err.value)
    ensures auth.err.None? && auth.user.None? ==> v == Reject(Unauthorized)
    ensures v.Admit? ==> v.user == auth.user && auth.user.Some? && auth.err.None?
    ensures v.Reject? && auth.err.None? && auth.user.Some? ==> v.error == Forbidden
  {
    if auth.err.Some? then Reject(auth.err.value)
    else if auth.user.None? then Reject(Unauthorized)
    else if !Granted(PermissionsOf(auth.user.value), req) && !isSkipPermission then Reject(Forbidden)
    else Admit(auth.user)
  }

  /** `canActivate`: a handler (or controller) flagged public is admitted
      before any token validation; otherwise the strategy runs and its outcome
      goes through `handleRequest`. */
  function CanActivate(isPublic: bool, isSkipPermission: bool, auth: AuthOutcome, req: Request): (v: Verdict)
    ensures isPublic ==> v == Admit(None)
    ensures !isPublic ==> v == HandleRequest(auth, isSkipPermission, req)
  {
    if isPublic then Admit(None) else HandleRequest(auth, isSkipPermission, req)
  }

  /** A public route is admitted whatever the authentication produced, so the
      token is never consulted. */
  lemma PublicIgnoresToken(skip: bool, a1: AuthOutcome, a2: AuthOutcome, req: Request)
    ensures CanActivate(true, skip, a1, req) == CanActivate(true, skip, a2, req) == Admit(None)
  {
  }

  /** Authentication failures win over permission failures: whatever the
      permissions and flags, a failed authentication never yields Forbidden. */
  lemma UnauthorizedBeforeForbidden(auth: AuthOutcome, skip: bool, req: Request)
    requires auth.err.Some? || auth.user.None?
    ensures HandleRequest(auth, skip, req).Reject?
    ensures HandleRequest(auth, skip, req).error == (if auth.err.Some? then auth.err.value else Unauthorized)
  {
  }

  /** The complete decision for an authenticated request: admitted exactly
      when an entry matches route template and method exactly, or the route
      is under "/api/v1/auth", or the handler skips the permission check. */
  lemma {:induction false} AdmitIff(u: AuthUser, skip: bool, req: Request)
    ensures HandleRequest(AuthOutcome(None, Some(u)), skip, req) == Admit(Some(u))
        <==> (|| (exists p :: p in PermissionsOf(u) && p.apiPath == req.routePath && p.httpMethod == req.httpMethod)
              || AUTH_PREFIX <= req.routePath
              || skip)
    ensures HandleRequest(AuthOutcome(None, Some(u)), skip, req) != Admit(Some(u))
        ==> HandleRequest(AuthOutcome(None, Some(u)), skip, req) == Reject(Forbidden)
  {
    var ps := PermissionsOf(u);
    if exists p :: p in ps && p.apiPath == req.routePath && p.httpMethod == req.httpMethod {
      var p :| p in ps && p.apiPath == req.routePath && p.httpMethod == req.httpMethod;
      var j :| 0 <= j < |ps| && ps[j] == p;
      assert Matches(ps[j], req);
    }
  }

  /** An absent permission list behaves as an empty one. */
  lemma AbsentPermissionsAreEmpty(id: Id, email: string, skip: bool, req: Request)
    ensures var v1 := HandleRequest(AuthOutcome(None, Some(AuthUser(id, email, None))), skip, req);
            var v2 := HandleRequest(AuthOutcome(None, Some(AuthUser(id, email, Some([])))), skip, req);
            (v1.Admit? <==> v2.Admit?) && (v1.Reject? ==> v2 == v1)
  {
  }

  /** Matching is exact: an entry for a different template does not grant a
      route even when one is a prefix of the other, and a different method
      does not grant the same template. */
  lemma ExactMatchOnly(req: Request, p: Permission)
    requires p.apiPath != req.routePath || p.httpMethod != req.httpMethod
    ensures FindPermission([p], req).None?
  {
  }

  /** Monotonicity: every entry of `small` also being in `large`, a request
      admitted with `small` is admitted with `large` (and so never turns into
      Forbidden). */
  lemma {:induction false} MoreEntriesNeverForbid(id: Id, email: string, small: seq<Permission>, large: seq<Permission>,
                                                  skip: bool, req: Request)
    requires forall p :: p in small ==> p in large
    requires HandleRequest(AuthOutcome(None, Some(AuthUser(id, email, Some(small)))), skip, req).Admit?
    ensures HandleRequest(AuthOutcome(None, Some(AuthUser(id, email, Some(large)))), skip, req).Admit?
  {
    var su := AuthUser(id, email, Some(small));
    var lu := AuthUser(id, email, Some(large));
    AdmitIff(su, skip, req);
    AdmitIff(lu, skip, req);
  }

  /** The auth-namespace bypass is a plain string prefix test: any template
      that begins with "/api/v1/auth" is admitted with no entries at all,
      including ones outside the auth controller such as "/api/v1/authors". */
  lemma AuthPrefixBypass(u: AuthUser, httpMethod: string, rest: string)
    ensures HandleRequest(AuthOutcome(None, Some(u)), false, Request(httpMethod, AUTH_PREFIX + rest)) == Admit(Some(u))
  {
    assert AUTH_PREFIX <= AUTH_PREFIX + rest;
  }
}
