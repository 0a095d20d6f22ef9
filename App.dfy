/**
 * The console's authentication context and routing: the permission test every page uses,
 * the guard that wraps each protected route, the permission each route demands, and the
 * login/logout updates of the signed-in user and token.
 */
module App {
  import opened JsText
  import Api

  const AdminAll := "admin:all"

  /** The signed-in user as the session or sign-in response describes it; the permission
      list may be missing. */
  datatype SessionUser = SessionUser(permissions: Option<seq<string>>)

  /** `hasPermission(p)` for the current user (`null` when nobody is signed in). */
  predicate HasPermission(user: Option<SessionUser>, p: string) {
    && user.Some? && user.value.permissions.Some?
    && (Includes(user.value.permissions.value, p) || Includes(user.value.permissions.value, AdminAll))
  }

  /** The permission test holds exactly for a listed permission or for a holder of `admin:all`,
      and never without a user or a permission list. */
  lemma HasPermissionIff(user: Option<SessionUser>, p: string)
    ensures HasPermission(user, p) <==>
      user.Some? && user.value.permissions.Some? &&
      (p in user.value.permissions.value || AdminAll in user.value.permissions.value)
  {
    if user.Some? && user.value.permissions.Some? {
      IncludesIsIn(user.value.permissions.value, p);
      IncludesIsIn(user.value.permissions.value, AdminAll);
    }
  }

  /** More permissions never take a permission away. */
  lemma HasPermissionMonotone(perms: seq<string>, more: seq<string>, p: string)
    requires forall x :: x in perms ==> x in more
    requires HasPermission(Some(SessionUser(Some(perms))), p)
    ensures HasPermission(Some(SessionUser(Some(more))), p)
  {
    HasPermissionIff(Some(SessionUser(Some(perms))), p);
    HasPermissionIff(Some(SessionUser(Some(more))), p);
  }

  // ----- the route guard -----

  datatype Outcome = RenderChildren | RedirectHome

  /** `ProtectedRoute`: a `requiredPermission` of "" counts as none. */
  function Guard(requiredPermission: string, user: Option<SessionUser>): (r: Outcome)
    ensures r == RedirectHome <==> requiredPermission != "" && !HasPermission(user, requiredPermission)
  {
    if requiredPermission != "" && !HasPermission(user, requiredPermission) then RedirectHome
    else RenderChildren
  }

  /** A route below the dashboard layout, with the permission its guard demands ("" for none). */
  datatype Route = Route(path: string, requiredPermission: string)

  const Routes: seq<Route> := [
    Route("", ""),
    Route("articles", "articles:read"),
    Route("articles/new", "articles:write"),
    Route("articles/:id", "articles:read"),
    Route("articles/:id/edit", "articles:write"),
    Route("users", "users:read"),
    Route("moderators", AdminAll),
    Route("flagged-content", "articles:read"),
    Route("settings", "settings:write"),
    Route("moderation/freelance/posts", "freelance_post:read"),
    Route("moderation/freelance/posts/:id", "freelance_post:write")
  ]

  /** Whether `user` is let through to route `r`; the layout route itself demands nothing. */
  predicate Reaches(user: Option<SessionUser>, r: Route) {
    Guard(r.requiredPermission, user) == RenderChildren
  }

  /** A holder of `admin:all` reaches every route. */
  lemma AdminReachesEverything(perms: seq<string>)
    requires AdminAll in perms
    ensures forall k :: 0 <= k < |Routes| ==> Reaches(Some(SessionUser(Some(perms))), Routes[k])
  {
    forall k | 0 <= k < |Routes|
      ensures Reaches(Some(SessionUser(Some(perms))), Routes[k])
    {
      HasPermissionIff(Some(SessionUser(Some(perms))), Routes[k].requiredPermission);
    }
  }

  /** Without a signed-in user only the dashboard index is reached. */
  lemma SignedOutReachesOnlyIndex()
    ensures Reaches(None, Routes[0])
    ensures forall k :: 1 <= k < |Routes| ==> !Reaches(None, Routes[k])
  {
    assert forall k :: 1 <= k < |Routes| ==> Routes[k].requiredPermission != "" by {
      assert forall k :: 1 <= k < |Routes| ==> |Routes[k].requiredPermission| > 0;
    }
  }

  /** The articles pages, the freelance pages and the settings page each open for exactly the
      permission their route names (or `admin:all`). */
  lemma RoutePermissions(user: Option<SessionUser>)
    ensures Reaches(user, Routes[1]) <==> HasPermission(user, "articles:read")
    ensures Reaches(user, Routes[2]) <==> HasPermission(user, "articles:write")
    ensures Reaches(user, Routes[3]) <==> HasPermission(user, "articles:read")
    ensures Reaches(user, Routes[4]) <==> HasPermission(user, "articles:write")
    ensures Reaches(user, Routes[7]) <==> HasPermission(user, "articles:read")
    ensures Reaches(user, Routes[5]) <==> HasPermission(user, "users:read")
    ensures Reaches(user, Routes[6]) <==> HasPermission(user, AdminAll)
    ensures Reaches(user, Routes[8]) <==> HasPermission(user, "settings:write")
    ensures Reaches(user, Routes[9]) <==> HasPermission(user, "freelance_post:read")
    ensures Reaches(user, Routes[10]) <==> HasPermission(user, "freelance_post:write")
  {
  }

  // ----- the authentication context -----

  /** What the sign-in endpoint answers with. */
  datatype SignInResponse = SignInResponse(user: Option<SessionUser>, token: Option<string>)

  /** Whether the session request removed the stored token: it threw the `ApiError` of a 401. */
  predicate SessionDropsToken(reply: Api.Outcome<Api.Body<SessionUser>>) {
    reply.Threw? && reply.failure.ApiError? && Api.DropsToken(reply.failure.status)
  }

  /** The session request removes the stored token exactly when the server answers 401, and
      it resolves to a user exactly when the server answers a success other than 204. */
  lemma SessionReply(status: int, statusText: string, body: Api.Body<SessionUser>)
    ensures SessionDropsToken(Api.ApiClient(status, statusText, body)) <==> status == 401
    ensures var r := Api.ApiClient(status, statusText, body);
      (r.Returned? && r.value.Object?) <==> Api.OkStatus(status) && status != 204 && body.Object?
  {
  }

  /** `AuthProvider`'s state: the user, the token, and the `token` entry of local storage. */
  class AuthProvider {
    var user: Option<SessionUser>
    var token: Option<string>
    var storedToken: Option<string>

    /** The provider mounts with no user and the token kept in local storage. */
    constructor(storedToken: Option<string>)
      ensures user == None && token == storedToken && this.storedToken == storedToken
    {
      user := None;
      token := storedToken;
      this.storedToken := storedToken;
    }

    predicate Allows(p: string)
      reads this
    {
      HasPermission(user, p)
    }

    /** `checkAuth` once the session request has ended with `reply`: a parsed object becomes
        the user and a `null` (a 204) signs the user out; a thrown error is caught and keeps the
        user, except that on a 401 `apiClient` has already removed the stored token, while the
        token held in state stays as it was. */
    method CheckAuth(reply: Api.Outcome<Api.Body<SessionUser>>)
      modifies this
      ensures reply.Returned? && reply.value.Object? ==> user == Some(reply.value.content)
      ensures reply.Returned? && reply.value.Null? ==> user == None
      ensures reply.Threw? ==> user == old(user)
      ensures token == old(token)
      ensures storedToken == if SessionDropsToken(reply) then None else old(storedToken)
    {
      match reply {
        case Returned(body) =>
          user := match body case Object(u, _) => Some(u) case Null => None;
        case Threw(failure) =>
          if failure.ApiError? && Api.DropsToken(failure.status) {
            storedToken := None;
          }
      }
    }

    /** `login` once the sign-in request has answered `response`. */
    method Login(response: SignInResponse)
      modifies this
      ensures user == response.user && token == response.token && storedToken == response.token
    {
      user := response.user;
      token := response.token;
      storedToken := response.token;
    }

    /** `logout`: both cleared and the stored token removed. */
    method Logout()
      modifies this
      ensures user == None && token == None && storedToken == None
      ensures forall p :: !Allows(p)
    {
      user := None;
      token := None;
      storedToken := None;
    }
  }
}
