/**
 * The route guard src/components/ProtectedRoute.tsx: checkAuth's sequence of
 * checks (logged in, token accepted by the server, admin when required),
 * the state it leaves behind, and what the component renders from that
 * state. The server's answer to the token check reaches this logic as an input.
 */
module ProtectedRoute {
  import opened Wrappers
  import Auth

  /** The answer of a local check: isAuthenticated() or isAdmin() may also throw (a stored user that is not valid JSON). */
  datatype Answer = Yes | No | Throws

  function AnswerOf(b: bool): Answer {
    if b then Yes else No
  }

  /** Where checkAuth ends: a route pushed, or the children authorised. */
  datatype GuardDecision = Redirect(path: string) | Authorize

  const DefaultFallbackPath := "/login"
  const UnauthorizedPath := "/unauthorized"

  /**
   * The decision of checkAuth: not logged in, a rejected token or a thrown
   * error go to the fallback path; a logged-in non-admin on an admin route
   * goes to '/unauthorized'; everything else is authorised. isAdmin is only
   * asked when the route requires an admin.
   */
  function Decide(authenticated: Answer, tokenValid: bool, requireAdmin: bool, admin: Answer, fallbackPath: string): (d: GuardDecision)
    ensures d == Authorize <==> authenticated == Yes && tokenValid && (requireAdmin ==> admin == Yes)
    ensures authenticated == Yes && tokenValid && requireAdmin && admin == No ==> d == Redirect(UnauthorizedPath)
    ensures d.Redirect? && !(authenticated == Yes && tokenValid && requireAdmin && admin == No) ==> d.path == fallbackPath
    ensures authenticated != Yes || !tokenValid ==> d == Redirect(fallbackPath)
  {
    match authenticated
    case Throws => Redirect(fallbackPath)
    case No => Redirect(fallbackPath)
    case Yes =>
      if !tokenValid then Redirect(fallbackPath)
      else if requireAdmin then
        match admin
        case Throws => Redirect(fallbackPath)
        case No => Redirect(UnauthorizedPath)
        case Yes => Authorize
      else Authorize
  }

  /** A visitor who is not logged in is sent away whatever the server would have said: the token is not checked. */
  lemma UnauthenticatedIgnoresToken(requireAdmin: bool, admin: Answer, fallbackPath: string, t1: bool, t2: bool)
    ensures Decide(No, t1, requireAdmin, admin, fallbackPath) == Decide(No, t2, requireAdmin, admin, fallbackPath)
    ensures Decide(No, t1, requireAdmin, admin, fallbackPath) == Redirect(fallbackPath)
  {
  }

  /** After logout (or a 401) the guard sends every visitor to the fallback path. */
  lemma ClearedSessionIsRedirected(st: Auth.Storage, tokenValid: bool, requireAdmin: bool, fallbackPath: string)
    ensures Decide(AnswerOf(Auth.AuthenticatedIn(Auth.WithoutAuthData(st))), tokenValid, requireAdmin,
                   AnswerOf(Auth.AdminIn(Auth.WithoutAuthData(st))), fallbackPath) == Redirect(fallbackPath)
  {
  }

  /**
   * Right after a login has stored tokens and a user, and with the server
   * accepting the token, the guard authorises exactly when the access token
   * is non-empty and, on an admin route, the user's role is 'admin'.
   */
  lemma LoggedInSessionIsAuthorized(st: Auth.Storage, accessToken: string, refreshToken: string, user: Auth.User,
                                    requireAdmin: bool, fallbackPath: string)
    ensures var st' := Auth.WithAuthData(st, accessToken, refreshToken, user);
      Decide(AnswerOf(Auth.AuthenticatedIn(st')), true, requireAdmin, AnswerOf(Auth.AdminIn(st')), fallbackPath) == Authorize
      <==> accessToken != [] && (requireAdmin ==> user.role == "admin")
  {
    Auth.SetThenPredicates(st, accessToken, refreshToken, user);
  }

  /** What the component renders: the spinner while checking, nothing when a redirect is under way, or the children. */
  datatype View = Spinner | Nothing | Children

  /** The guard's props and React state, with the routes it has pushed. */
  class RouteGuard {
    const requireAdmin: bool
    const fallbackPath: string
    var isLoading: bool
    var isAuthorized: bool
    /** The routes handed to router.push, oldest first. */
    var pushed: seq<string>
    /** How many times the token was sent to the server for verification. */
    var verifyRequests: nat

    /** The props, with requireAdmin defaulting to false and fallbackPath to '/login'; the state starts loading and unauthorised. */
    constructor(requireAdmin: Option<bool>, fallbackPath: Option<string>)
      ensures this.requireAdmin == (requireAdmin.Some? && requireAdmin.value)
      ensures this.fallbackPath == if fallbackPath.Some? then fallbackPath.value else DefaultFallbackPath
      ensures isLoading && !isAuthorized && pushed == [] && verifyRequests == 0
    {
      this.requireAdmin := requireAdmin.Some? && requireAdmin.value;
      this.fallbackPath := if fallbackPath.Some? then fallbackPath.value else DefaultFallbackPath;
      isLoading := true;
      isAuthorized := false;
      pushed := [];
      verifyRequests := 0;
    }

    /** The render choice. */
    function Render(): (v: View)
      reads this
      ensures v == Children <==> !isLoading && isAuthorized
      ensures v == Spinner <==> isLoading
    {
      if isLoading then Spinner
      else if !isAuthorized then Nothing
      else Children
    }

    /**
     * checkAuth: the checks in order, each failure pushing its route; the
     * token goes to the server only for a logged-in visitor; loading ends
     * on every path.
     */
    method CheckAuth(authenticated: Answer, tokenValid: bool, admin: Answer)
      modifies this
      ensures !isLoading
      ensures isAuthorized == (old(isAuthorized) || Decide(authenticated, tokenValid, requireAdmin, admin, fallbackPath) == Authorize)
      ensures pushed == old(pushed) +
        match Decide(authenticated, tokenValid, requireAdmin, admin, fallbackPath)
        case Redirect(path) => [path]
        case Authorize => []
      ensures verifyRequests == old(verifyRequests) + (if authenticated == Yes then 1 else 0)
      ensures !old(isAuthorized) ==>
        (Render() == Children <==> Decide(authenticated, tokenValid, requireAdmin, admin, fallbackPath) == Authorize)
    {
      if authenticated != Yes {
        // not logged in, or isAuthenticated threw and the catch redirects
        pushed := pushed + [fallbackPath];
      } else {
        verifyRequests := verifyRequests + 1;
        if !tokenValid {
          pushed := pushed + [fallbackPath];
        } else if requireAdmin && admin == No {
          pushed := pushed + [UnauthorizedPath];
        } else if requireAdmin && admin == Throws {
          pushed := pushed + [fallbackPath];
        } else {
          isAuthorized := true;
        }
      }
      isLoading := false;
    }
  }
}
