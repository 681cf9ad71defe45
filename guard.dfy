/**
 * The navigation guard consulted before every route change
 * (src/router/guards/loadUserProfile.ts) and the route table it runs over.
 * The guard's choice of `next` target is a pure decision; its one effect is
 * removing the stored token after a failed profile refetch.
 */
module RouteGuard {
  import opened Js
  import opened Browser
  import SessionStore

  /** A route name as vue-router gives it: a string, a symbol, or undefined. */
  datatype RouteName = NamedRoute(name: string) | SymbolName | NoName

  const Home := "home"
  const Login := "login"
  const Register := "register"

  /** A route record: its path, its name, and `meta.requiresAuth` (false when absent). */
  datatype RouteRecord = RouteRecord(path: string, name: RouteName, requiresAuth: bool)

  /** The application's routes: `/` is protected, `/login` and `/register` are not. */
  const Routes: seq<RouteRecord> := [
    RouteRecord("/", NamedRoute(Home), true),
    RouteRecord("/login", NamedRoute(Login), false),
    RouteRecord("/register", NamedRoute(Register), false)
  ]

  /** The routes a signed-in user is sent away from. */
  predicate IsAuthRoute(n: RouteName)
  {
    n == NamedRoute(Login) || n == NamedRoute(Register)
  }

  /** What the guard passes to `next`: no argument, or a path to redirect to. */
  datatype Next = Proceed | RedirectTo(path: string)

  /** The guard's decision, whether it awaited a refetch, and whether it removes the token. */
  datatype GuardOutcome = GuardOutcome(next: Next, refetched: bool, removesToken: bool)

  /**
   * The decision tree of the guard. `refetchSucceeds` is what awaiting
   * `refetchProfile()` would do; it matters only on the paths that await it.
   */
  function Decide(requiresAuth: bool, name: RouteName, token: Option<string>, user: Option<User>,
                  refetchSucceeds: bool): (o: GuardOutcome)
    ensures o.next == Proceed || o.next == RedirectTo("/login") || o.next == RedirectTo("/")
    ensures o.refetched <==> (requiresAuth || IsAuthRoute(name)) && Truthy(token) && user.None?
    ensures o.removesToken <==> o.refetched && !refetchSucceeds
    ensures o.next == RedirectTo("/") ==> !requiresAuth && IsAuthRoute(name) && Truthy(token)
    ensures o.next == RedirectTo("/login") ==> requiresAuth
  {
    if requiresAuth then
      if Truthy(token) then
        if user.None? then
          if refetchSucceeds then GuardOutcome(Proceed, true, false)
          else GuardOutcome(RedirectTo("/login"), true, true)
        else GuardOutcome(Proceed, false, false)
      else GuardOutcome(RedirectTo("/login"), false, false)
    else if IsAuthRoute(name) then
      if Truthy(token) then
        if user.None? then
          if refetchSucceeds then GuardOutcome(RedirectTo("/"), true, false)
          else GuardOutcome(Proceed, true, true)
        else GuardOutcome(RedirectTo("/"), false, false)
      else GuardOutcome(Proceed, false, false)
    else GuardOutcome(Proceed, false, false)
  }

  /**
   * The guard itself: reads the token, decides, and removes the token after
   * a failed refetch. It returns the one argument it passes to `next`.
   * `refetch` is what the store's profile refetch settles with when awaited;
   * the guard only asks whether `refetchProfile()` rejected.
   */
  method LoadUserProfile(w: Window, to: RouteRecord, user: Option<User>, refetch: Settled<SessionStore.RefetchResult>)
    returns (next: Next, refetched: bool)
    modifies w
    ensures var o := Decide(to.requiresAuth, to.name, old(w.authToken), user,
                            SessionStore.RefetchProfile(refetch).Resolved?);
      next == o.next && refetched == o.refetched &&
      w.authToken == (if o.removesToken then None else old(w.authToken))
    ensures w.pathname == old(w.pathname) && w.href == old(w.href)
  {
    var token := w.authToken;
    refetched := false;
    if to.requiresAuth {
      if Truthy(token) {
        if user.None? {
          refetched := true;
          var awaited := SessionStore.RefetchProfile(refetch);
          if awaited.Resolved? {
            next := Proceed;
          } else {
            w.authToken := None;
            next := RedirectTo("/login");
          }
        } else {
          next := Proceed;
        }
      } else {
        next := RedirectTo("/login");
      }
    } else {
      if IsAuthRoute(to.name) {
        if Truthy(token) {
          if user.None? {
            refetched := true;
            var awaited := SessionStore.RefetchProfile(refetch);
            if awaited.Resolved? {
              next := RedirectTo("/");
            } else {
              w.authToken := None;
              next := Proceed;
            }
          } else {
            next := RedirectTo("/");
          }
        } else {
          next := Proceed;
        }
      } else {
        next := Proceed;
      }
    }
  }

  /**
   * The guard never looks at what the refetch resolves with: a refetch that
   * resolves without a user, even with the query's error, counts as success.
   */
  lemma RefetchDataIgnored(name: RouteName, token: Option<string>, r: SessionStore.RefetchResult)
    requires Truthy(token)
    ensures Decide(true, name, token, None, SessionStore.RefetchProfile(Resolved(r)).Resolved?) ==
      GuardOutcome(Proceed, true, false)
    ensures IsAuthRoute(name) ==>
      Decide(false, name, token, None, SessionStore.RefetchProfile(Resolved(r)).Resolved?) ==
      GuardOutcome(RedirectTo("/"), true, false)
  {
  }

  /** Only a rejected refetch signs the visitor out: the token is removed and a protected route goes to /login. */
  lemma RejectedRefetchSignsOut(name: RouteName, token: Option<string>, e: Thrown)
    requires Truthy(token)
    ensures Decide(true, name, token, None, SessionStore.RefetchProfile(Rejected(e)).Resolved?) ==
      GuardOutcome(RedirectTo("/login"), true, true)
    ensures IsAuthRoute(name) ==>
      Decide(false, name, token, None, SessionStore.RefetchProfile(Rejected(e)).Resolved?) ==
      GuardOutcome(Proceed, true, true)
  {
  }

  /** isAuthRoute is true exactly for the names `login` and `register`, whatever else the name is. */
  lemma AuthRouteNames(n: RouteName)
    ensures IsAuthRoute(n) <==> n.NamedRoute? && (n.name == "login" || n.name == "register")
    ensures !IsAuthRoute(NamedRoute(Home)) && !IsAuthRoute(NamedRoute("logout"))
  {
  }

  /** In the route table, a route is an auth route exactly when it does not require authentication. */
  lemma RouteTableShape()
    ensures forall r :: r in Routes ==> (IsAuthRoute(r.name) <==> !r.requiresAuth)
    ensures forall r :: r in Routes ==> (r.requiresAuth <==> r.path == "/")
  {
  }

  /** A protected route without a (truthy) token goes to /login, without a refetch, keeping the token. */
  lemma ProtectedWithoutToken(name: RouteName, token: Option<string>, user: Option<User>, ok: bool)
    requires !Truthy(token)
    ensures Decide(true, name, token, user, ok) == GuardOutcome(RedirectTo("/login"), false, false)
  {
  }

  /** A protected route with a token and a loaded user is entered without a refetch. */
  lemma ProtectedWithUser(name: RouteName, token: Option<string>, user: Option<User>, ok: bool)
    requires Truthy(token) && user.Some?
    ensures Decide(true, name, token, user, ok) == GuardOutcome(Proceed, false, false)
  {
  }

  /** A protected route with a token and no user: refetch success enters, failure removes the token and goes to /login. */
  lemma ProtectedNeedsRefetch(name: RouteName, token: Option<string>, ok: bool)
    requires Truthy(token)
    ensures Decide(true, name, token, None, ok) ==
      if ok then GuardOutcome(Proceed, true, false) else GuardOutcome(RedirectTo("/login"), true, true)
  {
  }

  /** An auth route with a token goes to / when a user is loaded or the refetch succeeds; a failed refetch removes the token and enters. */
  lemma AuthRouteWithToken(name: RouteName, token: Option<string>, user: Option<User>, ok: bool)
    requires IsAuthRoute(name) && Truthy(token)
    ensures user.Some? ==> Decide(false, name, token, user, ok) == GuardOutcome(RedirectTo("/"), false, false)
    ensures user.None? ==> (Decide(false, name, token, user, ok) ==
      if ok then GuardOutcome(RedirectTo("/"), true, false) else GuardOutcome(Proceed, true, true))
  {
  }

  /** An auth route without a token, or an unprotected non-auth route, is entered with no effect. */
  lemma OpenRoutes(name: RouteName, token: Option<string>, user: Option<User>, ok: bool)
    requires !IsAuthRoute(name) || !Truthy(token)
    ensures Decide(false, name, token, user, ok) == GuardOutcome(Proceed, false, false)
  {
  }

  /** With no token stored (after a logout), every route of the table needing authentication redirects to /login. */
  lemma LoggedOutNavigation(user: Option<User>, ok: bool)
    ensures forall r :: r in Routes && r.requiresAuth ==>
      Decide(r.requiresAuth, r.name, None, user, ok).next == RedirectTo("/login")
    ensures forall r :: r in Routes && !r.requiresAuth ==>
      Decide(r.requiresAuth, r.name, None, user, ok) == GuardOutcome(Proceed, false, false)
  {
  }
}
