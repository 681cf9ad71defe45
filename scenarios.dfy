/**
 * Whole sessions through several parts of the front end at once: signing in
 * and navigating, signing out and navigating, and an expired session whose
 * profile requests fail with 401.
 */
module Scenarios {
  import opened Js
  import opened Browser
  import opened QueryCache
  import RouteGuard
  import RedirectInterceptor
  import SessionStore
  import UserModule

  /**
   * On the login page with nothing stored, a successful sign-in leaves the
   * user authenticated; the guard then lets the home route in and sends the
   * login route to /, neither time refetching the profile.
   */
  method SignInThenNavigate(token: string, u: User, password: string)
    returns (authenticated: bool, toHome: RouteGuard.Next, toLogin: RouteGuard.Next, refetches: nat)
    requires token != ""
    ensures authenticated
    ensures toHome == RouteGuard.Proceed && toLogin == RouteGuard.RedirectTo("/")
    ensures refetches == 0
  {
    var w := new Window(None, "/login");
    var qc := new QueryClient();
    var _, _ := SessionStore.Login(w, qc, LoginData(u.email, password), Resolved(AuthResponse(token, u)));
    authenticated := SessionStore.IsAuthenticated(qc);
    var r1 := RouteGuard.Routes[0];
    var r2 := RouteGuard.Routes[1];
    var f1, f2;
    toHome, f1 := RouteGuard.LoadUserProfile(w, r1, qc.Data(UserModule.ProfileKey()), Rejected(OtherValue));
    toLogin, f2 := RouteGuard.LoadUserProfile(w, r2, qc.Data(UserModule.ProfileKey()), Rejected(OtherValue));
    refetches := (if f1 then 1 else 0) + (if f2 then 1 else 0);
  }

  /**
   * A signed-in session that signs out: afterwards nobody is authenticated,
   * the home route redirects to /login and the register route is entered.
   */
  method SignOutThenNavigate(token: string, u: User, password: string)
    returns (authenticated: bool, toHome: RouteGuard.Next, toRegister: RouteGuard.Next)
    requires token != ""
    ensures !authenticated
    ensures toHome == RouteGuard.RedirectTo("/login") && toRegister == RouteGuard.Proceed
  {
    var w := new Window(None, "/");
    var qc := new QueryClient();
    var _, _ := SessionStore.Login(w, qc, LoginData(u.email, password), Resolved(AuthResponse(token, u)));
    SessionStore.Logout(w, qc);
    authenticated := SessionStore.IsAuthenticated(qc);
    var f1, f2;
    var refetch := Resolved(SessionStore.RefetchResult(None, None));
    toHome, f1 := RouteGuard.LoadUserProfile(w, RouteGuard.Routes[0], qc.Data(UserModule.ProfileKey()), refetch);
    toRegister, f2 := RouteGuard.LoadUserProfile(w, RouteGuard.Routes[2], qc.Data(UserModule.ProfileKey()), refetch);
  }

  /**
   * A stored token the server no longer accepts: on the home page, two 401s
   * from the profile endpoint are both resolved with `undefined`; the first
   * removes the token and sends the browser to /login, the second finds the
   * latch closed, so exactly one redirect happens.
   */
  method ExpiredSession(token: string, message: string)
    returns (first: RedirectInterceptor.HandlerResult, second: RedirectInterceptor.HandlerResult,
             redirects: nat, stored: Option<string>, location: Option<string>)
    ensures first == RedirectInterceptor.ReturnedUndefined && second == RedirectInterceptor.ReturnedUndefined
    ensures redirects == 1
    ensures stored == None && location == Some("/login")
  {
    var w := new Window(Some(token), "/");
    var interceptor := new RedirectInterceptor.Interceptor();
    var e := AxiosFailure(Some(HttpResponse(401, None)), Some(UserModule.ProfileRequest().path), message);
    UserModule.EndpointsAgainstExemption(LoginData("", ""), RegisterData("", "", Student));
    assert RedirectInterceptor.OnPage("/", [e, e]) == [("/", e), ("/", e)];
    var results;
    results, redirects := interceptor.HandleAll(w, [e, e]);
    first, second := results[0], results[1];
    stored := w.authToken;
    location := w.href;
  }
}
