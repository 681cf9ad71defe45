/**
 * The user query hooks of the API client (src/api/modules/user/index.ts):
 * the query keys, when the profile query may run and be retried, and what
 * the login, register and logout mutations do to the stored token and to
 * the query cache.
 */
module UserModule {
  import opened Js
  import opened Browser
  import opened QueryCache
  import RedirectInterceptor

  const BaseUrl := "/auth"

  /** `userKeys.all` */
  const AllKey: QueryKey := ["user"]

  /** `userKeys.profile()`: the `all` key extended by 'profile'. */
  function ProfileKey(): (k: QueryKey)
    ensures k == ["user", "profile"]
    ensures Matches(AllKey, k)
  {
    AllKey + ["profile"]
  }

  /**
   * `enabled: !!localStorage.getItem('auth_token')`, a plain boolean taken
   * once, from the token stored when the hook is set up.
   */
  predicate ProfileQueryEnabled(token: Option<string>)
  {
    Truthy(token)
  }

  /** The retry option of the profile query. */
  function ShouldRetry(failureCount: int, error: Option<Thrown>): (r: bool)
    ensures error.Some? && StatusOf(error.value) == Some(401) ==> !r
    ensures r ==> failureCount < 1
  {
    if error.Some? && StatusOf(error.value) == Some(401) then false
    else failureCount < 1
  }

  /** No retry after a 401, whatever the failure count; otherwise exactly the first failure is retried. */
  lemma RetryPolicy(failureCount: nat, error: Option<Thrown>)
    ensures ShouldRetry(failureCount, error) <==>
      failureCount == 0 && !(error.Some? && StatusOf(error.value) == Some(401))
  {
  }

  /** A 500 on the first attempt is retried once, and never a second time. */
  lemma RetriedOnceOnServerError(e: Thrown)
    requires StatusOf(e) == Some(500)
    ensures ShouldRetry(0, Some(e)) && !ShouldRetry(1, Some(e))
  {
  }

  /** `login`: POST `${BASE_URL}/login`. */
  function LoginRequest(d: LoginData): (r: Request)
    ensures r == Post("/auth/login", LoginBody(d))
  {
    assert BaseUrl + "/login" == "/auth/login" by { assert (BaseUrl + "/login")[..|BaseUrl|] == BaseUrl; }
    Post(BaseUrl + "/login", LoginBody(d))
  }

  /** `register`: POST `${BASE_URL}/register`. */
  function RegisterRequest(d: RegisterData): (r: Request)
    ensures r == Post("/auth/register", RegisterBody(d))
  {
    assert BaseUrl + "/register" == "/auth/register" by { assert (BaseUrl + "/register")[..|BaseUrl|] == BaseUrl; }
    Post(BaseUrl + "/register", RegisterBody(d))
  }

  /** `getProfile`: GET `${BASE_URL}/profile`. */
  function ProfileRequest(): (r: Request)
    ensures r == Get("/auth/profile")
  {
    assert BaseUrl + "/profile" == "/auth/profile" by { assert (BaseUrl + "/profile")[..|BaseUrl|] == BaseUrl; }
    Get(BaseUrl + "/profile")
  }

  /** The redirect interceptor exempts the login and register calls but not the profile call. */
  lemma EndpointsAgainstExemption(l: LoginData, r: RegisterData)
    ensures RedirectInterceptor.IsAuthUrl(Some(LoginRequest(l).path))
    ensures RedirectInterceptor.IsAuthUrl(Some(RegisterRequest(r).path))
    ensures !RedirectInterceptor.IsAuthUrl(Some(ProfileRequest().path))
  {
    var p := "/auth/profile";
    assert !StartsWith(p, "/auth/login") by { assert p[6] != "/auth/login"[6]; }
    assert !StartsWith(p[1..], "/auth/login") by { assert p[1..][0] != '/'; }
    assert !StartsWith(p[2..], "/auth/login") by { assert p[2..][0] != '/'; }
    assert !Includes(p[3..], "/auth/login");
  }

  /**
   * `useLogin().mutateAsync`: the awaited login call settles with `outcome`;
   * on success the token and the profile entry are written and every user
   * query is invalidated, on failure the token is removed and the profile
   * entry set to null; the outcome is passed on unchanged.
   */
  method Login(w: Window, qc: QueryClient, outcome: Settled<AuthResponse>) returns (r: Settled<AuthResponse>)
    modifies w, qc
    ensures r == outcome
    ensures outcome.Resolved? ==>
      && w.authToken == Some(outcome.value.accessToken)
      && qc.cache == Invalidated(old(qc.cache)[ProfileKey() := Entry(Some(outcome.value.user), false)], AllKey)
    ensures outcome.Rejected? ==>
      && w.authToken == None
      && qc.cache == old(qc.cache)[ProfileKey() := Entry(None, false)]
    ensures w.pathname == old(w.pathname) && w.href == old(w.href)
  {
    match outcome {
      case Resolved(data) =>
        w.authToken := Some(data.accessToken);
        qc.SetQueryData(ProfileKey(), Some(data.user));
        qc.InvalidateQueries(AllKey);
      case Rejected(_) =>
        w.authToken := None;
        qc.SetQueryData(ProfileKey(), None);
    }
    r := outcome;
  }

  /** `useRegister().mutateAsync`: the same effects as a login. */
  method Register(w: Window, qc: QueryClient, outcome: Settled<AuthResponse>) returns (r: Settled<AuthResponse>)
    modifies w, qc
    ensures r == outcome
    ensures outcome.Resolved? ==>
      && w.authToken == Some(outcome.value.accessToken)
      && qc.cache == Invalidated(old(qc.cache)[ProfileKey() := Entry(Some(outcome.value.user), false)], AllKey)
    ensures outcome.Rejected? ==>
      && w.authToken == None
      && qc.cache == old(qc.cache)[ProfileKey() := Entry(None, false)]
    ensures w.pathname == old(w.pathname) && w.href == old(w.href)
  {
    match outcome {
      case Resolved(data) =>
        w.authToken := Some(data.accessToken);
        qc.SetQueryData(ProfileKey(), Some(data.user));
        qc.InvalidateQueries(AllKey);
      case Rejected(_) =>
        w.authToken := None;
        qc.SetQueryData(ProfileKey(), None);
    }
    r := outcome;
  }

  /**
   * `useLogout().mutate`: the mutation function removes the token (it cannot
   * fail), then the profile entry is set to null and every user query removed.
   */
  method Logout(w: Window, qc: QueryClient)
    modifies w, qc
    ensures w.authToken == None
    ensures qc.cache == Removed(old(qc.cache)[ProfileKey() := Entry(None, false)], AllKey)
    ensures w.pathname == old(w.pathname) && w.href == old(w.href)
  {
    w.authToken := None;
    qc.SetQueryData(ProfileKey(), None);
    qc.RemoveQueries(AllKey);
  }

  /** After a successful login the cached profile is exactly the returned user, and it is marked for refetch. */
  lemma LoginSeedsProfile(c: map<QueryKey, Entry>, u: User)
    ensures var c' := Invalidated(c[ProfileKey() := Entry(Some(u), false)], AllKey);
      ProfileKey() in c' && c'[ProfileKey()] == Entry(Some(u), true)
  {
  }

  /** After a logout no user query is cached, so the profile reads as absent; other queries are untouched. */
  lemma LogoutDropsUserQueries(c: map<QueryKey, Entry>)
    ensures var c' := Removed(c[ProfileKey() := Entry(None, false)], AllKey);
      && ProfileKey() !in c'
      && (forall k :: k in c' ==> !Matches(AllKey, k))
      && (forall k :: k in c && !Matches(AllKey, k) ==> k in c' && c'[k] == c[k])
  {
  }
}
