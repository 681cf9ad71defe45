/**
 * The older user query hooks (src/api/user/userQueries.ts), kept beside the
 * newer ones. They repeat the keys, the retry rule and the mutation effects.
 * Their client, `./userApi` beside them (src/api/user/userApi.ts), is not
 * part of this model. Its endpoint paths are assumed to be those of the
 * older client src/api/userApi.ts, which stands in for it.
 */
module UserQueries {
  import opened Js
  import opened Browser
  import opened QueryCache
  import UserApi
  import UserModule

  /** `userKeys.all` */
  const AllKey: QueryKey := ["user"]

  /** `userKeys.profile()` */
  function ProfileKey(): (k: QueryKey)
    ensures k == ["user", "profile"]
    ensures Matches(AllKey, k)
  {
    AllKey + ["profile"]
  }

  /**
   * `enabled: !!localStorage.getItem('auth_token')`, a plain boolean taken
   * once, from the token stored when the hook is set up.
   */
  predicate ProfileQueryEnabled(token: Option<string>)
  {
    Truthy(token)
  }

  /** The retry option of the profile query. */
  function ShouldRetry(failureCount: int, error: Option<Thrown>): (r: bool)
    ensures error.Some? && StatusOf(error.value) == Some(401) ==> !r
    ensures r ==> failureCount < 1
  {
    if error.Some? && StatusOf(error.value) == Some(401) then false
    else failureCount < 1
  }

  /** The two copies use the same keys and the same retry and enabling rules. */
  lemma AgreesWithUserModule(failureCount: int, error: Option<Thrown>, token: Option<string>)
    ensures AllKey == UserModule.AllKey && ProfileKey() == UserModule.ProfileKey()
    ensures ShouldRetry(failureCount, error) == UserModule.ShouldRetry(failureCount, error)
    ensures ProfileQueryEnabled(token) == UserModule.ProfileQueryEnabled(token)
  {
  }

  /** The profile query calls the profile endpoint of the stand-in client. */
  function ProfileQueryRequest(): (r: Request)
    ensures r == Get("/auth/profile")
  {
    UserApi.ProfileRequest()
  }

  /** `useLogin().mutateAsync` */
  method Login(w: Window, qc: QueryClient, outcome: Settled<AuthResponse>) returns (r: Settled<AuthResponse>)
    modifies w, qc
    ensures r == outcome
    ensures outcome.Resolved? ==>
      && w.authToken == Some(outcome.value.accessToken)
      && qc.cache == Invalidated(old(qc.cache)[ProfileKey() := Entry(Some(outcome.value.user), false)], AllKey)
    ensures outcome.Rejected? ==>
      && w.authToken == None
      && qc.cache == old(qc.cache)[ProfileKey() := Entry(None, false)]
    ensures w.pathname == old(w.pathname) && w.href == old(w.href)
  {
    match outcome {
      case Resolved(data) =>
        w.authToken := Some(data.accessToken);
        qc.SetQueryData(ProfileKey(), Some(data.user));
        qc.InvalidateQueries(AllKey);
      case Rejected(_) =>
        w.authToken := None;
        qc.SetQueryData(ProfileKey(), None);
    }
    r := outcome;
  }

  /** `useRegister().mutateAsync` */
  method Register(w: Window, qc: QueryClient, outcome: Settled<AuthResponse>) returns (r: Settled<AuthResponse>)
    modifies w, qc
    ensures r == outcome
    ensures outcome.Resolved? ==>
      && w.authToken == Some(outcome.value.accessToken)
      && qc.cache == Invalidated(old(qc.cache)[ProfileKey() := Entry(Some(outcome.value.user), false)], AllKey)
    ensures outcome.Rejected? ==>
      && w.authToken == None
      && qc.cache == old(qc.cache)[ProfileKey() := Entry(None, false)]
    ensures w.pathname == old(w.pathname) && w.href == old(w.href)
  {
    match outcome {
      case Resolved(data) =>
        w.authToken := Some(data.accessToken);
        qc.SetQueryData(ProfileKey(), Some(data.user));
        qc.InvalidateQueries(AllKey);
      case Rejected(_) =>
        w.authToken := None;
        qc.SetQueryData(ProfileKey(), None);
    }
    r := outcome;
  }

  /** `useLogout().mutate` */
  method Logout(w: Window, qc: QueryClient)
    modifies w, qc
    ensures w.authToken == None
    ensures qc.cache == Removed(old(qc.cache)[ProfileKey() := Entry(None, false)], AllKey)
    ensures w.pathname == old(w.pathname) && w.href == old(w.href)
  {
    w.authToken := None;
    qc.SetQueryData(ProfileKey(), None);
    qc.RemoveQueries(AllKey);
  }
}
