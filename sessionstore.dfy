/**
 * The newer session store (src/stores/user/index.ts): derived state over the
 * profile query and the login and register mutations, and actions that
 * delegate to the user query hooks of the API client.
 */
module SessionStore {
  import opened Js
  import opened Browser
  import opened QueryCache
  import UserModule

  /** `isLoading` and `error` of the profile query. */
  datatype ProfileQueryState = ProfileQueryState(isLoading: bool, error: Option<Thrown>)

  /** `isPending` and `error` of a mutation. */
  datatype MutationState = MutationState(isPending: bool, error: Option<Thrown>)

  /** What a profile refetch resolves with: the observer's `data` and `error`. */
  datatype RefetchResult = RefetchResult(data: Option<User>, error: Option<Thrown>)

  /** `isAuthenticated = !!user.value`, where `user` is the profile query's cached data. */
  predicate IsAuthenticated(qc: QueryClient)
    reads qc
  {
    qc.Data(UserModule.ProfileKey()).Some?
  }

  /** The combined loading flag: the profile query loads or either mutation is pending. */
  predicate IsLoading(profile: ProfileQueryState, login: MutationState, register: MutationState)
  {
    profile.isLoading || login.isPending || register.isPending
  }

  /** The combined error: `profileError?.message || login.error?.message || register.error?.message || null`. */
  function Error(profile: ProfileQueryState, login: MutationState, register: MutationState): Option<string>
  {
    var p, l, g := MessageField(profile.error), MessageField(login.error), MessageField(register.error);
    if Truthy(p) then p
    else if Truthy(l) then l
    else if Truthy(g) then g
    else None
  }

  /** The `||` chain is the first truthy message of the three, in order. */
  lemma ErrorIsFirstTruthy(profile: ProfileQueryState, login: MutationState, register: MutationState)
    ensures Error(profile, login, register) ==
      FirstTruthy([MessageField(profile.error), MessageField(login.error), MessageField(register.error)])
  {
    var ms := [MessageField(profile.error), MessageField(login.error), MessageField(register.error)];
    assert ms[1..] == ms[1..2] + [ms[2]];
    assert FirstTruthy(ms[1..][1..]) == if Truthy(ms[2]) then ms[2] else FirstTruthy([]) by {
      assert ms[1..][1..] == [ms[2]];
    }
  }

  /** The combined error is null exactly when no message is truthy, and otherwise the first truthy one, profile first. */
  lemma ErrorPrecedence(profile: ProfileQueryState, login: MutationState, register: MutationState)
    ensures Error(profile, login, register).Some? ==> Truthy(Error(profile, login, register))
    ensures Error(profile, login, register).None? <==>
      !Truthy(MessageField(profile.error)) && !Truthy(MessageField(login.error)) && !Truthy(MessageField(register.error))
    ensures Truthy(MessageField(profile.error)) ==> Error(profile, login, register) == MessageField(profile.error)
  {
    var ms := [MessageField(profile.error), MessageField(login.error), MessageField(register.error)];
    ErrorIsFirstTruthy(profile, login, register);
    FirstTruthyIsFirst(ms);
  }

  /** `login(payload)`: the login mutation's result is returned, or its rejection propagated, unchanged. */
  method Login(w: Window, qc: QueryClient, payload: LoginData, outcome: Settled<AuthResponse>)
    returns (sent: Request, r: Settled<AuthResponse>)
    modifies w, qc
    ensures sent == UserModule.LoginRequest(payload)
    ensures r == outcome
    ensures outcome.Resolved? ==> IsAuthenticated(qc) && qc.Data(UserModule.ProfileKey()) == Some(outcome.value.user)
    ensures outcome.Resolved? ==> w.authToken == Some(outcome.value.accessToken)
    ensures outcome.Resolved? ==>
      qc.cache == Invalidated(old(qc.cache)[UserModule.ProfileKey() := Entry(Some(outcome.value.user), false)],
                              UserModule.AllKey)
    ensures outcome.Rejected? ==> !IsAuthenticated(qc) && w.authToken == None
    ensures outcome.Rejected? ==> qc.cache == old(qc.cache)[UserModule.ProfileKey() := Entry(None, false)]
    ensures w.pathname == old(w.pathname) && w.href == old(w.href)
  {
    sent := UserModule.LoginRequest(payload);
    r := UserModule.Login(w, qc, outcome);
  }

  /** `register(payload)`: as `login`, with the register mutation. */
  method Register(w: Window, qc: QueryClient, payload: RegisterData, outcome: Settled<AuthResponse>)
    returns (sent: Request, r: Settled<AuthResponse>)
    modifies w, qc
    ensures sent == UserModule.RegisterRequest(payload)
    ensures r == outcome
    ensures outcome.Resolved? ==> IsAuthenticated(qc) && qc.Data(UserModule.ProfileKey()) == Some(outcome.value.user)
    ensures outcome.Resolved? ==> w.authToken == Some(outcome.value.accessToken)
    ensures outcome.Resolved? ==>
      qc.cache == Invalidated(old(qc.cache)[UserModule.ProfileKey() := Entry(Some(outcome.value.user), false)],
                              UserModule.AllKey)
    ensures outcome.Rejected? ==> !IsAuthenticated(qc) && w.authToken == None
    ensures outcome.Rejected? ==> qc.cache == old(qc.cache)[UserModule.ProfileKey() := Entry(None, false)]
    ensures w.pathname == old(w.pathname) && w.href == old(w.href)
  {
    sent := UserModule.RegisterRequest(payload);
    r := UserModule.Register(w, qc, outcome);
  }

  /**
   * `logout()`: fires the logout mutation without awaiting it. The state
   * given here is the one after the mutation and its success handler have
   * run: no one is signed in, every user query is gone and the others stay.
   */
  method Logout(w: Window, qc: QueryClient)
    modifies w, qc
    ensures !IsAuthenticated(qc) && w.authToken == None
    ensures qc.cache == Removed(old(qc.cache)[UserModule.ProfileKey() := Entry(None, false)], UserModule.AllKey)
    ensures forall k :: k in old(qc.cache) && !Matches(UserModule.AllKey, k) ==> k in qc.cache && qc.cache[k] == old(qc.cache)[k]
    ensures w.pathname == old(w.pathname) && w.href == old(w.href)
  {
    UserModule.Logout(w, qc);
  }

  /** `refetchProfile()`: resolves with the refetch result's `data`, or propagates its rejection. */
  function RefetchProfile(refetched: Settled<RefetchResult>): Settled<Option<User>>
  {
    match refetched
    case Resolved(result) => Resolved(result.data)
    case Rejected(e) => Rejected(e)
  }
}
