/**
 * The older session store (src/stores/user.ts): a store holding the signed-in
 * user, a loading flag and an error message, updated step by step by its
 * actions, which call the older API client.
 */
module LegacyStore {
  import opened Js
  import opened Browser
  import UserApi

  const LoginFallback := "Ошибка авторизации"
  const RegisterFallback := "Ошибка регистрации"
  const ProfileFallback := "Ошибка загрузки профиля"

  /** The message an action stores for a failure: the server's message when truthy, else the action's fallback. */
  function FailureMessage(e: Thrown, fallback: string): (m: string)
    ensures Truthy(ServerMessage(e)) ==> m == ServerMessage(e).value
    ensures !Truthy(ServerMessage(e)) ==> m == fallback
    ensures fallback != "" ==> m != ""
  {
    OrElse(ServerMessage(e), fallback)
  }

  class UserStore {
    var user: Option<User>
    var isLoading: bool
    var error: Option<string>

    constructor ()
      ensures user == None && !isLoading && error == None
      ensures !IsAuthenticated()
    {
      user := None;
      isLoading := false;
      error := None;
    }

    /** `isAuthenticated = !!user.value` */
    predicate IsAuthenticated()
      reads this
    {
      user.Some?
    }

    /**
     * `login(email, password)`: sends the login call, which settles with
     * `outcome`. Returns the call it sent and how the action settles.
     */
    method Login(w: Window, email: string, password: string, outcome: Settled<AuthResponse>)
      returns (sent: Request, r: Settled<()>)
      modifies this, w
      ensures sent == UserApi.LoginRequest(LoginData(email, password))
      ensures outcome.Resolved? ==>
        && r == Resolved(())
        && w.authToken == Some(outcome.value.accessToken)
        && user == Some(outcome.value.user)
        && error == None
      ensures outcome.Rejected? ==>
        && r == Rejected(outcome.error)
        && error == Some(FailureMessage(outcome.error, LoginFallback))
        && user == old(user)
        && w.authToken == old(w.authToken)
      ensures !isLoading
      ensures w.pathname == old(w.pathname) && w.href == old(w.href)
    {
      isLoading := true;
      error := None;
      sent := UserApi.LoginRequest(LoginData(email, password));
      match outcome {
        case Resolved(response) =>
          w.authToken := Some(response.accessToken);
          user := Some(response.user);
          r := Resolved(());
        case Rejected(err) =>
          error := Some(OrElse(ServerMessage(err), LoginFallback));
          r := Rejected(err);
      }
      isLoading := false;
    }

    /** `register(email, password, role)`: as `login`, with the register call and its fallback message. */
    method Register(w: Window, email: string, password: string, role: Role, outcome: Settled<AuthResponse>)
      returns (sent: Request, r: Settled<()>)
      modifies this, w
      ensures sent == UserApi.RegisterRequest(RegisterData(email, password, role))
      ensures outcome.Resolved? ==>
        && r == Resolved(())
        && w.authToken == Some(outcome.value.accessToken)
        && user == Some(outcome.value.user)
        && error == None
      ensures outcome.Rejected? ==>
        && r == Rejected(outcome.error)
        && error == Some(FailureMessage(outcome.error, RegisterFallback))
        && user == old(user)
        && w.authToken == old(w.authToken)
      ensures !isLoading
      ensures w.pathname == old(w.pathname) && w.href == old(w.href)
    {
      isLoading := true;
      error := None;
      sent := UserApi.RegisterRequest(RegisterData(email, password, role));
      match outcome {
        case Resolved(response) =>
          w.authToken := Some(response.accessToken);
          user := Some(response.user);
          r := Resolved(());
        case Rejected(err) =>
          error := Some(OrElse(ServerMessage(err), RegisterFallback));
          r := Rejected(err);
      }
      isLoading := false;
    }

    /**
     * `fetchProfile()`: on success the user is replaced; on failure the
     * error is set, the token removed and the failure rethrown, while the
     * previous user stays.
     */
    method FetchProfile(w: Window, outcome: Settled<User>) returns (sent: Request, r: Settled<()>)
      modifies this, w
      ensures sent == UserApi.ProfileRequest()
      ensures outcome.Resolved? ==>
        && r == Resolved(())
        && user == Some(outcome.value)
        && error == None
        && w.authToken == old(w.authToken)
      ensures outcome.Rejected? ==>
        && r == Rejected(outcome.error)
        && error == Some(FailureMessage(outcome.error, ProfileFallback))
        && user == old(user)
        && w.authToken == None
      ensures !isLoading
      ensures w.pathname == old(w.pathname) && w.href == old(w.href)
    {
      isLoading := true;
      error := None;
      sent := UserApi.ProfileRequest();
      match outcome {
        case Resolved(u) =>
          user := Some(u);
          r := Resolved(());
        case Rejected(err) =>
          error := Some(OrElse(ServerMessage(err), ProfileFallback));
          w.authToken := None;
          r := Rejected(err);
      }
      isLoading := false;
    }

    /** `logout()`: forgets the user and removes the token; error and loading flag stay. */
    method Logout(w: Window)
      modifies this, w
      ensures user == None && !IsAuthenticated()
      ensures w.authToken == None
      ensures error == old(error) && isLoading == old(isLoading)
      ensures w.pathname == old(w.pathname) && w.href == old(w.href)
    {
      user := None;
      w.authToken := None;
    }
  }

  /** Every failed action leaves a non-empty message behind, since every fallback is non-empty. */
  lemma FailureMessagesNonEmpty(e: Thrown)
    ensures FailureMessage(e, LoginFallback) != ""
    ensures FailureMessage(e, RegisterFallback) != ""
    ensures FailureMessage(e, ProfileFallback) != ""
  {
  }
}
