/**
 * The older API client (src/api/userApi.ts): its own request interceptor,
 * a response interceptor that treats every 401 alike, and the three
 * endpoint calls.
 */
module UserApi {
  import opened Js
  import opened Browser
  import opened AuthHeader

  const BaseUrl := "/auth"

  /** `userApi.login`: POST `${BASE_URL}/login` with the credentials. */
  function LoginRequest(d: LoginData): (r: Request)
    ensures r == Post("/auth/login", LoginBody(d))
  {
    assert BaseUrl + "/login" == "/auth/login" by { assert (BaseUrl + "/login")[..|BaseUrl|] == BaseUrl; }
    Post(BaseUrl + "/login", LoginBody(d))
  }

  /** `userApi.register`: POST `${BASE_URL}/register` with credentials and role. */
  function RegisterRequest(d: RegisterData): (r: Request)
    ensures r == Post("/auth/register", RegisterBody(d))
  {
    assert BaseUrl + "/register" == "/auth/register" by { assert (BaseUrl + "/register")[..|BaseUrl|] == BaseUrl; }
    Post(BaseUrl + "/register", RegisterBody(d))
  }

  /** `userApi.getProfile`: GET `${BASE_URL}/profile`. */
  function ProfileRequest(): (r: Request)
    ensures r == Get("/auth/profile")
  {
    assert BaseUrl + "/profile" == "/auth/profile" by { assert (BaseUrl + "/profile")[..|BaseUrl|] == BaseUrl; }
    Get(BaseUrl + "/profile")
  }

  /** The request interceptor: same rule as the shared client's, written out again in this file. */
  method RequestInterceptor(w: Window, config: RequestConfig) returns (r: RequestConfig)
    modifies config
    ensures r == config
    ensures config.headers == WithAuthorization(old(config.headers), w.authToken)
    ensures config.url == old(config.url)
  {
    var token := w.authToken;
    if Truthy(token) {
      config.headers := config.headers[Authorization := BearerValue(token.value)];
    }
    return config;
  }

  /** The success handler hands every response on unchanged. */
  method OnFulfilled<T>(response: T) returns (r: T)
    ensures r == response
  {
    r := response;
  }

  /** Whether the error handler clears the session: any response status of 401, whatever the request. */
  predicate ClearsSession(e: Thrown)
  {
    StatusOf(e) == Some(401)
  }

  /** The error handler: a 401 removes the token and sends the page to /login; every error is rejected as it came. */
  method OnRejected(w: Window, e: Thrown) returns (rejected: Thrown)
    modifies w
    ensures rejected == e
    ensures w.authToken == if ClearsSession(e) then None else old(w.authToken)
    ensures w.href == if ClearsSession(e) then Some("/login") else old(w.href)
    ensures w.pathname == old(w.pathname)
  {
    if StatusOf(e) == Some(401) {
      w.authToken := None;
      w.href := Some("/login");
    }
    return e;
  }
}
