/**
 * The response-error interceptor of the shared HTTP client
 * (src/api/interceptors/response/redirect.ts): a precedence-ordered
 * classification of the failure, and, for a 401, a one-shot redirect to
 * /login guarded by the module-level `isRedirecting` latch.
 */
module RedirectInterceptor {
  import opened Js
  import opened Browser

  /** The status codes the interceptor branches on (RFC 9110 sections 15.5.2, 15.5.4 and 15.6). */
  const Unauthorized := 401
  const Forbidden := 403
  const InternalServerError := 500

  /** Which branch of the handler a failure takes, in the order the handler tests them. */
  datatype Disposition =
    | NotAxios        // not an axios error
    | NoStatus        // no response status
    | AuthEndpoint    // a login or register request
    | ServerError     // status >= 500
    | ForbiddenStatus // status 403
    | UnauthorizedStatus // status 401
    | OtherStatus     // any other status

  /** `url?.includes('/auth/login') || url?.includes('/auth/register')` */
  predicate IsAuthUrl(url: Option<string>)
  {
    url.Some? && (Includes(url.value, "/auth/login") || Includes(url.value, "/auth/register"))
  }

  /** The classifier: each test applies only when every earlier one failed. */
  function Classify(e: Thrown): (d: Disposition)
    ensures d == NotAxios <==> !e.AxiosFailure?
    ensures d == NoStatus <==> e.AxiosFailure? && StatusOf(e).None?
    ensures d == AuthEndpoint <==> StatusOf(e).Some? && IsAuthUrl(e.url)
    ensures d == ServerError <==> StatusOf(e).Some? && !IsAuthUrl(e.url) && StatusOf(e).value >= InternalServerError
    ensures d == ForbiddenStatus <==> StatusOf(e) == Some(Forbidden) && !IsAuthUrl(e.url)
    ensures d == UnauthorizedStatus <==> StatusOf(e) == Some(Unauthorized) && !IsAuthUrl(e.url)
  {
    if !e.AxiosFailure? then NotAxios
    else if StatusOf(e).None? then NoStatus
    else if IsAuthUrl(e.url) then AuthEndpoint
    else if StatusOf(e).value >= InternalServerError then ServerError
    else if StatusOf(e).value == Forbidden then ForbiddenStatus
    else if StatusOf(e).value == Unauthorized then UnauthorizedStatus
    else OtherStatus
  }

  /** The handler either rethrows or returns `undefined` (resolving the request). */
  datatype HandlerResult = Rethrown(error: Thrown) | ReturnedUndefined

  /** Whether handling `e` performs the redirect: a 401, the latch open, and not already on a /login page. */
  predicate Redirects(isRedirecting: bool, pathname: string, e: Thrown)
  {
    Classify(e) == UnauthorizedStatus && !isRedirecting && !Includes(pathname, "/login")
  }

  /** The interceptor module with its module-level latch. */
  class Interceptor {
    var isRedirecting: bool

    /** Module load: `let isRedirecting = false`. */
    constructor ()
      ensures !isRedirecting
    {
      isRedirecting := false;
    }

    /** The error handler registered on the HTTP client's response pipeline. */
    method HandleError(w: Window, e: Thrown) returns (r: HandlerResult)
      modifies this, w
      ensures r == if Classify(e) == UnauthorizedStatus then ReturnedUndefined else Rethrown(e)
      ensures var redirect := Redirects(old(isRedirecting), old(w.pathname), e);
        && isRedirecting == (old(isRedirecting) || redirect)
        && w.authToken == (if redirect then None else old(w.authToken))
        && w.href == (if redirect then Some("/login") else old(w.href))
      ensures old(isRedirecting) ==> isRedirecting
      ensures w.pathname == old(w.pathname)
    {
      if !e.AxiosFailure? {
        return Rethrown(e);
      }
      var status := StatusOf(e);
      var url := e.url;
      if status.None? {
        return Rethrown(e);
      }
      if IsAuthUrl(url) {
        return Rethrown(e);
      }
      if status.value >= InternalServerError {
        return Rethrown(e);
      }
      if status.value == Forbidden {
        return Rethrown(e);
      }
      if status.value == Unauthorized {
        if !isRedirecting && !Includes(w.pathname, "/login") {
          isRedirecting := true;
          w.authToken := None;
          w.href := Some("/login");
        }
        return ReturnedUndefined;
      }
      return Rethrown(e);
    }

    /**
     * Handles a series of failures on one page, in order, and counts the
     * redirects performed: the count is the latch-step count, so at most
     * one redirect happens, and none when the latch was already closed.
     */
    method HandleAll(w: Window, errors: seq<Thrown>) returns (results: seq<HandlerResult>, redirects: nat)
      modifies this, w
      ensures |results| == |errors|
      ensures forall k :: 0 <= k < |errors| ==>
        results[k] == if Classify(errors[k]) == UnauthorizedStatus then ReturnedUndefined else Rethrown(errors[k])
      ensures redirects == RedirectCount(old(isRedirecting), OnPage(old(w.pathname), errors))
      ensures redirects <= if old(isRedirecting) then 0 else 1
      ensures isRedirecting == (old(isRedirecting) || redirects == 1)
      ensures w.authToken == (if redirects == 1 then None else old(w.authToken))
      ensures w.href == (if redirects == 1 then Some("/login") else old(w.href))
      ensures w.pathname == old(w.pathname)
    {
      ghost var pairs := OnPage(w.pathname, errors);
      ghost var latched := isRedirecting;
      results := [];
      redirects := 0;
      var i := 0;
      while i < |errors|
        invariant 0 <= i <= |errors|
        invariant w.pathname == old(w.pathname)
        invariant |results| == i
        invariant forall k :: 0 <= k < i ==>
          results[k] == if Classify(errors[k]) == UnauthorizedStatus then ReturnedUndefined else Rethrown(errors[k])
        invariant redirects + RedirectCount(isRedirecting, pairs[i..]) == RedirectCount(latched, pairs)
        invariant isRedirecting == (latched || redirects > 0)
        invariant latched ==> redirects == 0
        invariant redirects <= 1
        invariant w.authToken == (if redirects == 1 then None else old(w.authToken))
        invariant w.href == (if redirects == 1 then Some("/login") else old(w.href))
      {
        AtMostOneRedirect(isRedirecting, pairs[i..]);
        assert pairs[i..][0] == (w.pathname, errors[i]);
        assert pairs[i..][1..] == pairs[i + 1..];
        var before := isRedirecting;
        var r := HandleError(w, errors[i]);
        if !before && isRedirecting {
          redirects := redirects + 1;
        }
        results := results + [r];
        i := i + 1;
      }
      AtMostOneRedirect(latched, pairs);
    }
  }

  /** The failures `errors`, each arriving while the page's path is `p`. */
  function OnPage(p: string, errors: seq<Thrown>): (r: seq<(string, Thrown)>)
    ensures |r| == |errors|
    ensures forall k :: 0 <= k < |errors| ==> r[k] == (p, errors[k])
  {
    seq(|errors|, k requires 0 <= k < |errors| => (p, errors[k]))
  }

  /** A 401 on a path containing /login, or with the latch closed, does not redirect. */
  lemma NoRedirectWhenLatchedOrOnLogin(isRedirecting: bool, pathname: string, e: Thrown)
    requires Classify(e) == UnauthorizedStatus
    requires isRedirecting || Includes(pathname, "/login")
    ensures !Redirects(isRedirecting, pathname, e)
  {
  }

  /** A login or register request is rethrown whatever its status, 401 included. */
  lemma AuthEndpointAlwaysRethrown(status: int, url: string, m: Option<string>, msg: string)
    requires Includes(url, "/auth/login") || Includes(url, "/auth/register")
    ensures Classify(AxiosFailure(Some(HttpResponse(status, m)), Some(url), msg)) == AuthEndpoint
  {
  }

  /**
   * The number of redirects performed while handling a sequence of failures,
   * each paired with the pathname current when it arrived, starting from a
   * given latch value.
   */
  function RedirectCount(latched: bool, failures: seq<(string, Thrown)>): nat
    decreases |failures|
  {
    if failures == [] then 0
    else
      var redirect := Redirects(latched, failures[0].0, failures[0].1);
      (if redirect then 1 else 0) + RedirectCount(latched || redirect, failures[1..])
  }

  /** The latch is never reset: at most one redirect per module lifetime, none once it is closed. */
  lemma {:induction false} AtMostOneRedirect(latched: bool, failures: seq<(string, Thrown)>)
    ensures RedirectCount(latched, failures) <= if latched then 0 else 1
    decreases |failures|
  {
    if failures != [] {
      var redirect := Redirects(latched, failures[0].0, failures[0].1);
      AtMostOneRedirect(latched || redirect, failures[1..]);
    }
  }
}
