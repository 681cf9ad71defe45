# Authentication front end of the English study platform, in Dafny

This project models the session-handling core of a Vue single-page
application. It covers:

- how a sign-in token is stored in the browser;
- how the token is attached to outgoing HTTP requests;
- how authentication failures send the user back to the login page;
- which routes a signed-in or signed-out visitor may enter;
- how the session stores and the query cache of the user hooks change on login, register and logout;
- the state kept by the form and validation composables.

Everything the code waits for is an input to the model: server responses, a
profile refetch, a schema validation, a submit callback. Each is a
`Settled` value (resolved with a value or rejected with a thrown value) or a
small outcome datatype. The browser globals are one shared `Browser.Window`
object:

- the `auth_token` entry of localStorage;
- `location.pathname`;
- the last value assigned to `location.href`.

The query client is a `QueryCache.QueryClient` object holding one entry per
query key.

Modules, one per source file (plus shared values):

| module | file | form |
|---|---|---|
| `Js` | values shared by all files | datatypes, truthiness, `includes`, chains of logical or |
| `Browser` | localStorage and `window.location` | class `Window` |
| `QueryCache` | the query-client calls the hooks make | class `QueryClient` over a map |
| `RouteGuard` | src/router/guards/loadUserProfile.ts, the route table | pure decision plus a method that removes the token |
| `RedirectInterceptor` | src/api/interceptors/response/redirect.ts | class holding the `isRedirecting` latch |
| `AuthHeader` | src/api/interceptors/request/addAuthorizationToken.ts | method that writes the request config in place |
| `UserApi` | src/api/userApi.ts | endpoint requests, both interceptors |
| `UserModule` | src/api/modules/user/index.ts | keys, retry rule, mutation effects on the cache |
| `UserQueries` | src/api/user/userQueries.ts | the older copy of the hooks |
| `LegacyStore` | src/stores/user.ts | class `UserStore` |
| `SessionStore` | src/stores/user/index.ts | derived state and delegating actions |
| `FormState` | src/composables/useFormState.ts | class `Form` |
| `Validation` | src/composables/useValidation.ts | class `Validator` and the error-map loop |
| `FormSubmit` | src/composables/useFormState/useFormState.ts | submit over a `Validator` |
| `Scenarios` | several files at once | sign in, sign out and expired-session runs |

In several places, reading only the comments and the documented intent
would suggest different behaviour. The model follows the code:

- The shared client's 401 handling clears the token only while the redirect latch is open and the current path does not contain `/login`. Otherwise it only resolves the request with `undefined`.
- In `useFormState.ts`, a submit that validation stops returns before the `try`. It therefore never touches `isLoading`. A validator that throws propagates its error, and `serverError` stays cleared.
- `getErrorMessage` gives the fixed text `Произошла ошибка` for any error that carries a response without a truthy message. It does not fall back to the error's own message.

## Model

| member | source | states |
|---|---|---|
| Js.OrElse | src/stores/user.ts:21 | definition of a value-or-fallback expression: the value when truthy, else the fallback; its property is stated by LegacyStore.FailureMessage |
| Js.StatusOf | src/api/interceptors/response/redirect.ts:19 | definition: the status of the failure's response, absent when there is no response |
| Js.ServerMessage | src/stores/user.ts:21 | definition: the message in the response body, absent when there is no response or no message |
| Js.MessageField | src/stores/user/index.ts:33-35 | definition: the `message` of an `Error` value, absent for a null error, a string or any other value |
| Js.IncludesAt | src/api/interceptors/response/redirect.ts:25 | the recursive `includes` holds exactly when the substring occurs at some index |
| Js.FirstTruthyIsFirst | src/stores/user/index.ts:32-37 | a chain of logical or yields a truthy element whose predecessors are all falsy, and null exactly when every element is falsy |
| QueryCache.Invalidated | src/api/modules/user/index.ts:46 | invalidating by a key prefix keeps every key and its data and marks exactly the matching entries |
| QueryCache.Removed | src/api/modules/user/index.ts:85 | removing by a key prefix keeps exactly the non-matching entries, unchanged |
| QueryCache.QueryClient.SetQueryData | src/api/modules/user/index.ts:43 | the entry for the key holds the new data and is fresh; other entries are unchanged |
| QueryCache.QueryClient.InvalidateQueries | src/api/modules/user/index.ts:46 | the cache becomes the invalidated cache |
| QueryCache.QueryClient.RemoveQueries | src/api/modules/user/index.ts:85 | the cache becomes the cache with matching entries removed |
| QueryCache.QueryClient.Data | src/stores/user/index.ts:11-12 | definition: the cached data under a key, null when the entry is absent or its data is null |
| RouteGuard.Decide | src/router/guards/loadUserProfile.ts:18-62 | `next` is undefined, `/login` or `/`. A refetch happens exactly on a protected or auth route with a truthy token and no user. The token is removed exactly when that refetch fails. `/` is chosen only for an unprotected auth route with a token, and `/login` only for a protected route |
| RouteGuard.LoadUserProfile | src/router/guards/loadUserProfile.ts:18-62 | the guard passes the decision's argument to `next`, refetches when the decision does, and removes the token only after a refetch that the store's `refetchProfile` rejects. It leaves the location alone |
| RouteGuard.IsAuthRoute | src/router/guards/loadUserProfile.ts:9-11 | definition: the name is `login` or `register`; its property is RouteGuard.AuthRouteNames |
| RouteGuard.RefetchDataIgnored | src/router/guards/loadUserProfile.ts:27-29 | a refetch that resolves counts as success whatever data or error it carries: a protected route is entered, an auth route goes to `/` |
| RouteGuard.RejectedRefetchSignsOut | src/router/guards/loadUserProfile.ts:30-33 | a rejected refetch removes the token; a protected route goes to `/login` and an auth route is entered |
| RouteGuard.AuthRouteNames | src/router/guards/loadUserProfile.ts:9-11 | `isAuthRoute` holds exactly for the string names `login` and `register`; not for `home`, `logout`, a symbol or undefined |
| RouteGuard.RouteTableShape | src/router/routes/index.ts:5-13 | in the route table, a route requires authentication exactly when it is `/`, and exactly when it is not an auth route |
| RouteGuard.ProtectedWithoutToken | src/router/guards/loadUserProfile.ts:37-39 | a protected route without a truthy token goes to `/login`, with no refetch and no token change |
| RouteGuard.ProtectedWithUser | src/router/guards/loadUserProfile.ts:34-36 | a protected route with a token and a loaded user is entered without a refetch |
| RouteGuard.ProtectedNeedsRefetch | src/router/guards/loadUserProfile.ts:26-33 | a protected route with a token and no user enters after a successful refetch; after a failed one it removes the token and goes to `/login` |
| RouteGuard.AuthRouteWithToken | src/router/guards/loadUserProfile.ts:42-54 | an auth route with a token goes to `/` when a user is loaded or the refetch succeeds; a failed refetch removes the token and enters |
| RouteGuard.OpenRoutes | src/router/guards/loadUserProfile.ts:55-60 | an unprotected route that is not an auth route, or an auth route without a token, is entered with no effect |
| RouteGuard.LoggedOutNavigation | src/router/routes/auth.ts:4-17 | with no token stored, every protected route of the table goes to `/login` and every auth route is entered with no effect |
| RedirectInterceptor.IsAuthUrl | src/api/interceptors/response/redirect.ts:25 | definition: the request url contains `/auth/login` or `/auth/register` |
| RedirectInterceptor.Redirects | src/api/interceptors/response/redirect.ts:41-43 | definition: a 401 outside the auth endpoints, with the latch open and a path without `/login` |
| RedirectInterceptor.Classify | src/api/interceptors/response/redirect.ts:11-55 | each branch is taken exactly when its test holds and every earlier test failed: non-axios, no status, auth endpoint, status >= 500, 403, 401 |
| RedirectInterceptor.Interceptor.constructor | src/api/interceptors/response/redirect.ts:5 | the latch starts open |
| RedirectInterceptor.Interceptor.HandleError | src/api/interceptors/response/redirect.ts:10-56 | a 401 that is not from an auth endpoint resolves with undefined; every other failure is rethrown as it came. The redirect happens exactly on such a 401 with the latch open and a path without `/login`. It closes the latch, removes the token and sets href to `/login`. The latch never reopens |
| RedirectInterceptor.NoRedirectWhenLatchedOrOnLogin | src/api/interceptors/response/redirect.ts:43-52 | a 401 with the latch closed, or on a page whose path contains `/login`, does not redirect |
| RedirectInterceptor.AuthEndpointAlwaysRethrown | src/api/interceptors/response/redirect.ts:25-27 | a failed login or register request is an auth-endpoint failure whatever its status, 401 included |
| RedirectInterceptor.Interceptor.HandleAll | src/api/interceptors/response/redirect.ts:5-56 | handling a series of failures on one page gives each the handler's result; the redirects performed are the latch-step count, so at most one, and none when the latch was already closed |
| RedirectInterceptor.AtMostOneRedirect | src/api/interceptors/response/redirect.ts:41-52 | over any sequence of failures, at most one redirect happens, and none once the latch is closed |
| AuthHeader.BearerRoundTrip | src/api/interceptors/request/addAuthorizationToken.ts:7 | extra, not in the source, which never parses the header: the receiving side's reading of the value. The token is recovered from the `Bearer` header value built from it |
| AuthHeader.ParseBearerInverse | src/api/interceptors/request/addAuthorizationToken.ts:7 | extra, as above: every header value with the `Bearer ` prefix is the header value of the token it carries |
| AuthHeader.WithAuthorization | src/api/interceptors/request/addAuthorizationToken.ts:4-10 | with a truthy token, `Authorization` becomes `Bearer <token>`; without one, the headers are unchanged; every other header is always kept |
| AuthHeader.AddAuthorizationToken | src/api/interceptors/request/addAuthorizationToken.ts:4-10 | the same config object is returned, its headers updated as above and its url unchanged |
| AuthHeader.EmptyTokenAddsNothing | src/api/interceptors/request/addAuthorizationToken.ts:6 | an absent or empty stored token adds no header |
| UserApi.LoginRequest | src/api/userApi.ts:57-60 | login is a POST to `/auth/login` with the credentials |
| UserApi.RegisterRequest | src/api/userApi.ts:62-65 | register is a POST to `/auth/register` with credentials and role |
| UserApi.ProfileRequest | src/api/userApi.ts:67-70 | the profile is a GET of `/auth/profile` |
| UserApi.RequestInterceptor | src/api/userApi.ts:36-42 | the older client's request interceptor has the same effect as the shared client's |
| UserApi.OnFulfilled | src/api/userApi.ts:46 | responses are passed on unchanged |
| UserApi.OnRejected | src/api/userApi.ts:47-53 | every error is rejected as it came. Any 401, from any endpoint and on any page, removes the token and sets href to `/login`, and nothing else does |
| UserApi.ClearsSession | src/api/userApi.ts:48 | definition: the older client clears the session exactly when the failure has a response with status 401 |
| UserModule.ProfileKey | src/api/modules/user/index.ts:8-11 | the profile key is `["user", "profile"]` and the `all` key is a prefix of it |
| UserModule.ProfileQueryEnabled | src/api/modules/user/index.ts:19 | definition: `enabled` holds exactly when a truthy token was stored when the hook was set up |
| UserModule.ShouldRetry | src/api/modules/user/index.ts:20-26 | a 401 is never retried, and a retry happens only before the first failure is counted |
| UserModule.RetryPolicy | src/api/modules/user/index.ts:20-26 | a retry happens exactly when the failure count is 0 and the error is not a 401 |
| UserModule.RetriedOnceOnServerError | src/api/modules/user/index.ts:20-26 | a 500 is retried once and not twice |
| UserModule.LoginRequest | src/api/modules/user/index.ts:91-94 | login is a POST to `/auth/login` |
| UserModule.RegisterRequest | src/api/modules/user/index.ts:96-99 | register is a POST to `/auth/register` |
| UserModule.ProfileRequest | src/api/modules/user/index.ts:101-104 | the profile is a GET of `/auth/profile` |
| UserModule.EndpointsAgainstExemption | src/api/modules/user/index.ts:91-104 | the redirect interceptor exempts the login and register paths and not the profile path |
| UserModule.Login | src/api/modules/user/index.ts:33-54 | success stores the access token, caches the returned user under the profile key and invalidates every user query. Failure removes the token and caches null. The outcome is passed on unchanged |
| UserModule.Register | src/api/modules/user/index.ts:57-72 | the same effects as a login |
| UserModule.Logout | src/api/modules/user/index.ts:75-88 | the token is removed, the profile set to null and then every user query removed |
| UserModule.LoginSeedsProfile | src/api/modules/user/index.ts:38-47 | after a successful login, the cached profile is the returned user, marked for refetch |
| UserModule.LogoutDropsUserQueries | src/api/modules/user/index.ts:82-86 | after a logout, no user query is cached and every other query is untouched |
| UserQueries.ProfileKey | src/api/user/userQueries.ts:5-8 | the profile key is `["user", "profile"]` under the `all` key |
| UserQueries.ProfileQueryEnabled | src/api/user/userQueries.ts:15 | definition: `enabled` holds exactly when a truthy token was stored when the hook was set up |
| UserQueries.ShouldRetry | src/api/user/userQueries.ts:16-22 | a 401 is never retried, and a retry happens only before the first failure is counted |
| UserQueries.AgreesWithUserModule | src/api/user/userQueries.ts:5-25 | the older hooks use the same keys, enabling rule and retry rule as the newer ones |
| UserQueries.ProfileQueryRequest | src/api/user/userQueries.ts:14 | the older profile query fetches `/auth/profile`, through the stand-in client src/api/userApi.ts |
| UserQueries.Login | src/api/user/userQueries.ts:29-50 | the same token and cache effects as the newer login hook |
| UserQueries.Register | src/api/user/userQueries.ts:53-68 | the same token and cache effects as the newer register hook |
| UserQueries.Logout | src/api/user/userQueries.ts:71-84 | the same token and cache effects as the newer logout hook |
| LegacyStore.FailureMessage | src/stores/user.ts:21 | the stored message is the server's message when truthy, the action's fallback otherwise, and non-empty when the fallback is |
| LegacyStore.UserStore.constructor | src/stores/user.ts:7-11 | no user, not loading, no error, not authenticated |
| LegacyStore.UserStore.IsAuthenticated | src/stores/user.ts:11 | definition: a user is held |
| LegacyStore.UserStore.Login | src/stores/user.ts:13-26 | sends the login request. Success stores the token and the user and clears the error. Failure records the message, keeps user and token, and rethrows. The store always ends not loading |
| LegacyStore.UserStore.Register | src/stores/user.ts:28-41 | the same as login, with the register request and its own fallback |
| LegacyStore.UserStore.FetchProfile | src/stores/user.ts:43-55 | success replaces the user and keeps the token. Failure records the message, removes the token, keeps the previous user and rethrows. The store always ends not loading |
| LegacyStore.UserStore.Logout | src/stores/user.ts:57-60 | forgets the user and removes the token; error and loading flag stay |
| LegacyStore.FailureMessagesNonEmpty | src/stores/user.ts:21-49 | a failed action always leaves a non-empty message |
| SessionStore.IsAuthenticated | src/stores/user/index.ts:22 | definition: the profile query's cached data is present |
| SessionStore.IsLoading | src/stores/user/index.ts:25-29 | definition, with no proved property: the profile query loads or either mutation is pending |
| SessionStore.Error | src/stores/user/index.ts:32-37 | definition: the chain of the three error messages; its properties are SessionStore.ErrorIsFirstTruthy and SessionStore.ErrorPrecedence |
| SessionStore.ErrorIsFirstTruthy | src/stores/user/index.ts:32-37 | the combined error is the first truthy of the three messages |
| SessionStore.ErrorPrecedence | src/stores/user/index.ts:32-37 | the combined error is null exactly when no message is truthy, is truthy otherwise, and is the profile error whenever that is truthy |
| SessionStore.Login | src/stores/user/index.ts:39-41 | the login mutation's outcome is returned unchanged. On success the store is authenticated with the returned user and token, and the cache is the seeded and invalidated one. On failure it is not, the token is removed and the profile cached as null. The location stays |
| SessionStore.Register | src/stores/user/index.ts:43-45 | the same as login, with the register mutation and the same cache effects |
| SessionStore.Logout | src/stores/user/index.ts:47-49 | the state once the unawaited logout mutation has run: nobody is authenticated, no token is stored, every user query is removed and every other query kept; the location stays |
| SessionStore.RefetchProfile | src/stores/user/index.ts:52-55 | definition: the refetch result's data, or its rejection; the guard consumes it, as RouteGuard.RefetchDataIgnored and RouteGuard.RejectedRefetchSignsOut state |
| FormState.GetErrorMessage | src/composables/useFormState.ts:82-103 | an error carrying a response gives its truthy server message or the fixed text. Otherwise an `Error` gives its message, a string gives itself, and anything else gives the unknown-error text |
| FormState.ErrorMessageSources | src/composables/useFormState.ts:82-103 | a truthy server message always wins; the message is empty only when the thrown value's own text is |
| FormState.HasErrorsOf | src/composables/useFormState.ts:105-108 | definition: some field error is non-empty, or the server error is truthy |
| FormState.Form.HasErrors | src/composables/useFormState.ts:105-108 | definition: `hasErrors` over the form's own errors |
| FormState.Form.constructor | src/composables/useFormState.ts:23-28 | data is the initial data, nothing is loading, and there are no errors |
| FormState.Form.SetFieldError | src/composables/useFormState.ts:30-32 | only that field's error changes; a non-empty message makes `hasErrors` true |
| FormState.Form.SetServerError | src/composables/useFormState.ts:34-36 | only the server error changes |
| FormState.Form.ResetForm | src/composables/useFormState.ts:38-47 | every initial key gets its initial value back, other keys of data stay, all errors are cleared and nothing is loading |
| FormState.Form.HandleSubmit | src/composables/useFormState.ts:49-79 | clears the server error. A validator that rejects the data, or throws, stops everything else. Otherwise the data is submitted and the result returned to the success callback, or the failure's message stored, the error callback called and the failure rethrown. A submit that passes validation always ends not loading; one that validation stops leaves the loading flag as it was |
| FormState.ResetTwice | src/composables/useFormState.ts:38-47 | two resets leave the form exactly as one does: data, errors, server error and loading flag |
| Validation.ErrorMap | src/composables/useValidation.ts:29-35 | definition: the message of each inner error stored under its truthy path, in order; its properties are Validation.ErrorMapKeys and Validation.ErrorMapLastWins |
| Validation.ErrorMapKeys | src/composables/useValidation.ts:29-35 | a path is in the error map exactly when some inner error has that truthy path |
| Validation.ErrorMapLastWins | src/composables/useValidation.ts:30-34 | a path's message is that of the last inner error naming it |
| Validation.BuildErrors | src/composables/useValidation.ts:29-35 | the loop over the inner errors builds exactly the error map |
| Validation.ClearedField | src/composables/useValidation.ts:50-52 | afterwards the field is present exactly when its message was empty, and then still empty; every other field keeps its message |
| Validation.Validator.constructor | src/composables/useValidation.ts:9-11 | no errors, not valid, not dirty |
| Validation.Validator.Validate | src/composables/useValidation.ts:16-39 | marks dirty. The result and `isValid` say whether the schema passed. The errors are cleared on a pass, rebuilt from the inner errors on a validation error, and kept on any other throw |
| Validation.Validator.ValidateField | src/composables/useValidation.ts:44-63 | a field failure sets only that field's message and invalidates the form; a field pass clears its message and re-validates the whole form; any other throw changes nothing but the dirty flag |
| Validation.Validator.SetDirty | src/composables/useValidation.ts:68-70 | only the dirty flag changes, to true |
| Validation.Validator.Reset | src/composables/useValidation.ts:75-79 | no errors, not valid, not dirty, whatever came before |
| FormSubmit.HandleSubmit | src/composables/useFormState/useFormState.ts:47-64 | null form data does nothing. Otherwise the data object captured when the composable was set up is validated. A failed validation stops. A passing one submits the data, hands the response to the success callback when one is given, and rethrows a failed submission |
| Scenarios.SignInThenNavigate | src/router/guards/loadUserProfile.ts:18-62 | after a successful sign-in, the store is authenticated, home is entered and the login route goes to `/`, with no refetch |
| Scenarios.SignOutThenNavigate | src/stores/user/index.ts:47-49 | once the logout mutation has run after a sign-in, nobody is authenticated, home goes to `/login` and the register route is entered |
| Scenarios.ExpiredSession | src/api/interceptors/response/redirect.ts:41-53 | on the home page, two 401s from the profile endpoint both resolve with undefined, and the redirect count is exactly one. The token ends up removed and the location `/login` |

## Left out

- User interface: the views, form components and the `useAuthForm` composable.
- Library internals: the fetching, caching timers, `retryOnMount` and refetch scheduling of the query library; the navigation queue of the router; the schema library's rules. Each of their results is an input.
- The query client's default `mutations.retry: 1`: it is library configuration, outside the hooks.
- The order in which the HTTP client runs registered interceptors, and how they combine with the stores' actions: each interceptor and action is modelled on its own.
- The base domain `http://localhost:3000`, the `Content-Type` header and `console.error` logging: they have no effect on the modelled state.
- Thrown callbacks: `onSuccess` and `onError` are assumed to return normally.
- Thrown values: `null`, and plain objects with a `response` key that are not errors, are not distinguished from the four modelled kinds.
- The numeric values of 401, 403 and 500: `@/api/enums` is not part of this model, so the standard values are used.
- `isLoading` of the schema-driven form composable: it is a computed copy of the `loading` option and holds no logic.
- `validateField` and `resetValidation` of the schema-driven form composable: they are the validator's own, modelled in `Validation`.
- The module `../useValidation/useValidation` that the schema-driven form composable imports is not part of this model. `src/composables/useValidation.ts` stands in for it.
- SessionStore.Logout: `logout()` returns before the unawaited logout mutation removes the token and clears the cache; the model gives the state after the mutation and its success handler have run, not the moment between.
- The query library's `refetch()` normally resolves even when the query fails, with the error in the result; the model still lets the refetch reject, which is the only case in which the guard removes the token.
- The client `./userApi` that src/api/user/userQueries.ts imports (src/api/user/userApi.ts) is not part of this model. `UserQueries` assumes its endpoint paths are those of src/api/userApi.ts and uses that client in its place.
- The profile query's `enabled` flag is a snapshot taken when the hook is set up. It is not re-read after a later login or logout, and a manual `refetch()`, such as the store's `refetchProfile`, runs whatever it says. The model gives only the flag's value, not when it is read.
- The redirect latch is never reset in the code. A full page load starts a fresh module; the model's latch lives for one module lifetime.
- Which store the guard's import `@/stores/user` resolves to. Both `src/stores/user.ts` and `src/stores/user/index.ts` exist, and only the second has `refetchProfile`. The refetch outcome is a parameter, so both readings are covered: with the first store, the call throws and the guard takes its failure branch.
