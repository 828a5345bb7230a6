# Session, guards and interceptors of a Vue blog front-end, in Dafny

This project models the authentication core of a small Vue single-page
application: the pinia session store that holds the logged-in user's
record, the vue-router navigation guards that keep logged-out users away
from the admin pages and logged-in users away from the login and register
forms, the axios interceptors that attach the stored token as a bearer
credential and sign the user out on a 401, the login and registration
services, and the `AppError` wrapper that normalises whatever was thrown.

Modules, one per source file, plus shared values and the cross-cutting theorems:

- `Wrappers`: `Option` (JavaScript's `undefined`) and `Result` (a return or a throw).
- `Js`: parsed JSON, stack traces, axios responses and axios errors.
- `UserTypes`, `ErrorTypes`: the records of `src/types/user.ts` and `src/types/error.ts`, and `Thrown`, any value code can throw, classified as `instanceof Error` and `axios.isAxiosError` see it.
- `AuthStore` (`src/stores/auth.ts`): class `Store` with the mutable `authState` field, `SetAuth` and `RemoveAuth`. A ghost history ties the field to `Run`, the pure replay of store writes.
- `Router` (`src/router/index.ts`): the route table as nested records, flattened the way the router registers them, the `/admin` alias included. Children inherit the parent's `requiresAuth` through the merged `meta`. `Navigate` decides a navigation from the path and `isLogged`.
- `HttpClient` (`src/utils/httpClient.ts`): the default headers; class `RequestConfig`, whose headers the request interceptor `OnRequest` changes in place; the error interceptor, both as the function `OnRejected` and as the method `HandleError` on the store; `Send`, a whole request.
- `AppErrors` (`src/utils/appError.ts`): `FromUnknown`, the constructor's three-way branch.
- `UserService` (`src/services/user.ts`): `FetchUser` and `CreateUser` as functions from how their request settled to a result or a thrown value; `LoginRequest` and `RegisterRequest` give the requests they send.
- `Session`: store writes interleaved with client requests, and what a 401 means for later requests and navigations.

Network answers, parsed bodies and thrown values are parameters: what
`fetch`, `resp.json()` or the axios transport produce is given to the model
as a value.

`setAuth` checks nothing, so nothing ties `isLogged` to the token: a
logged-in record with an empty token, or a logged-out record that carries a
token, is stored as given (`AuthStore.SetStoresInconsistentRecords`).

The navigation decision depends on the session only through `isLogged`:
`Router.Navigate` takes the path and that flag and nothing else, so the
token cannot influence where a navigation ends.

## Model

| member | source | states |
|---|---|---|
| `AuthStore.DefaultValue` | src/stores/auth.ts:5-15 | the default session is logged out, and its message, token, email and password are all empty |
| `AuthStore.Store.constructor` | src/stores/auth.ts:18 | a new store holds the default session and has no writes in its history |
| `AuthStore.Store.SetAuth` | src/stores/auth.ts:20-22 | the state becomes exactly the given record, and the record-equals-replayed-history invariant is kept |
| `AuthStore.Store.RemoveAuth` | src/stores/auth.ts:24-26 | the state becomes the default whatever it was, so the token is empty and `isLogged` is false, and the invariant is kept |
| `AuthStore.Step` | src/stores/auth.ts:20-26 | one write: `setAuth(d)` leaves exactly `d`, `removeAuth()` the default, and nothing of the old state survives |
| `AuthStore.Run` | src/stores/auth.ts:20-26 | a run of writes ends in the starting state, the default or one of the stored records, never a merge of several |
| `AuthStore.RunAppend` | src/stores/auth.ts:20-26 | replaying `a + b` is replaying `a` and then `b` |
| `AuthStore.LastWriteWins` | src/stores/auth.ts:20-26 | after any non-empty run of writes the state is the last `setAuth` record, or the default if the last write was `removeAuth`; nothing is merged from earlier states |
| `AuthStore.HistoryIndependent` | src/stores/auth.ts:20-26 | a non-empty run of writes reaches the same state from any starting state |
| `AuthStore.RemoveIdempotent` | src/stores/auth.ts:24-26 | resetting twice gives the same state as resetting once, which is the default |
| `AuthStore.StateWasStored` | src/stores/auth.ts:18-26 | what a store holds is always the default or a record some `setAuth` call stored |
| `AuthStore.SetStoresInconsistentRecords` | src/stores/auth.ts:20-22 | `setAuth` stores a logged-in record with an empty token, and a logged-out one with a token, exactly as given |
| `AuthStore.RemoveAuthTwice` | src/stores/auth.ts:20-26 | on the object, a login followed by two resets leaves the store at the default |
| `Router.JoinPath` | src/router/index.ts:23-39 | an empty child path is the parent's own path, and an absolute child path stands alone |
| `Router.Resolve` | src/router/index.ts:14-64 | `to.matched`: the records of the first registered entry with the path, none when no entry has it |
| `Router.MergedMeta` | src/router/index.ts:20-22 | `to.meta`: `requiresAuth` is present exactly when some matched record declares it, and then it is one of their metas |
| `Router.BeforeEach` | src/router/index.ts:67-72 | the global guard redirects if and only if the target requires authentication and the user is logged out, and then to `/login` |
| `Router.BeforeEnter` | src/router/index.ts:41-62 | a route's own guard (the login-page and the register-page guard alike) redirects if and only if the route has one and the user is logged in, and then to its target `/` |
| `Router.EnterGuards` | src/router/index.ts:41-62 | the entered records' guards redirect exactly when the user is logged in and one of them has a guard, to that guard's target |
| `Router.Navigate` | src/router/index.ts:41-72 | `beforeEach` first, then the per-route guards; logged out, a protected target goes to `/login` and every other target passes; logged in, only the per-route guards decide |
| `Router.InheritedRequiresAuth` | src/router/index.ts:15-40 | a matched record that declares `requiresAuth` passes it to every nested record that declares nothing |
| `Router.RouteEntries` | src/router/index.ts:14-64 | the table registers `/`, `/create-post`, `/articles` and `/`, then the same under `/admin`, then `/login` and `/register` |
| `Router.AdminEntries` | src/router/index.ts:15-40 | the `/` record and its children are registered under `/` and again under the `/admin` alias, with the same records matched |
| `Router.ResolveTable` | src/router/index.ts:14-64 | each registered path, through `/` or through `/admin`, matches its record chain, and any other path matches nothing |
| `Router.ProtectedRoutes` | src/router/index.ts:15-40 | a path is protected if and only if it is `/`, `/create-post` or `/articles`, or the same under the `/admin` alias: the children of the record marked `requiresAuth` |
| `Router.NavigateDecision` | src/router/index.ts:41-72 | the full decision: logged out, a protected path redirects to `/login`; logged in, `/login` and `/register` redirect to `/`; everything else passes, including unknown paths |
| `Router.LoggedOutProtectedGoesToLogin` | src/router/index.ts:67-72 | logged out, every protected target redirects to `/login` |
| `Router.LoggedInProtectedPasses` | src/router/index.ts:67-72 | logged in, every protected target passes both `beforeEach` and the per-route guards |
| `Router.AuthPagesDecision` | src/router/index.ts:41-62 | `/login` and `/register` redirect to `/` when logged in and pass when logged out |
| `Router.NoRedirectLoop` | src/router/index.ts:41-72 | in the same state every redirect target passes the guards, so a navigation settles after at most one redirect |
| `ErrorTypes.ErrorType.Value` | src/types/error.ts:4-7 | each enum member has its own string value, `LOGIN_FAILED` or `REGISTER_FAILED` |
| `HttpClient.RequestHeaders` | src/utils/httpClient.ts:5-10 | every request has a `Content-Type`, which is `application/json` unless the caller set one, and axios's common `Accept`; the caller's own headers are kept |
| `HttpClient.BearerCredential` | src/utils/httpClient.ts:18 | the token read back out of the `Bearer <token>` value is the token it was built from |
| `HttpClient.WithBearer` | src/utils/httpClient.ts:14-20 | a non-empty token adds exactly an `Authorization` header that carries that token and changes no other header; an empty token changes nothing |
| `HttpClient.RequestConfig.constructor` | src/utils/httpClient.ts:5-10 | a request's config starts from the client's default headers merged with the caller's |
| `HttpClient.OnRequest` | src/utils/httpClient.ts:12-22 | the interceptor sets the headers in place from the token in the store at send time, changes nothing else and returns the same config |
| `HttpClient.OnRejected` | src/utils/httpClient.ts:27-35 | the error step always rejects. On 401 the session is reset and the same error rejected; other statuses leave the session alone; an error without a response rejects with a TypeError and leaves the store untouched |
| `HttpClient.HandleError` | src/utils/httpClient.ts:27-35 | the error step on the store object matches `OnRejected`, and it records one `removeAuth` exactly when the status is 401 |
| `HttpClient.Request` | src/utils/httpClient.ts:12-36 | a request is sent with the headers from the state's token; a 2xx response is returned unchanged and leaves the state alone; a failure goes through the error step |
| `HttpClient.Send` | src/utils/httpClient.ts:12-36 | on the objects, sent headers, new store state and outcome are those of `Request` from the old state; the config's url, verb and data stay as they were, and the store's history gains exactly one reset on a 401 and nothing otherwise |
| `AppErrors.FromUnknown` | src/utils/appError.ts:8-19 | an Error keeps its message and stack; an axios error also keeps its response; any other Error has no response; a non-Error gets the unknown-error message, its own stack and no response; the name is always `Error` |
| `AppErrors.RewrapKeepsMessageAndStack` | src/utils/appError.ts:8-19 | wrapping an `AppError` again keeps its message and stack but drops its response |
| `AppErrors.HttpErrorLiteralIsUnknown` | src/utils/appError.ts:16-18 | the `HttpError` object literal is not an Error, so it becomes the unknown error and loses its message and status |
| `UserService.LoginRequest` | src/services/user.ts:29-35 | the login is a POST of the credentials with a JSON content type and no `Authorization` header |
| `UserService.FetchUser` | src/services/user.ts:27-53 | success if and only if a response arrived with a 2xx status and a body that parses, and then the body is returned unchanged. A body that does not parse rejects with the parse error whatever the status. A non-2xx status throws a `LOGIN_FAILED` `HttpError` with the status and the body's message, or a TypeError for a `null` body. A network failure is rethrown unchanged |
| `UserService.LoginUnauthorized` | src/services/user.ts:36-45 | a 401 on login answered with a parsed, non-`null` JSON body is a `LOGIN_FAILED` error carrying 401 (an unparseable body rejects with the parse error, a `null` one with the TypeError, as `FetchUser` states); no store is involved |
| `UserService.CreateUser` | src/services/user.ts:12-20 | success if and only if the request resolved, returning its `data`; otherwise the `AppError` of the rejection, never tagged `REGISTER_FAILED` |
| `UserService.RegisterRequest` | src/services/user.ts:12-14 | the registration is a POST of the payload to `/register` with the client's JSON content type, and it carries a bearer credential of the store's token exactly when that token is non-empty |
| `UserService.RegisterThroughClient` | src/services/user.ts:12-14 | the headers the shared client sends for the registration are those of `RegisterRequest`, so a non-empty session token goes out with a registration but never with the login |
| `UserService.CreateUserKeepsResponse` | src/services/user.ts:12-20 | a rejected registration keeps the axios error's message, stack and response |
| `Session.Guard` | src/router/index.ts:41-72 | read from the store at decision time: logged out, protected pages go to `/login`; logged in, `/login` and `/register` go to `/`; everything else passes, and every redirect target passes |
| `Session.Replay` | src/utils/httpClient.ts:12-36 | over writes and requests, exactly one set of headers per request and none per write, and the session ends in its start, the default or a stored record: requests only ever reset it |
| `Session.LoggedOutStaysLoggedOut` | src/utils/httpClient.ts:12-36 | a logged-out session with no token stays so through requests and resets until a login, and, when no caller sets `Authorization` itself, none of its requests carries a bearer credential |
| `Session.AfterUnauthorized` | src/utils/httpClient.ts:28-34 | after a 401 the request is still rejected with its own error, the store is at the default, later requests carry no bearer credential until a login when no caller sets `Authorization` itself, and protected pages redirect to `/login` |
| `Session.RequestAfterLogin` | src/utils/httpClient.ts:14-18 | a request sent after a login that stores a non-empty token carries the bearer credential of that token |
| `Session.SignedOutAfterUnauthorized` | src/utils/httpClient.ts:28-34 | on the objects, after a 401 the next request, given no `Authorization` header of its own, leaves without one and `/articles` redirects to `/login` |

## Left out

- Persistence of the store to browser storage (`persist: true`) and its restoration at start-up: storage I/O. A new `Store` always starts at the default.
- The transport: axios itself, `fetch`, JSON encoding and decoding, the `API_URL` base-URL prefix, `validateStatus`, and axios dropping `Content-Type` from requests without a body. What the transport answers is a parameter (`Transport`, `FetchResult`, `Body`), and the model stops at the headers the interceptor hands over. The transport's answer is constrained as axios settles it: a delivered response is 2xx, and an error carrying a response is not.
- Promise and async timing, and `console.log` in `fetchUser`.
- The session record is a value. In the application `setAuth` stores the caller's object by reference and `authState` is exposed, so a component could write one field of it directly; the model's store changes only through `SetAuth` and `RemoveAuth`, and `Valid()` relies on that.
- Header names are compared exactly. Axios headers are case-insensitive; no caller here depends on that.
- Router path matching is exact string equality on the registered paths. Trailing-slash and case-insensitive matching, history, and lazy component imports are router library behaviour. The router's alias records copy the original's meta and guards; the model matches the original records themselves.
- A `beforeEnter` guard is skipped when its record is already active in the route being left. The model treats every matched record as newly entered.
- `Router.NoRedirectLoop`: the router performs the redirect as a fresh navigation. The model states the property as "the target passes in the same state" and does not model the router's redirect machinery.
- Runtime stack traces are not modelled as text. A trace captured when an error object is created is `Captured(site)`, and copying a stack copies that value.
- JSON numbers are integers; floating point is left out.
- `useCreateUser`, `fetchPost` and `useGetPostsQuery`: hooks over the vue-query library, and a service that only unwraps `resp.data.data` and wraps failures in `AppError` as `createUser` does.
- Application bootstrap, styling configuration, toasts and all rendering.
