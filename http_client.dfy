/**
 * The shared axios client of src/utils/httpClient.ts: default headers, a
 * request interceptor that adds the stored token as a bearer credential
 * (section 2.1 of RFC 6750), and a response interceptor that signs the
 * user out on 401 Unauthorized (section 15.5.2 of RFC 9110).
 */
module HttpClient {
  import opened Wrappers
  import opened Js
  import opened ErrorTypes
  import opened UserTypes
  import opened AuthStore

  const ContentTypeHeader := "Content-Type"
  const AuthorizationHeader := "Authorization"
  const AcceptHeader := "Accept"
  const JsonMediaType := "application/json"

  /** The `Accept` value axios sends by default. */
  const DefaultAccept := "application/json, text/plain, */*"

  /**
   * The headers every request starts from: axios's common `Accept` and the
   * `Content-Type` given to `axios.create`.
   */
  const DefaultHeaders: map<string, string> := map[AcceptHeader := DefaultAccept, ContentTypeHeader := JsonMediaType]

  /** The status whose error signs the user out. */
  const Unauthorized := 401

  /** Reads the token back out of a bearer `Authorization` value. */
  function ParseBearer(value: string): (t: Option<string>)
  {
    if |value| >= 7 && value[..7] == "Bearer " then Some(value[7..]) else None
  }

  /**
   * The `Authorization` value for a token, `Bearer <token>`: the token read
   * back out of it is the token it was built from.
   */
  function BearerCredential(token: string): (v: string)
    ensures ParseBearer(v) == Some(token)
  {
    var v := "Bearer " + token;
    assert v[..7] == "Bearer " && v[7..] == token;
    v
  }

  /**
   * A request's headers: the client's defaults, overridden by any header
   * the caller sets itself.
   */
  function RequestHeaders(callerHeaders: map<string, string>): (r: map<string, string>)
    ensures ContentTypeHeader in r && AcceptHeader in r
    ensures ContentTypeHeader !in callerHeaders ==> r[ContentTypeHeader] == JsonMediaType
    ensures AcceptHeader !in callerHeaders ==> r[AcceptHeader] == DefaultAccept
    ensures r.Keys == callerHeaders.Keys + DefaultHeaders.Keys
    ensures forall k :: k in callerHeaders ==> r[k] == callerHeaders[k]
  {
    DefaultHeaders + callerHeaders
  }

  /**
   * The headers after the request interceptor. A non-empty token adds (or
   * overwrites) `Authorization` with its bearer credential and touches no
   * other header; an empty token changes nothing.
   */
  function WithBearer(headers: map<string, string>, token: string): (r: map<string, string>)
    ensures token == "" ==> r == headers
    ensures token != "" ==> r.Keys == headers.Keys + {AuthorizationHeader}
    ensures token != "" ==> ParseBearer(r[AuthorizationHeader]) == Some(token)
    ensures forall k :: k in headers && k != AuthorizationHeader ==> k in r && r[k] == headers[k]
    ensures AuthorizationHeader in r <==> AuthorizationHeader in headers || token != ""
  {
    if token != "" then
      headers[AuthorizationHeader := BearerCredential(token)]
    else
      headers
  }

  /** The config object axios hands to the request interceptor. */
  class RequestConfig {
    var url: string
    var verb: string
    var headers: map<string, string>
    var data: Json

    /** The config axios builds for a call: the client's defaults merged in. */
    constructor (url: string, verb: string, callerHeaders: map<string, string>, data: Json)
      ensures this.url == url && this.verb == verb && this.data == data
      ensures headers == RequestHeaders(callerHeaders)
    {
      this.url := url;
      this.verb := verb;
      this.headers := RequestHeaders(callerHeaders);
      this.data := data;
    }
  }

  /**
   * The request interceptor: reads the token from the store when the
   * request is sent and sets `Authorization` in place when it is non-empty.
   */
  method OnRequest(config: RequestConfig, store: Store) returns (r: RequestConfig)
    modifies config
    ensures r == config
    ensures config.headers == WithBearer(old(config.headers), store.authState.token)
    ensures config.url == old(config.url) && config.verb == old(config.verb) && config.data == old(config.data)
  {
    var token := store.authState.token;
    if token != "" {
      config.headers := config.headers[AuthorizationHeader := BearerCredential(token)];
    }
    r := config;
  }

  /** How the transport settles a request: a response, or an axios error. */
  datatype Settlement = Delivered(response: AxiosResponse) | Failed(error: AxiosError)

  /** A 2xx status: what a fetch `Response.ok` reports, and what axios's default `validateStatus` accepts. */
  predicate OkStatus(status: int)
  {
    200 <= status <= 299
  }

  /**
   * The settlements axios produces: a response is delivered exactly when
   * its status is 2xx, and an error that carries a response has any other.
   */
  type Transport = t: Settlement
    | (t.Delivered? ==> OkStatus(t.response.status)) && (t.Failed? && t.error.response.Some? ==> !OkStatus(t.error.response.value.status))
    witness Failed(AxiosError("Network Error", NoStack, None))

  /** How the promise a caller awaits settles. */
  datatype Outcome = Resolved(response: AxiosResponse) | Rejected(reason: Thrown)

  /**
   * What reading `error.response.status` throws when the error has no
   * response: a TypeError, which then replaces the original error.
   */
  const StatusReadError: Thrown :=
    NativeError("TypeError", "Cannot read properties of undefined (reading 'status')",
                Captured("src/utils/httpClient.ts:28"))

  /**
   * The error interceptor on the store's state: the new state and how the
   * request settles. It never turns a failure into a success; on 401 the
   * session is reset and the same error is rejected; any other status
   * leaves the session alone; an error without a response fails on the
   * status read itself, before the store is touched.
   */
  function OnRejected(state: UserAuthenticationData, error: AxiosError): (r: (UserAuthenticationData, Outcome))
    ensures r.1.Rejected?
    ensures error.response.None? ==> r == (state, Rejected(StatusReadError))
    ensures error.response.Some? ==> r.1 == Rejected(Axios(error))
    ensures error.response.Some? ==> r.0 == if error.response.value.status == Unauthorized then DefaultValue() else state
    ensures !r.0.isLogged || r.0 == state
  {
    match error.response
    case None => (state, Rejected(StatusReadError))
    case Some(response) =>
      if response.status == Unauthorized then (DefaultValue(), Rejected(Axios(error)))
      else (state, Rejected(Axios(error)))
  }

  /** The error interceptor itself, resetting the store through `removeAuth`. */
  method HandleError(store: Store, error: AxiosError) returns (outcome: Outcome)
    requires store.Valid()
    modifies store
    ensures store.Valid()
    ensures (store.authState, outcome) == OnRejected(old(store.authState), error)
    ensures store.history == old(store.history) + (if error.response.Some? && error.response.value.status == Unauthorized then [Remove] else [])
  {
    if error.response.None? {
      outcome := Rejected(StatusReadError);
      return;
    }
    if error.response.value.status == Unauthorized {
      store.RemoveAuth();
    }
    outcome := Rejected(Axios(error));
  }

  /** One request through the client: the headers sent, the new state and the outcome. */
  datatype Exchange = Exchange(sent: map<string, string>, state: UserAuthenticationData, outcome: Outcome)

  /**
   * A request through the client, as a function of the store's state, the
   * config's headers and what the transport answers. A delivered response
   * passes the success interceptor unchanged.
   */
  function Request(state: UserAuthenticationData, headers: map<string, string>, reply: Transport): (x: Exchange)
    ensures x.sent == WithBearer(headers, state.token)
    ensures reply.Delivered? ==> x.state == state && x.outcome == Resolved(reply.response)
    ensures reply.Failed? ==> (x.state, x.outcome) == OnRejected(state, reply.error)
  {
    match reply
    case Delivered(response) => Exchange(WithBearer(headers, state.token), state, Resolved(response))
    case Failed(error) =>
      var (next, outcome) := OnRejected(state, error);
      Exchange(WithBearer(headers, state.token), next, outcome)
  }

  /**
   * A request sent through the client with its interceptors: the token is
   * read before the request leaves, and a 401 clears the store before the
   * caller sees the rejection.
   */
  method Send(store: Store, config: RequestConfig, reply: Transport) returns (outcome: Outcome)
    requires store.Valid()
    modifies store, config
    ensures store.Valid()
    ensures Exchange(config.headers, store.authState, outcome) == Request(old(store.authState), old(config.headers), reply)
    ensures config.url == old(config.url) && config.verb == old(config.verb) && config.data == old(config.data)
    ensures store.history == old(store.history) +
      (if reply.Failed? && reply.error.response.Some? && reply.error.response.value.status == Unauthorized then [Remove] else [])
  {
    var _ := OnRequest(config, store);
    match reply
    case Delivered(response) =>
      outcome := Resolved(response);
    case Failed(error) =>
      outcome := HandleError(store, error);
  }
}
