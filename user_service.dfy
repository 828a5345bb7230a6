/**
 * The user services of src/services/user.ts: login through a direct
 * `fetch` call (`fetchUser`) and registration through the shared client
 * (`createUser`).
 */
module UserService {
  import opened Wrappers
  import opened Js
  import opened ErrorTypes
  import opened UserTypes
  import opened AppErrors
  import HttpClient

  /** What `resp.json()` gives: the parsed body, or the error it rejects with. */
  datatype Body = Parsed(data: Json) | Unparseable(error: Thrown)

  /** How `fetch` settles: it rejects (network failure), or a response arrives. */
  datatype FetchResult = NetworkFailure(error: Thrown) | Received(status: int, body: Body)

  /** The request `fetchUser` sends (the `API_URL` prefix is not modelled). */
  datatype FetchRequest = FetchRequest(url: string, verb: string, headers: map<string, string>, payload: UserGeneralInformation)

  /**
   * The login request: a POST of the credentials with a JSON content type
   * and, because it bypasses the shared client, no `Authorization` header
   * whatever the store holds.
   */
  function LoginRequest(loginData: UserGeneralInformation): (r: FetchRequest)
    ensures r.url == "/login" && r.verb == "POST" && r.payload == loginData
    ensures HttpClient.AuthorizationHeader !in r.headers
    ensures HttpClient.ContentTypeHeader in r.headers && r.headers[HttpClient.ContentTypeHeader] == HttpClient.JsonMediaType
  {
    FetchRequest("/login", "POST", map[HttpClient.ContentTypeHeader := HttpClient.JsonMediaType], loginData)
  }

  /** What reading `data.message` throws when the body is JSON `null`. */
  const MessageReadError: Thrown :=
    NativeError("TypeError", "Cannot read properties of null (reading 'message')",
                Captured("src/services/user.ts:40"))

  /**
   * `fetchUser` on how its `fetch` settled. The body is parsed before `ok`
   * is looked at, so a body that does not parse rejects with the parse
   * error even on a failed status. A parsed body is returned unchanged on a
   * 2xx status; otherwise an `HttpError` object tagged `LOGIN_FAILED` is
   * thrown with the status and the body's `message`. Whatever is caught is
   * rethrown unchanged.
   */
  function FetchUser(reply: FetchResult): (r: Result<Json, Thrown>)
    ensures r.Success? <==> reply.Received? && HttpClient.OkStatus(reply.status) && reply.body.Parsed?
    ensures r.Success? ==> r.value == reply.body.data
    ensures reply.NetworkFailure? ==> r == Failure(reply.error)
    ensures reply.Received? && reply.body.Unparseable? ==> r == Failure(reply.body.error)
    ensures reply.Received? && reply.body.Parsed? && !HttpClient.OkStatus(reply.status) && !reply.body.data.JNull? ==>
      r == Failure(HttpErrorLiteral(HttpError(Property(reply.body.data, "message"), LoginFailed, reply.status)))
    ensures reply.Received? && reply.body.Parsed? && !HttpClient.OkStatus(reply.status) && reply.body.data.JNull? ==>
      r == Failure(MessageReadError)
  {
    match reply
    case NetworkFailure(error) => Failure(error)
    case Received(status, Unparseable(error)) => Failure(error)
    case Received(status, Parsed(data)) =>
      if HttpClient.OkStatus(status) then Success(data)
      else if data.JNull? then Failure(MessageReadError)
      else Failure(HttpErrorLiteral(HttpError(Property(data, "message"), LoginFailed, status)))
  }

  /**
   * `createUser` on how its request through the shared client settled: the
   * response's `data` on success, and otherwise an `AppError` built from the
   * rejection, which is never tagged `REGISTER_FAILED`.
   */
  function CreateUser(outcome: HttpClient.Outcome): (r: Result<Json, AppError>)
    ensures r.Success? <==> outcome.Resolved?
    ensures r.Success? ==> r.value == outcome.response.data
    ensures r.Failure? ==> r.error == FromUnknown(outcome.reason)
    ensures r.Failure? ==> r.error.name != RegisterFailed.Value()
  {
    match outcome
    case Resolved(response) => Success(response.data)
    case Rejected(reason) => Failure(FromUnknown(reason))
  }

  /** The registration request as the shared client builds it, before it is sent. */
  datatype ClientRequest = ClientRequest(url: string, verb: string, headers: map<string, string>, data: Json)

  /** The JSON object axios serialises a `CreateUserPayload` into. */
  function PayloadJson(userInfo: CreateUserPayload): (j: Json)
    ensures j.JObject? && j.fields.Keys == {"email", "password", "name"}
    ensures j.fields["email"] == JString(userInfo.email)
    ensures j.fields["password"] == JString(userInfo.password)
    ensures j.fields["name"] == JString(userInfo.name)
  {
    JObject(map["email" := JString(userInfo.email), "password" := JString(userInfo.password), "name" := JString(userInfo.name)])
  }

  /**
   * The `/register` POST of `createUser` with the store's token at send
   * time: the payload as JSON, the client's default headers (no caller
   * headers), and a bearer credential exactly when the token is non-empty.
   */
  function RegisterRequest(userInfo: CreateUserPayload, token: string): (r: ClientRequest)
    ensures r.url == "/register" && r.verb == "POST" && r.data == PayloadJson(userInfo)
    ensures HttpClient.ContentTypeHeader in r.headers && r.headers[HttpClient.ContentTypeHeader] == HttpClient.JsonMediaType
    ensures HttpClient.AuthorizationHeader in r.headers <==> token != ""
    ensures token != "" ==> HttpClient.ParseBearer(r.headers[HttpClient.AuthorizationHeader]) == Some(token)
    ensures r.headers.Keys == HttpClient.DefaultHeaders.Keys + (if token != "" then {HttpClient.AuthorizationHeader} else {})
  {
    ClientRequest("/register", "POST", HttpClient.WithBearer(HttpClient.RequestHeaders(map[]), token), PayloadJson(userInfo))
  }

  /**
   * Registration goes through the shared client and login does not: the
   * headers the client sends for `/register` are those of RegisterRequest,
   * so a session's token goes out with a registration but never with a login.
   */
  lemma RegisterThroughClient(state: UserAuthenticationData, userInfo: CreateUserPayload, loginData: UserGeneralInformation,
                              reply: HttpClient.Transport)
    requires state.token != ""
    ensures HttpClient.Request(state, HttpClient.RequestHeaders(map[]), reply).sent == RegisterRequest(userInfo, state.token).headers
    ensures HttpClient.AuthorizationHeader in RegisterRequest(userInfo, state.token).headers
    ensures HttpClient.AuthorizationHeader !in LoginRequest(loginData).headers
  {
  }

  /**
   * A rejected registration keeps the axios error's message and response,
   * so the caller still sees the status the server answered with.
   */
  lemma CreateUserKeepsResponse(error: AxiosError)
    ensures CreateUser(HttpClient.Rejected(Axios(error))) ==
      Failure(AppError("Error", error.message, error.stack, error.response))
  {
  }

  /**
   * A failed login on a 401 is a `LOGIN_FAILED` error with that status; no
   * store is involved, so the session is neither read nor reset.
   */
  lemma LoginUnauthorized(data: Json)
    requires !data.JNull?
    ensures FetchUser(Received(401, Parsed(data))).Failure?
    ensures FetchUser(Received(401, Parsed(data))).error.HttpErrorLiteral?
    ensures FetchUser(Received(401, Parsed(data))).error.httpError.status == 401
    ensures FetchUser(Received(401, Parsed(data))).error.httpError.name.Value() == "LOGIN_FAILED"
  {
  }
}
