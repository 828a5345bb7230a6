/** The records of src/types/user.ts. */
module UserTypes {

  /** `UserGeneralInformation`, which is also the login payload `FetchUserPayload`. */
  datatype UserGeneralInformation = UserGeneralInformation(email: string, password: string)

  /** `CreateUserPayload`: the registration form without its confirmation field. */
  datatype CreateUserPayload = CreateUserPayload(email: string, password: string, name: string)

  /** `UserAuthenticationData`: the whole session record the store holds. */
  datatype UserAuthenticationData = UserAuthenticationData(
    user: UserGeneralInformation,
    token: string,
    message: string,
    isLogged: bool)
}

/** The error shapes of src/types/error.ts and the values code can throw. */
module ErrorTypes {
  import opened Wrappers
  import opened Js

  /** The `ErrorType` string enum. */
  datatype ErrorType = LoginFailed | RegisterFailed {
    function Value(): (s: string)
      ensures s == "LOGIN_FAILED" <==> this == LoginFailed
      ensures s == "REGISTER_FAILED" <==> this == RegisterFailed
    {
      match this
      case LoginFailed => "LOGIN_FAILED"
      case RegisterFailed => "REGISTER_FAILED"
    }
  }

  /**
   * `HttpError`. Its `message` is copied from an unchecked JSON body, so
   * it is whatever JSON value the body held, or undefined (None).
   */
  datatype HttpError = HttpError(message: Option<Json>, name: ErrorType, status: int)

  /**
   * A value that code throws or a promise rejects with, classified the way
   * `instanceof Error` and `axios.isAxiosError` see it.
   */
  datatype Thrown =
    /** An `HttpError` built as an object literal: not an instance of Error. */
    | HttpErrorLiteral(httpError: HttpError)
    /** Any other value that is not an instance of Error. */
    | OtherValue(value: Json)
    /** An instance of Error (TypeError, SyntaxError, ...) that is not an axios error. */
    | NativeError(name: string, message: string, stack: Stack)
    /** An axios error, which is also an instance of Error. */
    | Axios(axiosError: AxiosError)
  {
    /** `value instanceof Error`. */
    predicate IsError() {
      NativeError? || Axios?
    }

    /** `error.message` of an Error instance. */
    function Message(): (m: string)
      requires IsError()
    {
      if NativeError? then message else axiosError.message
    }

    /** `error.stack` of an Error instance. */
    function StackOf(): (s: Stack)
      requires IsError()
    {
      if NativeError? then stack else axiosError.stack
    }
  }
}
