/**
 * `AppError` of src/utils/appError.ts: an Error built from any thrown
 * value, keeping what an Error carries and an axios error's response.
 */
module AppErrors {
  import opened Wrappers
  import opened Js
  import opened ErrorTypes

  /** The message given to a value that is not an instance of Error. */
  const UnknownMessage := "An unknown error occurred"

  /** Where the runtime captures an `AppError`'s own stack trace. */
  const ConstructorSite := "src/utils/appError.ts:17"

  /**
   * An `AppError` instance. Its `name` is the one it inherits from Error,
   * and `response` stays undefined (None) unless an axios error supplied one.
   */
  datatype AppError = AppError(name: string, message: string, stack: Stack, response: Option<AxiosResponse>)

  /** `new AppError(error)`: the three-way normalisation of a thrown value. */
  function FromUnknown(error: Thrown): (e: AppError)
    ensures e.name == "Error"
    ensures error.IsError() ==> e.message == error.Message() && e.stack == error.StackOf()
    ensures !error.IsError() ==> e.message == UnknownMessage && e.stack == Captured(ConstructorSite)
    ensures e.response.Some? <==> error.Axios? && error.axiosError.response.Some?
    ensures error.Axios? ==> e.response == error.axiosError.response
  {
    if error.IsError() then
      var response := if error.Axios? then error.axiosError.response else None;
      AppError("Error", error.Message(), error.StackOf(), response)
    else
      AppError("Error", UnknownMessage, Captured(ConstructorSite), None)
  }

  /** An `AppError` rethrown: an instance of Error, but not an axios error. */
  function AsThrown(e: AppError): (t: Thrown)
    ensures t.IsError() && !t.Axios?
  {
    NativeError(e.name, e.message, e.stack)
  }

  /**
   * Normalising is stable on message and stack: wrapping an `AppError` in a
   * second `AppError` keeps both, but drops the response, because an
   * `AppError` is not an axios error.
   */
  lemma RewrapKeepsMessageAndStack(error: Thrown)
    ensures FromUnknown(AsThrown(FromUnknown(error))).message == FromUnknown(error).message
    ensures FromUnknown(AsThrown(FromUnknown(error))).stack == FromUnknown(error).stack
    ensures FromUnknown(AsThrown(FromUnknown(error))).response == None
  {
  }

  /**
   * The `HttpError` object literal thrown on a failed login is not an
   * instance of Error, so normalising it loses its message, tag and status.
   */
  lemma HttpErrorLiteralIsUnknown(httpError: HttpError)
    ensures FromUnknown(HttpErrorLiteral(httpError)) == AppError("Error", UnknownMessage, Captured(ConstructorSite), None)
  {
  }
}
