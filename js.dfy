/**
 * The JavaScript runtime values the core exchanges with its collaborators:
 * parsed JSON bodies, stack traces and the shapes axios gives to responses
 * and to failed requests.
 */
module Js {
  import opened Wrappers

  /** A parsed JSON value. Numbers are kept as integers. */
  datatype Json =
    | JNull
    | JBool(b: bool)
    | JNumber(n: int)
    | JString(s: string)
    | JArray(items: seq<Json>)
    | JObject(fields: map<string, Json>)

  /**
   * Reading `value.key` on a JSON value that is not `null`: the field when
   * an object has it, `undefined` (None) otherwise. Reading a property of
   * `null` throws instead, so callers test for JNull first.
   */
  function Property(value: Json, key: string): (r: Option<Json>)
    requires !value.JNull?
    ensures r.Some? <==> value.JObject? && key in value.fields
    ensures r.Some? ==> r.value == value.fields[key]
  {
    if value.JObject? && key in value.fields then Some(value.fields[key]) else None
  }

  /**
   * An error's `stack` property: absent, or the trace the runtime captured
   * when the error object was created at the named place.
   */
  datatype Stack = NoStack | Captured(site: string)

  /** An axios response: its HTTP status and its decoded `data`. */
  datatype AxiosResponse = AxiosResponse(status: int, data: Json)

  /**
   * The error axios rejects a request with. `response` is undefined (None)
   * when no response arrived at all (a network failure, a timeout).
   */
  datatype AxiosError = AxiosError(message: string, stack: Stack, response: Option<AxiosResponse>)
}
