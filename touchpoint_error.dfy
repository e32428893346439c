/**
 * The structured error the availability probe rejects with when the service
 * answers with an error status (index.js:11-19).
 */
module TouchpointErrors {
  import opened Wrappers
  import opened JsValues

  const UnknownError := "Unknown error"

  /**
   * `message` is the value handed to Error's constructor (its conversion to a
   * string is not modelled). `reason` and `errorCode` are None when the
   * property was never set on the error object, Some(v) when it was set to v,
   * possibly to undefined.
   */
  datatype TouchpointError = TouchpointError(message: JsValue, reason: Option<JsValue>, errorCode: Option<JsValue>)

  /** The error built from a response body, which may be null or undefined. */
  function FromBody(body: JsValue): (e: TouchpointError)
    ensures IsNullish(body) ==> e == TouchpointError(Str(UnknownError), None, None)
    ensures !IsNullish(body) ==> e.reason.Some? && e.errorCode.Some?
    ensures !IsNullish(body) ==> e.message == Get(body, "message")
    ensures !IsNullish(body) ==> e.errorCode.value == Get(body, "error")
    // the body's reason is kept when it is truthy, and falls back to the message otherwise
    ensures !IsNullish(body) && Truthy(Get(body, "reason")) ==> e.reason.value == Get(body, "reason")
    ensures !IsNullish(body) && !Truthy(Get(body, "reason")) ==> e.reason.value == e.message
    ensures !IsNullish(body) ==>
              (Truthy(e.reason.value) <==> Truthy(Get(body, "reason")) || Truthy(Get(body, "message")))
  {
    if IsNullish(body) then
      TouchpointError(Str(UnknownError), None, None)
    else
      TouchpointError(Get(body, "message"), Some(Or(Get(body, "reason"), Get(body, "message"))), Some(Get(body, "error")))
  }
}
