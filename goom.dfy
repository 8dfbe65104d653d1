/** The outbound forwarder `sendToGoom` (server.js:42-77). The HTTP POST
    itself is not modelled: its outcome is supplied by a gateway oracle, and
    the model keeps only how that outcome becomes a forward result. */
module Goom {
  import opened Wrappers
  import opened Js

  /** What the HTTP client's `post` did: resolved with a response, or
      rejected with an error message and, when the server answered, its
      response (the client rejects non-2xx answers by default). */
  datatype Exchange =
    | Resolved(status: int, data: Value)
    | Rejected(message: string, response: Option<(int, Value)>)

  /** The outcome of the k-th POST of one inbound request for the given
      payload. Network, timeout and the gateway's behaviour live here. */
  type Gateway = (nat, Value) -> Exchange

  /** `{ success, status, data, error }`; an absent field is `None` or
      `Undefined`. */
  datatype ForwardResult = ForwardResult(success: bool, status: Option<int>, data: Value, error: Option<string>)

  /** The JSON payload `{ email, action: "validate_quote" }` posted for an email. */
  function Payload(email: Value): Value {
    Obj(map["email" := email, "action" := Str("validate_quote")])
  }

  /** How the try/catch of `sendToGoom` reports the POST: a resolved POST
      reports success with the response's status and data; a rejected one
      reports failure with the error message and whatever response came
      with it. */
  function ResultOf(x: Exchange): (r: ForwardResult)
    ensures r.success <==> x.Resolved?
    ensures r.error.Some? <==> !r.success
    ensures x.Resolved? ==> r.status == Some(x.status) && r.data == x.data
    ensures x.Rejected? ==> r.error == Some(x.message)
    ensures x.Rejected? && x.response.None? ==> r.status.None? && r.data == Undefined
    ensures x.Rejected? && x.response.Some? ==> r.status == Some(x.response.value.0) && r.data == x.response.value.1
  {
    match x
    case Resolved(status, data) =>
      ForwardResult(true, Some(status), data, None)
    case Rejected(message, response) =>
      ForwardResult(false,
                    if response.Some? then Some(response.value.0) else None,
                    if response.Some? then response.value.1 else Undefined,
                    Some(message))
  }

  /** `sendToGoom(email)` as the k-th POST of a request. It never throws.
      Its first log line converts `email` to a string inside the `try`; when
      that throws, nothing is posted and the TypeError becomes a failed
      result. Otherwise the POST's outcome becomes the result. */
  function SendToGoom(net: Gateway, k: nat, email: Value): (r: ForwardResult)
    ensures r.success ==> Printable(email)
    ensures !Printable(email) ==> r == ForwardResult(false, None, Undefined, Some(CannotConvert))
    ensures Printable(email) ==> r == ResultOf(net(k, Payload(email)))
  {
    if !Printable(email) then ForwardResult(false, None, Undefined, Some(CannotConvert))
    else ResultOf(net(k, Payload(email)))
  }
}
