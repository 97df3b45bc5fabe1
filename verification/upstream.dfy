/**
 * What the route handlers get back from the gateway call, what they answer,
 * and how a caught error becomes an HTTP answer.
 */
module Upstream {
  import opened Wrappers
  import opened Js

  /** `err.response` of an axios error: the gateway's non-2xx status and body (`undefined` when absent). */
  datatype ErrorResponse = ErrorResponse(status: int, data: Option<Json>)

  /** What a `catch (err)` block sees: `err.response` (only for HTTP error replies) and `err.message`. */
  datatype Caught = Caught(response: Option<ErrorResponse>, message: string)

  /** The outcome of an awaited gateway call: the 2xx reply's parsed body, or the thrown error. */
  datatype Reply = Answered(data: Json) | Threw(error: Caught)

  /** A JSON answer, a plain-text answer, or Express's default error page for an uncaught throw. */
  datatype Body = JsonBody(value: Json) | TextBody(text: string) | ErrorPage

  /** The status code and body a handler sends. */
  datatype HttpResponse = HttpResponse(code: int, body: Body)

  /** Fallback code when no truthy upstream status exists. */
  const InternalError: int := 500

  /**
   * `err.response?.status || 500`: the gateway's status when a response
   * exists and its status is truthy (non-zero), otherwise 500.
   */
  function ErrorCode(e: Caught): (code: int)
    ensures code != 0
    ensures e.response.Some? && e.response.value.status != 0 ==> code == e.response.value.status
    ensures code != InternalError ==> e.response.Some? && code == e.response.value.status
  {
    if e.response.Some? && e.response.value.status != 0 then e.response.value.status else InternalError
  }

  /** `{ message: err.message }`. */
  function MessageBody(message: string): Json {
    JObj(map["message" := JStr(message)])
  }

  /**
   * `err.response?.data || { message: err.message }`: the gateway's body when
   * a response carries a truthy one, otherwise an object holding the error
   * message. Either way the body is truthy.
   */
  function ErrorBody(e: Caught): (body: Json)
    ensures Truthy(Some(body))
    ensures e.response.Some? && Truthy(e.response.value.data) ==> Some(body) == e.response.value.data
    ensures !(e.response.Some? && Truthy(e.response.value.data)) ==> body == MessageBody(e.message)
  {
    if e.response.Some? && Truthy(e.response.value.data) then e.response.value.data.value
    else MessageBody(e.message)
  }

  /** The answer both gateway-calling routes give for a caught error. */
  function ErrorReply(e: Caught): HttpResponse {
    HttpResponse(ErrorCode(e), JsonBody(ErrorBody(e)))
  }

  /**
   * A gateway error reply with a non-zero status and a truthy body is passed
   * through verbatim; anything else becomes a 500-or-status answer carrying
   * the error message.
   */
  lemma ErrorReplyPassesUpstreamThrough(e: Caught)
    ensures e.response.Some? && e.response.value.status != 0 && Truthy(e.response.value.data) ==>
      ErrorReply(e) == HttpResponse(e.response.value.status, JsonBody(e.response.value.data.value))
    ensures e.response.None? ==> ErrorReply(e) == HttpResponse(InternalError, JsonBody(MessageBody(e.message)))
  {
  }
}
