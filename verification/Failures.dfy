/** Failures of an upstream call, and the two questions the gateway asks of them: may the same model
be tried again, and may the next model be tried instead. */
module Failures {
  import opened Strings

  // What the concrete type of the error says, without unwrapping.
  datatype Kind = IdleTimeout | Api(code: string, status: int) | Plain

  // text is the rendered message; wrapsCanceled says that the error is or wraps context.Canceled.
  datatype Failure = Failure(text: string, wrapsCanceled: bool, kind: Kind)

  const CONTEXT_EXCEEDED := "chat-rag.context_length_exceeded"
  const SERVICE_UNAVAILABLE := "chat-rag.model_services_unavailable"
  const MODEL_UNAVAILABLE := "chat-rag.model_unavailable"
  const UNAUTHORIZED := "chat-rag.model_services_unauthorized"
  const TOO_MANY_REQUESTS := "chat-rag.too_many_requests"
  const NETWORK_ERROR := "chat-rag.network_interrupt"
  const SERVER_BUSY := "chat-rag.server_busy"
  const INVALID_RESPONSE := "chat-rag.invalid_response_content"
  const EMPTY_CONTENT := "chat-rag.empty_message_content"

  predicate IsContextLength(f: Failure) {
    Index(f.text, "This model's maximum context length") >= 0 || Index(f.text, "Input text is too long") >= 0
  }

  predicate IsSameModelRetryable(f: Failure, contextCanceled: bool) {
    if f.wrapsCanceled || contextCanceled then false
    else if IsContextLength(f) then false
    else
      match f.kind
      case IdleTimeout => true
      case Plain => true
      case Api(code, status) =>
        if code in [CONTEXT_EXCEEDED, UNAUTHORIZED, EMPTY_CONTENT, MODEL_UNAVAILABLE] then false
        else if code in [SERVER_BUSY, NETWORK_ERROR] then true
        else if status == 408 then true
        else if status in [400, 401, 403, 404, 429] then false
        else status >= 500
  }

  predicate IsSwitchable(f: Failure, contextCanceled: bool) {
    if f.wrapsCanceled || contextCanceled then false
    else if IsContextLength(f) then false
    else
      match f.kind
      case IdleTimeout => true
      case Plain => true
      case Api(code, status) =>
        if code in [CONTEXT_EXCEEDED, UNAUTHORIZED, EMPTY_CONTENT] then false
        else if status == 400 then true
        else if status in [401, 403] then false
        else if status in [408, 429] then true
        else if code in [SERVICE_UNAVAILABLE, MODEL_UNAVAILABLE, TOO_MANY_REQUESTS, SERVER_BUSY, NETWORK_ERROR,
                         INVALID_RESPONSE]
          then true
        else status >= 500
  }

  // The error built from an upstream HTTP status.
  function HttpStatusError(status: int, text: string): Failure {
    var code :=
      if status == 404 then MODEL_UNAVAILABLE
      else if status == 401 then UNAUTHORIZED
      else if status == 429 then TOO_MANY_REQUESTS
      else if status == 413 then CONTEXT_EXCEEDED
      else if status == 504 then SERVER_BUSY
      else SERVICE_UNAVAILABLE;
    Failure(text, false, Api(code, status))
  }

  /** A failure worth retrying on the same model is worth trying on the next one, with one exception:
  a busy or network code that arrives with status 401 or 403. */
  lemma RetryableIsSwitchable(f: Failure)
    requires IsSameModelRetryable(f, false)
    ensures IsSwitchable(f, false) <==>
            !(f.kind.Api? && f.kind.status in [401, 403] && f.kind.code in [SERVER_BUSY, NETWORK_ERROR])
  {
  }

  /** For a failure built from an HTTP status the two questions have short answers: the same model is
  tried again on 408 and from 500 up, the next model on everything but 401, 403 and 413. So whatever is
  worth a retry is worth a switch. */
  lemma HttpErrorsByStatus(status: int, text: string, contextCanceled: bool)
    ensures var f := HttpStatusError(status, text);
            var open := !contextCanceled && !IsContextLength(f);
            && (IsSameModelRetryable(f, contextCanceled) <==> open && (status == 408 || status >= 500))
            && (IsSwitchable(f, contextCanceled) <==> open && status !in [401, 403, 413])
  {
  }
}
