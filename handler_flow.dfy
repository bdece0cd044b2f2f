/**
 * The shape shared by every HTTP handler: it either answers at once (an early return) or
 * calls one service operation with the argument it worked out, and then answers from that
 * operation's result.
 */
module HandlerFlow {
  import opened Wrappers
  import opened Json
  import opened AppErrors
  import opened HttpStatus
  import opened Response

  datatype Step<A> = Respond(reply: Reply) | CallService(arg: A)

  /** The answer to a service result: its error through SendError unchanged, or its value with `status`. */
  function ServiceReply<T>(result: Result<T, ErrorKind>, status: int, encode: T -> Json): (r: Reply)
    ensures result.Err? ==> r == SendError(App(result.error))
    ensures result.Ok? ==> Observe(r) == Observed(status, Some("application/json"),
      Some(EnvelopeJson(Envelope(true, Some(encode(result.value)), "", ""))))
  {
    match result
    case Err(e) => SendError(App(e))
    case Ok(v) => SendJSON(status, Some(encode(v)))
  }

  /** A service error reaches the client with its own status and message, whatever the handler. */
  lemma ServiceErrorStatus<T>(e: ErrorKind, status: int, encode: T -> Json)
    ensures Observe(ServiceReply(Err(e), status, encode)).status == Code(e)
    ensures Observe(ServiceReply(Err(e), status, encode)).body ==
      Some(EnvelopeJson(Envelope(false, None, StatusText(Code(e)), Message(e))))
  {
  }
}
