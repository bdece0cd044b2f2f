/**
 * The uniform response envelope and the helpers that write it. A reply is the sequence of
 * operations performed on the http.ResponseWriter.
 */
module Response {
  import opened Wrappers
  import opened Json
  import opened HttpStatus
  import opened AppErrors

  datatype WriteOp =
    | SetHeader(name: string, value: string)
    | WriteHeader(status: int)
    | WriteBody(body: Json)

  type Reply = seq<WriteOp>

  /** The envelope. Data None is a nil interface; data, error and message are omitempty. */
  datatype Envelope = Envelope(success: bool, data: Option<Json>, error: string, message: string)

  function EnvelopeJson(e: Envelope): Json
  {
    JObj([Field("success", JBool(e.success))]
         + (if e.data.Some? then [Field("data", e.data.value)] else [])
         + (if e.error != "" then [Field("error", JStr(e.error))] else [])
         + (if e.message != "" then [Field("message", JStr(e.message))] else []))
  }

  /** The status the client receives: the first WriteHeader, or 200 if the body is written first. */
  function StatusOf(r: Reply): int
  {
    if r == [] then StatusOK
    else match r[0]
      case WriteHeader(s) => s
      case WriteBody(_) => StatusOK
      case SetHeader(_, _) => StatusOf(r[1..])
  }

  /** The value a header has when the response is committed: headers set after that are lost. */
  function HeaderOf(r: Reply, name: string): Option<string>
  {
    HeaderFrom(r, name, None)
  }

  function HeaderFrom(r: Reply, name: string, current: Option<string>): Option<string>
  {
    if r == [] then current
    else match r[0]
      case SetHeader(n, v) => HeaderFrom(r[1..], name, if n == name then Some(v) else current)
      case _ => current
  }

  /** The body written, if any. */
  function BodyOf(r: Reply): Option<Json>
  {
    if r == [] then None
    else match r[0]
      case WriteBody(b) => Some(b)
      case _ => BodyOf(r[1..])
  }

  /** What a client observes of a reply. */
  datatype Observed = Observed(status: int, contentType: Option<string>, body: Option<Json>)

  function Observe(r: Reply): Observed
  {
    Observed(StatusOf(r), HeaderOf(r, "Content-Type"), BodyOf(r))
  }

  function WriteJSON(statusCode: int, data: Json): (r: Reply)
    ensures Observe(r) == Observed(statusCode, Some("application/json"), Some(data))
  {
    var ops := [SetHeader("Content-Type", "application/json"), WriteHeader(statusCode), WriteBody(data)];
    assert ops[1..] == [WriteHeader(statusCode), WriteBody(data)];
    assert ops[1..][1..] == [WriteBody(data)];
    assert StatusOf(ops) == statusCode;
    assert BodyOf(ops) == BodyOf(ops[1..]) == BodyOf(ops[1..][1..]) == Some(data);
    assert HeaderFrom(ops, "Content-Type", None) == HeaderFrom(ops[1..], "Content-Type", Some("application/json"))
      == Some("application/json");
    ops
  }

  function WriteSuccess(statusCode: int, data: Option<Json>): Reply
  {
    WriteJSON(statusCode, EnvelopeJson(Envelope(true, data, "", "")))
  }

  function WriteError(statusCode: int, message: string): Reply
  {
    WriteJSON(statusCode, EnvelopeJson(Envelope(false, None, StatusText(statusCode), message)))
  }

  /**
   * SendError: an AppError answers with its own code, the code's reason phrase and its
   * message; any other error answers 500 with a fixed message that reveals nothing.
   */
  function SendError(err: GoError): (r: Reply)
    ensures err.App? ==> Observe(r) == Observed(Code(err.kind), Some("application/json"),
      Some(EnvelopeJson(Envelope(false, None, StatusText(Code(err.kind)), Message(err.kind)))))
    ensures err.Plain? ==> Observe(r) == Observed(500, Some("application/json"),
      Some(EnvelopeJson(Envelope(false, None, "Internal Server Error", "An unexpected error occurred"))))
  {
    match err
    case App(k) =>
      var appErr := Predefined(k);
      WriteJSON(appErr.code, EnvelopeJson(Envelope(false, None, StatusText(appErr.code), appErr.message)))
    case Plain(_) =>
      WriteError(StatusInternalServerError, "An unexpected error occurred")
  }

  function SendJSON(statusCode: int, data: Option<Json>): (r: Reply)
    ensures Observe(r) == Observed(statusCode, Some("application/json"),
      Some(EnvelopeJson(Envelope(true, data, "", ""))))
  {
    WriteSuccess(statusCode, data)
  }

  /** The body a predefined error produces through SendError, spelled out. */
  lemma SendErrorBody(k: ErrorKind)
    ensures BodyOf(SendError(App(k))) == Some(JObj([Field("success", JBool(false)),
      Field("error", JStr(StatusText(Code(k)))), Field("message", JStr(Literal(k)))]))
  {
    PredefinedTable(k);
    EmittedStatusesHaveText(Code(k));
    LiteralNonEmpty(k);
    ErrorEnvelope(StatusText(Code(k)), Literal(k));
  }

  lemma ErrorEnvelope(error: string, message: string)
    requires error != "" && message != ""
    ensures EnvelopeJson(Envelope(false, None, error, message))
      == JObj([Field("success", JBool(false)), Field("error", JStr(error)), Field("message", JStr(message))])
  {
  }

  lemma LiteralNonEmpty(k: ErrorKind)
    ensures Literal(k) != ""
  {
  }

  /** A success envelope never shows error or message, and an error envelope never shows data. */
  lemma EnvelopeShapes(data: Option<Json>, statusCode: int, message: string)
    ensures var ks := Keys(EnvelopeJson(Envelope(true, data, "", "")).fields);
      "error" !in ks && "message" !in ks && ("data" in ks <==> data.Some?)
    ensures var ks := Keys(EnvelopeJson(Envelope(false, None, StatusText(statusCode), message)).fields);
      "data" !in ks && "success" in ks
  {
    var s := EnvelopeJson(Envelope(true, data, "", ""));
    if data.Some? {
      assert Keys(s.fields) == ["success", "data"];
    } else {
      assert Keys(s.fields) == ["success"];
    }
    var e := EnvelopeJson(Envelope(false, None, StatusText(statusCode), message));
    var tail := (if StatusText(statusCode) != "" then [Field("error", JStr(StatusText(statusCode)))] else [])
                + (if message != "" then [Field("message", JStr(message))] else []);
    assert e.fields == [Field("success", JBool(false))] + tail;
    assert Keys(e.fields)[0] == "success";
    assert forall i :: 0 <= i < |tail| ==> tail[i].key != "data";
    assert forall i :: 0 <= i < |e.fields| ==> e.fields[i].key != "data";
  }

  /** The JSON content type is set before the status is written, so it is in force on every reply. */
  lemma ContentTypeBeforeStatus(statusCode: int, data: Json)
    ensures var r := WriteJSON(statusCode, data);
      r[0] == SetHeader("Content-Type", "application/json") && r[1].WriteHeader?
  {
  }
}
