/** The decision flow of the public registration and login handlers. */
module AuthHandler {
  import opened Wrappers
  import opened Json
  import opened AppErrors
  import opened Models
  import opened Response
  import opened Http
  import opened HandlerFlow
  import opened HttpStatus

  /**
   * The error auth_handler.go passes for an undecodable body. It is `ErrBadRequest` of the
   * package internal/commons/errors, and that is not the internal/errors type that SendError's
   * type assertion names. SendError treats it like any other error, and ignores its text.
   */
  const CommonsBadRequest: GoError := Plain("bad request")

  /** Register as written: an undecodable body reaches SendError as a foreign error value. */
  function RegisterAsWritten(req: Request): (s: Step<RegisterRequest>)
    ensures req.body.register.None? <==> s.Respond?
    ensures s.Respond? ==> s.reply == SendError(CommonsBadRequest)
    ensures s.CallService? ==> s.arg == req.body.register.value
  {
    match req.body.register
    case None => Respond(SendError(CommonsBadRequest))
    case Some(body) => CallService(body)
  }

  /** Login as written: the same foreign error value for an undecodable body. */
  function LoginAsWritten(req: Request): (s: Step<LoginRequest>)
    ensures req.body.login.None? <==> s.Respond?
    ensures s.Respond? ==> s.reply == SendError(CommonsBadRequest)
    ensures s.CallService? ==> s.arg == req.body.login.value
  {
    match req.body.login
    case None => Respond(SendError(CommonsBadRequest))
    case Some(body) => CallService(body)
  }

  /** As written, an undecodable registration or login body is answered 500, not 400. */
  lemma UndecodableBodyAnswers500(req: Request)
    ensures req.body.register.None? ==>
      Observe(RegisterAsWritten(req).reply) == Observed(500, Some("application/json"),
        Some(EnvelopeJson(Envelope(false, None, "Internal Server Error", "An unexpected error occurred"))))
    ensures req.body.login.None? ==>
      Observe(LoginAsWritten(req).reply) == Observed(500, Some("application/json"),
        Some(EnvelopeJson(Envelope(false, None, "Internal Server Error", "An unexpected error occurred"))))
  {
  }

  /** As intended, and as the user handlers do: an undecodable body is answered 400 with its message. */
  lemma UndecodableBodyAnswers400(req: Request)
    ensures req.body.register.None? ==>
      Observe(Register(req).reply) == Observed(400, Some("application/json"),
        Some(EnvelopeJson(Envelope(false, None, "Bad Request", Message(BadRequest)))))
    ensures req.body.login.None? ==>
      Observe(Login(req).reply) == Observed(400, Some("application/json"),
        Some(EnvelopeJson(Envelope(false, None, "Bad Request", Message(BadRequest)))))
  {
    BadRequestReply();
  }

  /** The reply SendError writes for internal/errors' BadRequest. */
  lemma BadRequestReply()
    ensures Observe(SendError(App(BadRequest))) == Observed(400, Some("application/json"),
      Some(EnvelopeJson(Envelope(false, None, "Bad Request", Message(BadRequest)))))
  {
    var c, m := Code(BadRequest), Message(BadRequest);
    assert Observe(SendError(App(BadRequest))) == Observed(c, Some("application/json"),
      Some(EnvelopeJson(Envelope(false, None, StatusText(c), m))));
    assert c == 400 by { PredefinedCodes(); }
    BadRequestText(c);
  }

  /**
   * Register, corrected to pass internal/errors' BadRequest: a body that does not decode is a
   * BadRequest; no field is validated here.
   */
  function Register(req: Request): (s: Step<RegisterRequest>)
    ensures req.body.register.None? <==> s.Respond?
    ensures s.Respond? ==> s.reply == SendError(App(BadRequest))
    ensures s.CallService? ==> s.arg == req.body.register.value
  {
    match req.body.register
    case None => Respond(SendError(App(BadRequest)))
    case Some(body) => CallService(body)
  }

  function RegisterReply(result: Result<UserResponse, ErrorKind>): Reply
  {
    ServiceReply(result, 201, ResponseJson)
  }

  /** Login, corrected like Register. */
  function Login(req: Request): (s: Step<LoginRequest>)
    ensures req.body.login.None? <==> s.Respond?
    ensures s.Respond? ==> s.reply == SendError(App(BadRequest))
    ensures s.CallService? ==> s.arg == req.body.login.value
  {
    match req.body.login
    case None => Respond(SendError(App(BadRequest)))
    case Some(body) => CallService(body)
  }

  function LoginReply(result: Result<LoginResponse, ErrorKind>): Reply
  {
    ServiceReply(result, 200, LoginResponseJson)
  }

  /** 201 for a registration, 200 for a login; a taken email answers 409 and bad credentials 401. */
  lemma AuthStatuses(reg: Result<UserResponse, ErrorKind>, login: Result<LoginResponse, ErrorKind>)
    ensures reg.Ok? ==> Observe(RegisterReply(reg)).status == 201
    ensures login.Ok? ==> Observe(LoginReply(login)).status == 200
    ensures reg == Err(EmailExists) ==> Observe(RegisterReply(reg)).status == 409
    ensures login == Err(InvalidCredentials) ==> Observe(LoginReply(login)).status == 401
  {
    if reg == Err(EmailExists) {
      ServiceErrorStatus(EmailExists, 201, ResponseJson);
      PredefinedCodes();
    }
    if login == Err(InvalidCredentials) {
      ServiceErrorStatus(InvalidCredentials, 200, LoginResponseJson);
      PredefinedCodes();
    }
  }

  /** Any role string in a decoded registration body reaches the service untouched. */
  lemma AnyRolePasses(req: Request, role: string)
    requires req.body.register.Some?
    ensures Register(req.(body := req.body.(register := Some(req.body.register.value.(role := role)))))
      == CallService(req.body.register.value.(role := role))
  {
  }
}
