/**
 * The application's error taxonomy: an AppError carries an HTTP status code and a
 * client-facing message, and the eight predefined errors are distinguished by identity.
 */
module AppErrors {
  import opened HttpStatus
  import opened Json

  /** An AppError value: the code is never serialised, the message appears under "error". */
  datatype AppError = AppError(code: int, message: string)

  /**
   * The predefined error values. Go compares them by pointer identity, so two of
   * them may share a code (Unauthorized and InvalidCredentials, Conflict and EmailExists)
   * and still be different errors.
   */
  datatype ErrorKind =
    | BadRequest
    | Unauthorized
    | Forbidden
    | NotFound
    | Conflict
    | InternalServerError
    | InvalidCredentials
    | EmailExists

  /** A Go `error` as this core sees it: one of the predefined AppErrors, or any other error value. */
  datatype GoError = App(kind: ErrorKind) | Plain(text: string)

  /** The Error() method of an AppError. */
  function Error(e: AppError): string
  {
    e.message
  }

  /**
   * fmt.Sprintf applied to a format and no operands: "%%" prints a percent sign, a verb
   * with nothing to print becomes "%!v(MISSING)", and a lone trailing percent becomes "%!(NOVERB)".
   */
  function SprintfNoArgs(format: string): string
    decreases |format|
  {
    if format == [] then ""
    else if format[0] != '%' then [format[0]] + SprintfNoArgs(format[1..])
    else if |format| == 1 then "%!(NOVERB)"
    else if format[1] == '%' then "%" + SprintfNoArgs(format[2..])
    else "%!" + [format[1]] + "(MISSING)" + SprintfNoArgs(format[2..])
  }

  /** A format without a percent sign prints as itself. */
  lemma {:induction false} SprintfPlainFormat(format: string)
    ensures '%' !in format ==> SprintfNoArgs(format) == format
    decreases |format|
  {
    if format != [] && '%' !in format {
      assert format[0] != '%';
      assert '%' !in format[1..] by {
        forall i | 0 <= i < |format[1..]| ensures format[1..][i] != '%' {
          assert format[1..][i] == format[i + 1];
        }
      }
      SprintfPlainFormat(format[1..]);
      assert format == [format[0]] + format[1..];
    }
  }

  /** New(code, format) with no further arguments. */
  function New(code: int, format: string): (e: AppError)
    ensures e.code == code
    ensures '%' !in format ==> e.message == format
  {
    SprintfPlainFormat(format);
    AppError(code, SprintfNoArgs(format))
  }

  /** The literal message each predefined error is created with. */
  function Literal(k: ErrorKind): string
  {
    match k
    case BadRequest => "Invalid request payload or parameters"
    case Unauthorized => "Authentication required"
    case Forbidden => "Insufficient permissions"
    case NotFound => "Resource not found"
    case Conflict => "Resource already exists"
    case InternalServerError => "An unexpected error occurred"
    case InvalidCredentials => "Invalid email or password"
    case EmailExists => "Email already exists"
  }

  /** The status code each predefined error is created with. */
  function StatusOf(k: ErrorKind): int
  {
    match k
    case BadRequest => StatusBadRequest
    case Unauthorized => StatusUnauthorized
    case Forbidden => StatusForbidden
    case NotFound => StatusNotFound
    case Conflict => StatusConflict
    case InternalServerError => StatusInternalServerError
    case InvalidCredentials => StatusUnauthorized
    case EmailExists => StatusConflict
  }

  /** The predefined error values, each built by New. */
  function Predefined(k: ErrorKind): AppError
  {
    New(StatusOf(k), Literal(k))
  }

  /** The table of predefined errors: each carries its code, and its literal verbatim as message. */
  lemma PredefinedTable(k: ErrorKind)
    ensures Predefined(k).message == Literal(k)
    ensures Predefined(k).code == StatusOf(k)
  {
    LiteralHasNoVerb(k);
  }

  /** No character of `s` is '%'. */
  predicate NoPercent(s: string)
  {
    forall i | 0 <= i < |s| :: s[i] != '%'
  }

  /** None of the literals contains a formatting verb. */
  lemma LiteralHasNoVerb(k: ErrorKind)
    ensures '%' !in Literal(k)
  {
    if k.BadRequest? || k.Unauthorized? || k.Forbidden? || k.NotFound? {
      RequestLiteralsHaveNoVerb(k);
    } else {
      OutcomeLiteralsHaveNoVerb(k);
    }
  }

  /** The messages of the request-level errors are free of '%'. */
  lemma RequestLiteralsHaveNoVerb(k: ErrorKind)
    requires k.BadRequest? || k.Unauthorized? || k.Forbidden? || k.NotFound?
    ensures NoPercent(Literal(k))
  {
    match k
    case BadRequest => assert NoPercent("Invalid request payload or parameters");
    case Unauthorized => assert NoPercent("Authentication required");
    case Forbidden => assert NoPercent("Insufficient permissions");
    case NotFound => assert NoPercent("Resource not found");
  }

  /** The messages of the outcome-level errors are free of '%'. */
  lemma OutcomeLiteralsHaveNoVerb(k: ErrorKind)
    requires k.Conflict? || k.InternalServerError? || k.InvalidCredentials? || k.EmailExists?
    ensures NoPercent(Literal(k))
  {
    match k
    case Conflict => assert NoPercent("Resource already exists");
    case InternalServerError => assert NoPercent("An unexpected error occurred");
    case InvalidCredentials => assert NoPercent("Invalid email or password");
    case EmailExists => assert NoPercent("Email already exists");
  }

  /** The status codes of the predefined errors. */
  lemma PredefinedCodes()
    ensures Predefined(BadRequest).code == 400 && Predefined(Unauthorized).code == 401
    ensures Predefined(Forbidden).code == 403 && Predefined(NotFound).code == 404
    ensures Predefined(Conflict).code == 409 && Predefined(InternalServerError).code == 500
    ensures Predefined(InvalidCredentials).code == 401 && Predefined(EmailExists).code == 409
  {
  }

  /** Code and message of a predefined error value. */
  function Code(k: ErrorKind): int { Predefined(k).code }
  function Message(k: ErrorKind): string { Predefined(k).message }

  /**
   * Errors are told apart by identity, not by code: distinct predefined errors always have
   * distinct messages, although two pairs of them share a status code.
   */
  lemma IdentityNotCode(k1: ErrorKind, k2: ErrorKind)
    ensures k1 != k2 ==> Predefined(k1) != Predefined(k2)
    ensures Code(Unauthorized) == Code(InvalidCredentials) && Message(Unauthorized) != Message(InvalidCredentials)
    ensures Code(Conflict) == Code(EmailExists) && Message(Conflict) != Message(EmailExists)
  {
    PredefinedTable(k1);
    PredefinedTable(k2);
    PredefinedTable(Unauthorized);
    PredefinedTable(InvalidCredentials);
    PredefinedTable(Conflict);
    PredefinedTable(EmailExists);
  }

  /** The JSON encoding of an AppError: the code is omitted and the message sits under "error". */
  function AppErrorJson(e: AppError): (j: Json)
    ensures j.JObj? && Keys(j.fields) == ["error"]
  {
    JObj([Field("error", JStr(e.message))])
  }

  /** What Error() returns is exactly the text clients see in the serialised error. */
  lemma ErrorIsSerialisedMessage(e: AppError)
    ensures AppErrorJson(e) == JObj([Field("error", JStr(Error(e)))])
    ensures !HasKey(AppErrorJson(e), "code")
  {
  }
}
