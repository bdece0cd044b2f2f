/**
 * The authentication and authorization interceptors. A middleware either halts with a reply
 * (the next handler never runs) or passes a request on to the next handler, which then runs
 * exactly once with that request.
 */
module AuthMiddleware {
  import opened Wrappers
  import opened Strings
  import opened AppErrors
  import opened Response
  import opened Config
  import opened Jwt
  import opened Http

  /** The context key under which the verified claims are stored. */
  const UserClaimsKey := "userClaims"

  datatype Outcome = Halt(reply: Reply) | Next(req: Request)

  /** strings.SplitN(s, " ", 2). */
  function SplitN2(s: string): (parts: seq<string>)
    ensures 1 <= |parts| <= 2
    ensures |parts| == 1 <==> ' ' !in s
    ensures |parts| == 1 ==> parts[0] == s
    ensures |parts| == 2 ==> s == parts[0] + " " + parts[1] && ' ' !in parts[0]
  {
    match SplitFirst(s, ' ')
    case None => [s]
    case Some((before, after)) => [before, after]
  }

  /** handleError: an AppError's own code with body {"error": message}; any other error counts as Unauthorized. */
  function HandleError(err: GoError): (r: Reply)
    ensures err.App? ==>
      Observe(r) == Observed(Code(err.kind), Some("application/json"), Some(AppErrorJson(Predefined(err.kind))))
    ensures err.Plain? ==>
      Observe(r) == Observed(Code(Unauthorized), Some("application/json"), Some(AppErrorJson(Predefined(Unauthorized))))
  {
    var appErr := if err.App? then Predefined(err.kind) else Predefined(Unauthorized);
    WriteJSON(appErr.code, AppErrorJson(appErr))
  }

  /** What AuthMiddleware did: the token it handed to ValidateToken, if it called it, and its outcome. */
  datatype AuthResult = AuthResult(validated: Option<string>, outcome: Outcome)

  /**
   * The token of an Authorization header: everything after the first space, provided the
   * text before it is exactly "Bearer".
   */
  function BearerToken(authHeader: string): (token: Option<string>)
    ensures token.Some? ==> authHeader == "Bearer " + token.value
  {
    var parts := SplitN2(authHeader);
    if |parts| != 2 || parts[0] != "Bearer" then None else Some(parts[1])
  }

  /**
   * The header is accepted for validation exactly when it is "Bearer", one space and the
   * token: the scheme is case-sensitive and the token is everything after the first space,
   * unchanged (it may be empty or contain spaces).
   */
  lemma {:induction false} BearerTokenExact(authHeader: string, token: string)
    ensures BearerToken(authHeader) == Some(token) <==> authHeader == "Bearer " + token
  {
    if authHeader == "Bearer " + token {
      assert "Bearer " + token == "Bearer" + [' '] + token;
      SplitFirstJoin("Bearer", ' ', token);
    }
  }

  /** AuthMiddleware at clock value `now`. */
  function Authenticate(cfg: Config, crypto: Crypto, now: int, req: Request): (r: AuthResult)
    ensures req.authorization == "" ==> r == AuthResult(None, Halt(HandleError(App(Unauthorized))))
    ensures req.authorization != "" ==> r.validated == BearerToken(req.authorization)
    ensures r.validated.None? ==> r.outcome == Halt(HandleError(App(Unauthorized)))
    ensures r.validated.Some? ==>
      match ValidateToken(cfg, crypto, r.validated.value, now)
      case Err(e) => r.outcome == Halt(HandleError(App(e)))
      case Ok(claims) => r.outcome == Next(req.(ctx := req.ctx[UserClaimsKey := claims]))
  {
    if req.authorization == "" then AuthResult(None, Halt(HandleError(App(Unauthorized))))
    else
      match BearerToken(req.authorization)
      case None => AuthResult(None, Halt(HandleError(App(Unauthorized))))
      case Some(tokenStr) =>
        match ValidateToken(cfg, crypto, tokenStr, now)
        case Err(e) => AuthResult(Some(tokenStr), Halt(HandleError(App(e))))
        case Ok(claims) => AuthResult(Some(tokenStr), Next(req.(ctx := req.ctx[UserClaimsKey := claims])))
  }

  /** The validator receives `token` exactly when the header is "Bearer ", then `token`. */
  lemma BearerHeader(cfg: Config, crypto: Crypto, now: int, req: Request, token: string)
    ensures Authenticate(cfg, crypto, now, req).validated == Some(token) <==> req.authorization == "Bearer " + token
  {
    BearerTokenExact(req.authorization, token);
  }

  /** Authentication lets a request through exactly when the bearer token validates, and the claims are then in its context. */
  lemma AuthenticatePasses(cfg: Config, crypto: Crypto, now: int, req: Request)
    ensures var r := Authenticate(cfg, crypto, now, req);
      r.outcome.Next? <==> r.validated.Some? && ValidateToken(cfg, crypto, r.validated.value, now).Ok?
    ensures var r := Authenticate(cfg, crypto, now, req);
      r.outcome.Next? ==>
        GetUserClaims(r.outcome.req.ctx) == Some(ValidateToken(cfg, crypto, r.validated.value, now).value)
    ensures var r := Authenticate(cfg, crypto, now, req);
      r.outcome.Halt? ==> Observe(r.outcome.reply) == Observe(HandleError(App(Unauthorized)))
  {
  }

  /** The authorization decision: RoleMiddleware's specification. */
  function RoleCheck(requiredRoles: seq<string>, req: Request): Outcome
  {
    if UserClaimsKey !in req.ctx then Halt(HandleError(App(Unauthorized)))
    else if req.ctx[UserClaimsKey].role in requiredRoles then Next(req)
    else Halt(HandleError(App(Forbidden)))
  }

  /** RoleMiddleware: a linear scan of the required roles for the caller's role. */
  method RoleMiddleware(requiredRoles: seq<string>, req: Request) returns (out: Outcome)
    ensures out == RoleCheck(requiredRoles, req)
    ensures UserClaimsKey !in req.ctx ==> out == Halt(HandleError(App(Unauthorized)))
    ensures UserClaimsKey in req.ctx && req.ctx[UserClaimsKey].role in requiredRoles ==> out == Next(req)
    ensures UserClaimsKey in req.ctx && req.ctx[UserClaimsKey].role !in requiredRoles ==>
      out == Halt(HandleError(App(Forbidden)))
  {
    if UserClaimsKey !in req.ctx {
      return Halt(HandleError(App(Unauthorized)));
    }
    var claims := req.ctx[UserClaimsKey];
    var hasPermission := false;
    var i := 0;
    while i < |requiredRoles|
      invariant 0 <= i <= |requiredRoles|
      invariant !hasPermission
      invariant claims.role !in requiredRoles[..i]
    {
      if claims.role == requiredRoles[i] {
        hasPermission := true;
        break;
      }
      i := i + 1;
    }
    assert !hasPermission ==> requiredRoles[..i] == requiredRoles;
    if !hasPermission {
      return Halt(HandleError(App(Forbidden)));
    }
    out := Next(req);
  }

  /** With no required roles at all, every authenticated caller is forbidden. */
  lemma EmptyRoleListForbids(req: Request)
    requires UserClaimsKey in req.ctx
    ensures RoleCheck([], req) == Halt(HandleError(App(Forbidden)))
    ensures Observe(RoleCheck([], req).reply).status == 403
  {
    PredefinedTable(Forbidden);
  }

  /** GetUserClaims: the stored claims, or nil when the authentication middleware did not run. */
  function GetUserClaims(ctx: map<string, UserClaims>): (c: Option<UserClaims>)
    ensures c.Some? <==> UserClaimsKey in ctx
    ensures c.Some? ==> c.value == ctx[UserClaimsKey]
  {
    if UserClaimsKey in ctx then Some(ctx[UserClaimsKey]) else None
  }
}
