/**
 * The decision flow of the user-management handlers. Each handler is a step (answer now, or
 * call the service with this argument) and a reply built from the service's result.
 */
module UserHandler {
  import opened Wrappers
  import opened Json
  import opened AppErrors
  import opened Models
  import opened Response
  import opened Http
  import opened Pagination
  import opened AuthMiddleware
  import opened HandlerFlow

  function UserResponseJson(u: UserResponse): Json
  {
    ResponseJson(u)
  }

  function UsersJson(us: seq<UserResponse>): (j: Json)
    ensures j.JArr? && |j.items| == |us|
    ensures forall i :: 0 <= i < |us| ==> j.items[i] == ResponseJson(us[i])
  {
    JArr(seq(|us|, i requires 0 <= i < |us| => ResponseJson(us[i])))
  }

  /** GetOwnProfile: the caller's own id from the claims, or Unauthorized when there are none. */
  function GetOwnProfile(req: Request): (s: Step<int>)
    ensures GetUserClaims(req.ctx).None? <==> s.Respond?
    ensures s.Respond? ==> s.reply == SendError(App(Unauthorized))
    ensures s.CallService? ==> s.arg == req.ctx[UserClaimsKey].userID
  {
    match GetUserClaims(req.ctx)
    case None => Respond(SendError(App(Unauthorized)))
    case Some(claims) => CallService(claims.userID)
  }

  function GetOwnProfileReply(result: Result<UserResponse, ErrorKind>): Reply
  {
    ServiceReply(result, 200, UserResponseJson)
  }

  /**
   * UpdateOwnProfile: claims are checked before the body is decoded; a body that does not
   * decode is a BadRequest; otherwise the caller's own id and the decoded request.
   */
  function UpdateOwnProfile(req: Request): (s: Step<(int, UpdateProfileRequest)>)
    ensures GetUserClaims(req.ctx).None? ==> s == Respond(SendError(App(Unauthorized)))
    ensures GetUserClaims(req.ctx).Some? && req.body.profile.None? ==> s == Respond(SendError(App(BadRequest)))
    ensures s.CallService? <==> GetUserClaims(req.ctx).Some? && req.body.profile.Some?
    ensures s.CallService? ==> s.arg == (req.ctx[UserClaimsKey].userID, req.body.profile.value)
  {
    match GetUserClaims(req.ctx)
    case None => Respond(SendError(App(Unauthorized)))
    case Some(claims) =>
      match req.body.profile
      case None => Respond(SendError(App(BadRequest)))
      case Some(body) => CallService((claims.userID, body))
  }

  function UpdateOwnProfileReply(result: Result<UserResponse, ErrorKind>): Reply
  {
    ServiceReply(result, 200, UserResponseJson)
  }

  /** ListUsers: no early return; the service gets the clamped limit and its offset. */
  function ListUsers(req: Request): (s: Step<(int, int)>)
    ensures s.CallService?
    ensures var q := NewPaginationQuery(req.pageParam, req.limitParam);
      s.arg == (q.limit, q.offset) && 1 <= q.limit <= MaxLimit && q.offset >= 0
  {
    var query := NewPaginationQuery(req.pageParam, req.limitParam);
    CallService((query.limit, query.offset))
  }

  /** The page's users wrapped with the query's pagination metadata. */
  function ListUsersReply(req: Request, result: Result<(seq<UserResponse>, int), ErrorKind>): (r: Reply)
    ensures result.Err? ==> r == SendError(App(result.error))
    ensures result.Ok? ==>
      var query := NewPaginationQuery(req.pageParam, req.limitParam);
      var page := NewPaginationResponse(UsersJson(result.value.0), query, result.value.1);
      Observe(r) == Observed(200, Some("application/json"),
        Some(EnvelopeJson(Envelope(true, Some(PaginationResponseJson(page)), "", ""))))
  {
    var query := NewPaginationQuery(req.pageParam, req.limitParam);
    match result
    case Err(e) => SendError(App(e))
    case Ok((users, totalCount)) =>
      SendJSON(200, Some(PaginationResponseJson(NewPaginationResponse(UsersJson(users), query, totalCount))))
  }

  /** The admin handlers' path id: a BadRequest when it is not a base-10 int64. */
  function GetUserByID(req: Request): (s: Step<int>)
    ensures req.idParam.None? <==> s.Respond?
    ensures s.Respond? ==> s.reply == SendError(App(BadRequest))
    ensures s.CallService? ==> s.arg == req.idParam.value
  {
    match req.idParam
    case None => Respond(SendError(App(BadRequest)))
    case Some(id) => CallService(id)
  }

  function GetUserByIDReply(result: Result<UserResponse, ErrorKind>): Reply
  {
    ServiceReply(result, 200, UserResponseJson)
  }

  /** UpdateUser: the id is checked before the body is decoded. */
  function UpdateUser(req: Request): (s: Step<(int, UpdateUserRequest)>)
    ensures req.idParam.None? ==> s == Respond(SendError(App(BadRequest)))
    ensures req.idParam.Some? && req.body.update.None? ==> s == Respond(SendError(App(BadRequest)))
    ensures s.CallService? <==> req.idParam.Some? && req.body.update.Some?
    ensures s.CallService? ==> s.arg == (req.idParam.value, req.body.update.value)
  {
    match req.idParam
    case None => Respond(SendError(App(BadRequest)))
    case Some(id) =>
      match req.body.update
      case None => Respond(SendError(App(BadRequest)))
      case Some(body) => CallService((id, body))
  }

  function UpdateUserReply(result: Result<UserResponse, ErrorKind>): Reply
  {
    ServiceReply(result, 200, UserResponseJson)
  }

  function DeleteUser(req: Request): (s: Step<int>)
    ensures req.idParam.None? <==> s.Respond?
    ensures s.Respond? ==> s.reply == SendError(App(BadRequest))
    ensures s.CallService? ==> s.arg == req.idParam.value
  {
    match req.idParam
    case None => Respond(SendError(App(BadRequest)))
    case Some(id) => CallService(id)
  }

  /** DeleteUser answers 204 with a success envelope without data, or the service's error. */
  function DeleteUserReply(err: Option<ErrorKind>): (r: Reply)
    ensures err.Some? ==> r == SendError(App(err.value))
    ensures err.None? ==> Observe(r) == Observed(204, Some("application/json"),
      Some(EnvelopeJson(Envelope(true, None, "", ""))))
  {
    match err
    case Some(e) => SendError(App(e))
    case None => SendJSON(204, None)
  }

  /** Statuses: 200 for reads, updates and lists, 204 for deletion; any other answer is a predefined error's code. */
  lemma {:induction false} SuccessStatuses(user: Result<UserResponse, ErrorKind>, req: Request,
                                           list: Result<(seq<UserResponse>, int), ErrorKind>, del: Option<ErrorKind>)
    ensures user.Ok? ==>
      && Observe(GetOwnProfileReply(user)).status == 200
      && Observe(UpdateOwnProfileReply(user)).status == 200
      && Observe(GetUserByIDReply(user)).status == 200
      && Observe(UpdateUserReply(user)).status == 200
    ensures list.Ok? ==> Observe(ListUsersReply(req, list)).status == 200
    ensures del.None? ==> Observe(DeleteUserReply(del)).status == 204
    ensures user.Err? ==> Observe(GetUserByIDReply(user)).status == Code(user.error)
    ensures list.Err? ==> Observe(ListUsersReply(req, list)).status == Code(list.error)
    ensures del.Some? ==> Observe(DeleteUserReply(del)).status == Code(del.value)
  {
    if user.Err? {
      ServiceErrorStatus(user.error, 200, UserResponseJson);
    }
  }

  /** Without claims the own-profile handlers answer 401 and never reach the service. */
  lemma NoClaimsUnauthorized(req: Request)
    requires UserClaimsKey !in req.ctx
    ensures GetOwnProfile(req).Respond? && UpdateOwnProfile(req).Respond?
    ensures Observe(GetOwnProfile(req).reply).status == 401
    ensures Observe(UpdateOwnProfile(req).reply).status == 401
  {
    PredefinedTable(Unauthorized);
  }

  /** A path id that does not parse answers 400 before the body is looked at, for every admin handler that takes one. */
  lemma BadIdBeforeBody(req: Request, body: Body)
    requires req.idParam.None?
    ensures GetUserByID(req) == DeleteUser(req) == Respond(SendError(App(BadRequest)))
    ensures UpdateUser(req.(body := body)) == Respond(SendError(App(BadRequest)))
    ensures Observe(SendError(App(BadRequest))).status == 400
  {
    PredefinedTable(BadRequest);
  }
}
