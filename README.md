# Student portal user and authentication service: a Dafny model

This project models the request-decision core of a student-portal HTTP API written in Go.

- **Users table.** It holds users with a name, a unique email, a bcrypt password hash, a role
  (`student` or `admin`) and timestamps.
- **Public endpoints.** Anyone can register and log in. A successful login returns a signed
  credential (an HS256 JWT) carrying the user's id, email and role.
- **Profile endpoints.** Any authenticated caller can read and update their own profile.
- **Admin endpoints.** Only callers whose validated role is `admin` can list, read, update and
  delete users.
- **Events.** Successful registrations, logins and updates schedule an event for the
  `user-auth-events` topic.

One Dafny module corresponds to each core source file:

| Dafny module | Source file (under `internal/`) |
|---|---|
| `AppErrors` | `errors/errors.go` |
| `Models` | `models/user.go` |
| `Config` | `config/config.go` |
| `Jwt` | `utils/jwt.go` |
| `Response` | `utils/response.go` |
| `Pagination` | `utils/pagination.go` |
| `Kafka` | `utils/kafka.go` |
| `AuthMiddleware` | `middleware/auth_middleware.go` |
| `UserRepository` | `repository/user_repository.go` |
| `UserService` | `service/user_service.go` |
| `UserHandler` | `handler/user_handler.go` |
| `AuthHandler` | `handler/auth_handler.go` |
| `Routes` | `routes/routes.go` |

A few small modules support them:

- `Wrappers`: Option and Result.
- `Json`: a JSON value tree.
- `HttpStatus`: status codes and their reason phrases from section 15 of RFC 9110.
- `Strings`: splitting at the first occurrence of a character.
- `Http`: the request as the handlers see it.
- `HandlerFlow`: the early-return shape shared by all handlers.

Each module takes the form of its source:

- **Pure code.** Errors, models, configuration, JWT, responses, pagination, event records and
  handlers become functions and lemmas.
- **Response writer.** The `http.ResponseWriter` becomes the sequence of writes made on it.
  `Observe` gives what a client receives: the first status written, the headers at that moment,
  and the body.
- **RoleMiddleware.** It keeps its loop with `break`, proved equal to the specification
  function `RoleCheck`.
- **Repository.** It is a class owning the table, `rows: map<int, User>`, and the id
  sequence, `nextId`. Its methods write ids and timestamps into the caller's struct as the
  source does. Its listing runs the ordered LIMIT/OFFSET scan as a loop, proved against the
  functions `Ordered` and `Window`.
- **Service.** It is a class over the repository. It adds a ghost log `events` of scheduled
  publishes: `publishAsync` becomes an append to that log.
- **Kafka producer.** It is a class whose `written` field records what the writer accepted.
- **Router.** `SetupRouter` builds a `Mux` object by `Use` and `Mount` calls. Each sub-router
  is a `SubRouter` object that the group's callback configures with `Use` and `Handle`.
  The function `Serve` handles one request. The global middleware runs first. Then the
  sub-router mounted over the path runs its own middleware, and only after that does it look
  up the route, answering 405 or 404 when none fits.

Three behaviours of the token code are worth stating outright:

- **Signing algorithm.** Tokens are signed with HS256, but a token signed with any method of
  the HMAC family is accepted (`Jwt.AnyHmacAccepted`).
- **Optional claims.** The token library treats `exp` as optional and checks `nbf` when present
  (`Jwt.TimeValid`).
- **Issuer.** The issuer is never checked (`Jwt.IssuerNotChecked`).

## Model

| member | source | states |
|---|---|---|
| AppErrors.New | internal/errors/errors.go:20-25 | the error keeps the given code, and a format without `%` becomes the message verbatim |
| AppErrors.SprintfPlainFormat | internal/errors/errors.go:23 | fmt.Sprintf with no operands prints a format without a percent sign unchanged |
| AppErrors.PredefinedTable | internal/errors/errors.go:28-37 | each predefined error's message is its literal and its code is its status |
| AppErrors.LiteralHasNoVerb | internal/errors/errors.go:29-36 | none of the predefined literals contains a formatting verb |
| AppErrors.PredefinedCodes | internal/errors/errors.go:29-36 | the codes are 400, 401, 403, 404, 409, 500, 401 and 409 in table order |
| AppErrors.IdentityNotCode | internal/errors/errors.go:30-36 | distinct predefined errors are distinct values; Unauthorized/InvalidCredentials share 401 and Conflict/EmailExists share 409, but their messages differ |
| AppErrors.AppErrorJson | internal/errors/errors.go:10-13 | the serialised AppError has exactly one key, "error" |
| AppErrors.ErrorIsSerialisedMessage | internal/errors/errors.go:11-17 | the serialised error shows what Error() returns, under "error", and no code |
| HttpStatus.EmittedStatusesHaveText | internal/utils/response.go:32 | every status this service emits has a non-empty reason phrase |
| Models.ToResponseCopiesFields | internal/models/user.go:63-72 | id, name, email, role and both timestamps are copied unchanged |
| Models.ToResponseForgetsPassword | internal/models/user.go:63-72 | two users have the same response exactly when they differ at most in the password |
| Models.PasswordNeverSerialised | internal/models/user.go:9-17 | a user's JSON equals its response's JSON, has no password key, and has exactly the six listed keys |
| Strings.SplitFirstJoin | internal/middleware/auth_middleware.go:27 | splitting `a + c + b` at the first `c`, with no `c` in `a`, gives back `a` and `b` |
| Config.GetEnv | internal/config/config.go:65-70 | a key present in the environment wins, even when empty; otherwise the default |
| Config.LoadConfig | internal/config/config.go:32-63 | every field holds its key's value when the key is set, even to the empty string, and its documented default when unset; JWT_EXPIRY defaults to "24h" and falls back to 24 hours when unparseable; KafkaTopic stays empty |
| Config.DefaultExpiry | internal/config/config.go:39-44 | with an empty environment the token lifetime is 24 hours |
| Config.DatabaseURLRoundTrip | internal/config/config.go:73-75 | when no component contains the separator that ends it, the URL parses back to exactly the configured parts |
| Config.DefaultDatabaseURL | internal/config/config.go:46-75 | the default configuration yields user postgres, password postgres, host localhost, port 5432, database student_portal, sslmode disable |
| Jwt.NewClaims | internal/utils/jwt.go:23-34 | the claims carry exactly the given id, email and role, the fixed issuer, expiry at the first clock read plus the lifetime, and issued-at at the second read |
| Jwt.GenerateToken | internal/utils/jwt.go:22-43 | the token is the HS256 signature of those claims under the configured secret; it fails with InternalServerError exactly when signing fails |
| Jwt.ValidateToken | internal/utils/jwt.go:46-65 | accepts exactly the decodable tokens with an HMAC-family method, the correct MAC under the secret and current time claims, and returns their claims; every failure is Unauthorized |
| Jwt.GenerateThenValidate | internal/utils/jwt.go:22-65 | a generated token validated before expiry yields the same id, email and role |
| Jwt.IssuedLifetime | internal/utils/jwt.go:23-32 | with ordered clock reads, a token lives at most the configured lifetime after issue and names the fixed issuer |
| Jwt.NonHmacRejected | internal/utils/jwt.go:50-52 | a token naming a non-HMAC method is refused with Unauthorized |
| Jwt.AnyHmacAccepted | internal/utils/jwt.go:50 | correctly signed, current HS384 and HS512 tokens are accepted |
| Jwt.BadSignatureRejected | internal/utils/jwt.go:49-58 | a wrong signature is refused with Unauthorized |
| Jwt.ExpiredRejected | internal/utils/jwt.go:56-62 | a token at or past its expiry is refused with the same Unauthorized |
| Jwt.OtherSecretRejected | internal/utils/jwt.go:53 | a token generated under one secret is refused under a secret whose MAC differs |
| Jwt.IssuerNotChecked | internal/utils/jwt.go:49-54 | tokens that differ only in issuer are accepted or refused together, with the same identity |
| Response.WriteJSON | internal/utils/response.go:16-20 | the client sees the given status, Content-Type application/json and the given body |
| Response.SendError | internal/utils/response.go:37-47 | an AppError answers with its code, that code's reason phrase and its message; any other error answers 500, "Internal Server Error", "An unexpected error occurred" |
| Response.SendJSON | internal/utils/response.go:22-51 | the status passes through, with success true and the value as data |
| Response.SendErrorBody | internal/utils/response.go:37-43 | a predefined error's body is exactly success false, the reason phrase and the literal |
| Response.EnvelopeShapes | internal/utils/response.go:9-14 | a success body has no error or message key, and data exactly when given; an error body has no data key |
| Response.ContentTypeBeforeStatus | internal/utils/response.go:16-19 | the content type is set before the status is written |
| AuthMiddleware.SplitN2 | internal/middleware/auth_middleware.go:27 | one part when there is no space, else the text before the first space and everything after it |
| AuthMiddleware.HandleError | internal/middleware/auth_middleware.go:87-97 | an AppError answers with its own code and body {"error": message}; any other error answers as Unauthorized |
| AuthMiddleware.BearerToken | internal/middleware/auth_middleware.go:27-33 | a token is extracted only from a header that is "Bearer", one space and that token |
| AuthMiddleware.BearerTokenExact | internal/middleware/auth_middleware.go:27-33 | the token `t` is extracted exactly when the header is "Bearer " followed by `t` (both directions) |
| AuthMiddleware.Authenticate | internal/middleware/auth_middleware.go:19-45 | an empty header is refused without validation; only the token after "Bearer " is validated; a failed validation halts with its error; success passes the request on with the claims under UserClaimsKey |
| AuthMiddleware.BearerHeader | internal/middleware/auth_middleware.go:27-34 | the validator receives `t` exactly when the header is "Bearer " followed by `t`: the scheme is case-sensitive and `t` may be empty or contain spaces |
| AuthMiddleware.AuthenticatePasses | internal/middleware/auth_middleware.go:33-42 | the request passes exactly when its bearer token validates, and the validated claims are then retrievable; every halt answers 401 |
| AuthMiddleware.RoleMiddleware | internal/middleware/auth_middleware.go:48-74 | missing claims give Unauthorized; a role in the list passes the request unchanged; otherwise Forbidden |
| AuthMiddleware.EmptyRoleListForbids | internal/middleware/auth_middleware.go:58-69 | with no required roles every authenticated caller gets 403 |
| AuthMiddleware.GetUserClaims | internal/middleware/auth_middleware.go:77-85 | the stored claims when present, nil otherwise |
| Pagination.NewPaginationQuery | internal/utils/pagination.go:27-52 | page is at least 1 and defaults to 1; limit is within 1..100, defaults to 10 and is clamped to 100; offset is (page-1)*limit and non-negative |
| Pagination.QueryIdempotent | internal/utils/pagination.go:31-45 | re-parsing a settled page and limit gives the same query |
| Pagination.GoDiv | internal/utils/pagination.go:58 | Go's truncating division agrees with Euclidean division on non-negative operands |
| Pagination.NewPaginationResponse | internal/utils/pagination.go:55-68 | data, page, limit and total are copied; a limit of 0 or less gives 0 pages |
| Pagination.TotalPagesIsCeiling | internal/utils/pagination.go:56-59 | for a positive limit the page count is the least n with n*limit >= total; 0 for no items |
| Kafka.EventRecord | internal/utils/kafka.go:64-103 | the event type is the kind's tag; id, email, name and role are copied; network and agent fields are empty |
| Kafka.EventRecordJsonShape | internal/utils/kafka.go:52-61 | the encoded event has exactly the six set keys; ip_address and user_agent are omitted |
| Kafka.EventTypesDistinct | internal/utils/kafka.go:66-94 | the three tags "user_login", "user_register" and "user_update" are pairwise distinct |
| Kafka.Utf8Char | internal/utils/kafka.go:43 | a character encodes to one to four bytes, the count fixed by its lead byte and by the code point's range: one byte exactly for ASCII, equal to its code; a multi-byte lead is at least 0xC0 and every continuation byte lies in 0x80-0xBF |
| Kafka.Utf8CharDecodes | internal/utils/kafka.go:43 | a character's bytes carry its code point: the lead byte's payload bits, then six bits per continuation byte |
| Kafka.Utf8RoundTrip | internal/utils/kafka.go:43 | decoding the key's bytes gives back the string they were made from |
| Kafka.Utf8Injective | internal/utils/kafka.go:43 | two different keys never produce the same bytes |
| Kafka.Utf8Ascii | internal/utils/kafka.go:43 | an ASCII key's bytes are its character codes |
| Kafka.KafkaProducer.PublishMessage | internal/utils/kafka.go:35-49 | a marshal failure returns a wrapped error and sends nothing; a writer error is returned; otherwise exactly one message with the topic, the key's bytes and the value is sent |
| Kafka.KafkaProducer.PublishEvent | internal/utils/kafka.go:63-103 | sends exactly the event record of that kind to user-auth-events, keyed by the email, or nothing on error |
| Kafka.KafkaProducer.PublishLoginEvent | internal/utils/kafka.go:64-75 | the login record, to user-auth-events, keyed by the email |
| Kafka.KafkaProducer.PublishRegisterEvent | internal/utils/kafka.go:78-89 | the register record, to user-auth-events, keyed by the email |
| Kafka.KafkaProducer.PublishUpdateEvent | internal/utils/kafka.go:92-103 | the update record, to user-auth-events, keyed by the email |
| UserRepository.Window | internal/repository/user_repository.go:141 | LIMIT/OFFSET keeps at most `limit` items, item i being input item offset+i; exactly `limit` when enough remain |
| UserRepository.OrderedFacts | internal/repository/user_repository.go:137-142 | the ordered scan holds every row in range once, without password, with strictly ascending ids |
| UserRepository.OrderedContains | internal/repository/user_repository.go:137-142 | every row in range appears in the ordered scan |
| UserRepository.ListingIsTable | internal/repository/user_repository.go:129-142 | the full listing has as many entries as the table, sorted by id, passwords empty, and contains every row |
| UserRepository.UserRepository.CreateUser | internal/repository/user_repository.go:34-52 | on success a fresh id and both timestamps are written into the caller's user and the row is added; a taken email returns EmailExists and leaves the table unchanged; any other failure returns InternalServerError |
| UserRepository.UserRepository.GetUserByID | internal/repository/user_repository.go:54-72 | the row for the id, NotFound when absent, InternalServerError on failure |
| UserRepository.UserRepository.GetUserByEmail | internal/repository/user_repository.go:74-92 | the one row holding the email, NotFound when none, InternalServerError on failure |
| UserRepository.UserRepository.UpdateUser | internal/repository/user_repository.go:94-114 | only name, email, role and updated_at of that row change; NotFound for a missing id; EmailExists when another row has the email |
| UserRepository.UserRepository.DeleteUser | internal/repository/user_repository.go:116-125 | removes exactly that row, or NotFound when none was affected |
| UserRepository.UserRepository.ListUsers | internal/repository/user_repository.go:127-167 | the rows in id order after `offset`, at most `limit`, without passwords, and the table size; a failure or a negative limit or offset gives InternalServerError |
| UserService.Scheduled | internal/service/user_service.go:39-52 | the scheduled publish names the event and carries the user's id, email, name and role |
| UserService.MergeProfile | internal/service/user_service.go:128-133 | name and email are overwritten exactly when given; the role and everything else are kept |
| UserService.MergeUser | internal/service/user_service.go:158-166 | name, email and role are each overwritten exactly when given; password, id and timestamps are kept |
| UserService.ProfileIsUserUpdateWithoutRole | internal/service/user_service.go:158-166 | a profile update is the admin update with the role left out |
| UserService.MergeIdempotent | internal/service/user_service.go:158-166 | merging a request twice equals merging it once; an empty request changes nothing |
| UserService.UserService.RegisterUser | internal/service/user_service.go:54-84 | a hashing failure gives InternalServerError and leaves the repository untouched; a repository error is returned unchanged with no event; success stores the user under the assigned id, returns its response and schedules exactly one register event |
| UserService.UserService.LoginUser | internal/service/user_service.go:86-120 | an unknown email and a wrong password both give InvalidCredentials; other errors pass through; no token or event on failure; success returns the token and the user's response and schedules one login event |
| UserService.UserService.UpdateProfile | internal/service/user_service.go:122-150 | no role anywhere in the table changes; errors pass through with no write and no event; success stores the merged name and email and schedules one update event |
| UserService.UserService.UpdateUser | internal/service/user_service.go:152-182 | errors pass through with no write and no event; success stores the merged name, email and role and schedules one admin update event |
| UserService.UserService.GetUserByID | internal/service/user_service.go:184-190 | the stored user's response, or the repository's error unchanged |
| UserService.UserService.DeleteUser | internal/service/user_service.go:192-195 | the repository's outcome; the event log is unchanged |
| UserService.UserService.ListUsers | internal/service/user_service.go:197-209 | the responses have the listing's length and order, each the projection of its user, and the total is the table size |
| HandlerFlow.ServiceReply | internal/handler/user_handler.go:39-44 | a service error goes to SendError unchanged; a value is sent with the handler's success status |
| HandlerFlow.ServiceErrorStatus | internal/handler/user_handler.go:39-42 | a service error reaches the client with its own code and message |
| UserHandler.UsersJson | internal/handler/user_handler.go:80 | the list encodes one element per user, in order |
| UserHandler.GetOwnProfile | internal/handler/user_handler.go:31-45 | without claims the answer is Unauthorized and the service is not called; otherwise the service gets the caller's own id |
| UserHandler.UpdateOwnProfile | internal/handler/user_handler.go:48-68 | Unauthorized without claims; BadRequest for a body that does not decode; otherwise the caller's id and the decoded request |
| UserHandler.ListUsers | internal/handler/user_handler.go:71-74 | the service is always called, with the clamped limit and its offset |
| UserHandler.ListUsersReply | internal/handler/user_handler.go:75-81 | a service error goes to SendError unchanged; a result is wrapped by NewPaginationResponse and sent with 200 |
| UserHandler.GetUserByID | internal/handler/user_handler.go:85-100 | an id that does not parse gives BadRequest without calling the service; otherwise the parsed id |
| UserHandler.UpdateUser | internal/handler/user_handler.go:103-124 | the id is checked before the body; either failing gives BadRequest; otherwise the id and the decoded request |
| UserHandler.DeleteUser | internal/handler/user_handler.go:127-133 | an id that does not parse gives BadRequest; otherwise the parsed id |
| UserHandler.DeleteUserReply | internal/handler/user_handler.go:135-140 | a service error goes to SendError unchanged; success answers 204 with a success envelope without data |
| UserHandler.SuccessStatuses | internal/handler/user_handler.go:44-140 | successful gets, updates and lists answer 200 and a deletion 204; failures answer with the error's own code |
| UserHandler.NoClaimsUnauthorized | internal/handler/user_handler.go:32-53 | without claims both own-profile handlers answer 401 without a service call |
| UserHandler.BadIdBeforeBody | internal/handler/user_handler.go:86-133 | an unparseable id on any admin handler answers 400 whatever the body |
| AuthHandler.RegisterAsWritten | internal/handler/auth_handler.go:30-46 | as written: a body that does not decode is answered by SendError with `ErrBadRequest` of `internal/commons/errors`; otherwise the decoded request goes to the service |
| AuthHandler.LoginAsWritten | internal/handler/auth_handler.go:49-63 | as written: the same foreign error value for a body that does not decode; otherwise the decoded request goes to the service |
| AuthHandler.UndecodableBodyAnswers500 | internal/handler/auth_handler.go:32-34 | as written, an undecodable registration or login body gets 500 "An unexpected error occurred", because SendError's assertion names the `internal/errors` type |
| AuthHandler.Register | internal/handler/auth_handler.go:30-46 | corrected: BadRequest of `internal/errors` for a body that does not decode; otherwise the decoded request goes to the service |
| AuthHandler.Login | internal/handler/auth_handler.go:49-63 | corrected: BadRequest of `internal/errors` for a body that does not decode; otherwise the decoded request goes to the service |
| AuthHandler.UndecodableBodyAnswers400 | internal/handler/auth_handler.go:51-53 | corrected, an undecodable registration or login body gets 400 "Bad Request" with the BadRequest message |
| AuthHandler.BadRequestReply | internal/utils/response.go:37-43 | SendError of the BadRequest value writes status 400, phrase "Bad Request" and the BadRequest message |
| AuthHandler.AuthStatuses | internal/handler/auth_handler.go:39-62 | registration answers 201 and login 200; EmailExists becomes 409 and InvalidCredentials 401 |
| AuthHandler.AnyRolePasses | internal/handler/auth_handler.go:36-39 | no field validation: any role string in a decoded body reaches the service |
| Routes.SubRouter.Use | internal/routes/routes.go:42 | middleware is appended to the sub-router, and only before its first route |
| Routes.SubRouter.Handle | internal/routes/routes.go:43-44 | appends exactly one route to the sub-router |
| Routes.Mux.Use | internal/routes/routes.go:20-31 | middleware is appended, and only before anything is mounted |
| Routes.Mux.Mount | internal/routes/routes.go:34 | appends the configured sub-router at its prefix, keeping its middleware and routes |
| Routes.ConfigureAuth | internal/routes/routes.go:34-37 | the auth callback registers POST /register and POST /login with no middleware |
| Routes.ConfigureProfile | internal/routes/routes.go:41-45 | the profile callback adds authentication and then GET / and PUT / |
| Routes.ConfigureUsers | internal/routes/routes.go:47-53 | the users callback adds authentication and the admin gate, then the four admin routes |
| Routes.SetupRouter | internal/routes/routes.go:16-57 | the mux ends with the logger, recoverer and CORS as global middleware and exactly the three sub-routers with their middleware and routes |
| Routes.SubPath | internal/routes/routes.go:34-53 | a mounted sub-router routes on what follows its prefix, and on "/" when nothing follows |
| Routes.FindGroup | internal/routes/routes.go:34-53 | a found sub-router is mounted over the path; none is found only when no prefix covers the path |
| Routes.FindRoute | internal/routes/routes.go:43-52 | a found route has the request's method and a pattern matching the sub-path; none is found only when no route fits |
| Routes.ServeMounted | internal/routes/routes.go:42-52 | a sub-router answers exactly when its middleware halts; otherwise it reaches a route fitting method and path, or 405 when only other methods fit the path, or 404 when nothing fits the path |
| Routes.Dispatch | internal/routes/routes.go:16-57 | a halt in the global middleware is the answer; a path below no mount point is 404 |
| Routes.Serve | internal/routes/routes.go:16-57 | the global middleware is transparent: the answer is the covering sub-router's, or 404 when no sub-router covers the path |
| Routes.GlobalPassesThrough | internal/routes/routes.go:20-31 | the global middleware passes every request on unchanged |
| Routes.GroupOf | internal/routes/routes.go:34-53 | the three mount points are disjoint, and each path below one is served by that sub-router |
| Routes.ServeBy | internal/routes/routes.go:34-53 | below a mount point, the router's answer is that sub-router's answer |
| Routes.PublicRoutesOpen | internal/routes/routes.go:34-37 | register and login are reached with the request as it came, with no authentication |
| Routes.AuthChain | internal/routes/routes.go:42 | the profile chain is exactly the authentication middleware |
| Routes.AdminChain | internal/routes/routes.go:48 | the users chain is authentication, then the admin gate on the authenticated request |
| Routes.ProfileGroupGated | internal/routes/routes.go:41-45 | every request below /api/profile, routed or not, is answered by authentication exactly when its token fails |
| Routes.UsersGroupGated | internal/routes/routes.go:47-53 | every request below /api/users, routed or not, is answered by authentication or by 403 unless a validated admin makes it |
| Routes.NoTokenUnauthorized | internal/routes/routes.go:41-53 | without an Authorization header, everything below either protected prefix gets 401, the unrouted methods and paths included |
| Routes.ProfileRoutes | internal/routes/routes.go:41-45 | GET and PUT on /api/profile, with or without the trailing slash, resolve to their handlers |
| Routes.ProfileNeedsOnlyAuthentication | internal/routes/routes.go:41-45 | the profile routes are reached exactly by authenticated callers of any role, with the claims stored |
| Routes.UsersRouteRegistered | internal/routes/routes.go:47-53 | GET on the list path and GET, PUT and DELETE on a non-empty {id} resolve to their handlers |
| Routes.UsersRequireAdmin | internal/routes/routes.go:47-53 | an admin route is reached exactly when the token validates and the role is admin |
| Routes.UsersRootOnlyGet | internal/routes/routes.go:49-52 | the users root path has a route for GET only |
| Routes.UnregisteredMethodNotAllowed | internal/routes/routes.go:47-53 | an admin using another method on /api/users/ gets 405, after both middlewares have passed |
| Routes.UnmountedNotFound | internal/routes/routes.go:16-57 | a path below no mount point gets 404 |
| Routes.StudentForbidden | internal/routes/routes.go:48 | an authenticated student gets 403 on everything below /api/users |
| Routes.ExpiredTokenUnauthorized | internal/routes/routes.go:41-53 | an expired bearer token gets 401 everywhere below the protected prefixes |
| Routes.OnlyAdminGate | internal/routes/routes.go:42-48 | the only role gate is admin, no sub-router requires student, and every non-empty chain starts with authentication |

## Left out

- **Wire formats.** HMAC-SHA256, base64url, JSON encoding and decoding, and bcrypt are kept
  abstract:
  - the token library is the `Crypto` value, and `Sound` is all that is assumed of it;
  - a decoded request body is an `Option` per request type;
  - `HashPassword` and `CheckPasswordHash` are given as a result and a function.
- **Password hashing cost.** The comment in `internal/utils/password.go` says cost 14 while the
  code uses `MinCost+4`. The model does not depend on the cost.
- **Clock.** Clock reads and `NOW()` are integer parameters. `NumericDate`'s truncation to whole
  seconds is not modelled.
- **Database.** SQL execution, connection pooling and concurrency are not modelled. A database
  or scan failure is a boolean parameter.
- **Table schema.** It is not in the source. The model assumes a BIGSERIAL id starting at 1, a
  UNIQUE email and timestamps defaulting to `NOW()`.
- **Id sequence gaps.** A unique violation still consumes a sequence value, so ids can have gaps.
- **Snapshot.** The count query and the listing query read the same snapshot.
- **UserRepository.UserRepository.ListUsers.** The database's ordered scan is fused with the
  `rows.Next()` loop. Its loop over ids is not a copy of the Go loop over returned rows.
- **Event delivery.** The `publishAsync` goroutine, its background context, delivery and the
  logging of its outcome are not modelled. The service records the scheduled publish in the
  ghost log `events` and does not call the producer.
- **KafkaProducer.** Writer construction and `Close` are not modelled. The message time is a
  parameter.
- **Middleware and routing.**
  - RequestLogger, Recoverer and CORS pass every request on unchanged. CORS preflight answers,
    CORS headers and panic recovery are not modelled.
  - The URL path is given already split into segments. The parsing of the `{id}` segment is
    given as the parsed id.
  - The `/api` sub-router has no middleware and no routes of its own. Its two children are
    modelled as mounted at their full prefixes.
  - The bodies of chi's 404 and 405 answers and its `Allow` header are not modelled.
- **Response pointers.** `ToResponsePtr` returns a pointer to a fresh copy of `ToResponse`;
  the model passes the value, so the pointer's identity is not modelled.
- **Handlers.** Each handler is its decision step and the reply to the service result. The model
  does not compose a handler with the service class into one member.
- **UserHandler.DeleteUserReply.** The trace keeps the envelope written after status 204, which
  net/http discards; the client sees the status only.
- **Integer width.** Ids and page arithmetic use unbounded integers, so int64 wrap-around is
  not modelled.
- Pagination.NewPaginationQuery: does not model the wrap of `(page-1)*limit`, which a query
  parameter can reach. `?page=922337203685477582` with the default limit passes strconv.Atoi,
  and the offset wraps to -9223372036854775806. PostgreSQL refuses a negative OFFSET, so the
  source answers 500. The model's offset is never negative and answers 200 with an empty page.
- **Assumed constants.** `internal/utils/pagination.go` reads DefaultPage, DefaultLimit and
  MaxLimit from `internal/commons/constants`. `internal/routes/routes.go` reads RoleAdmin from
  `internal/enums`. Neither package is part of this model. The model takes the values of
  `internal/constants/constants.go:4-13` (1, 10 and 100) and of
  `internal/commons/enums/role.go:7` (`"admin"`).
- **Foreign errors package.** `internal/commons/errors` is not part of this model. Its
  `ErrBadRequest` is modelled as an error value that is not an `*errors.AppError` of
  `internal/errors`, which is what distinct import paths make it in Go.
- **AppErrors.New.** fmt.Sprintf is modelled for formats without operands only: `%%`, a verb
  with no operand, and a trailing `%`. Flags, width and precision are not interpreted.
- **Not part of this model.**
  - `cmd/api/main.go`: process lifecycle, signals and server goroutine.
  - The Kafka consumer and admin client.
  - The logger and the logging middleware.
  - Loading the `.env` file: the environment is given as a map.

## Findings

| source | as written | input that shows it | evidently intended | confidence | as-written member | corrected member |
|---|---|---|---|---|---|---|
| internal/handler/auth_handler.go:33 | Register passes `ErrBadRequest` of `internal/commons/errors` to SendError, whose type assertion (`internal/utils/response.go:38`) names `internal/errors.AppError`, so the fallback 500 branch answers | `POST /api/auth/register` with body `{` | 400 "Bad Request" with the BadRequest message, as the user handlers do with `internal/errors` | not executed; holds unless `internal/commons/errors` declares its AppError as a type alias of the `internal/errors` one | AuthHandler.RegisterAsWritten, AuthHandler.UndecodableBodyAnswers500 | AuthHandler.Register, AuthHandler.UndecodableBodyAnswers400 |
| internal/handler/auth_handler.go:52 | Login passes the same foreign `ErrBadRequest`, so an undecodable body gets 500 | `POST /api/auth/login` with body `{` | 400 "Bad Request" with the BadRequest message | not executed; holds unless `internal/commons/errors` declares its AppError as a type alias of the `internal/errors` one | AuthHandler.LoginAsWritten, AuthHandler.UndecodableBodyAnswers500 | AuthHandler.Login, AuthHandler.UndecodableBodyAnswers400 |
