/**
 * The business operations over the users table. Password hashing and checking are given as
 * their results, the clock as values, and database failures as flags per repository call.
 * publishAsync is modelled as an append to the ghost log `events` of scheduled publishes:
 * the goroutine and its delivery are outside the model.
 */
module UserService {
  import opened Wrappers
  import opened AppErrors
  import opened Models
  import opened Config
  import opened Jwt
  import opened Kafka
  import UserRepository

  /**
   * A publish scheduled by publishAsync: the name it is logged under, the producer call the
   * closure makes, and that call's arguments.
   */
  datatype Pending = Pending(eventName: string, kind: EventKind, userID: int, email: string, name: string, role: string)

  /** The closure each operation schedules for the user `u`. */
  function Scheduled(eventName: string, kind: EventKind, u: User): (p: Pending)
    ensures p.eventName == eventName && p.kind == kind
    ensures p.userID == u.id && p.email == u.email && p.name == u.name && p.role == u.role
  {
    Pending(eventName, kind, u.id, u.email, u.name, u.role)
  }

  /** What UpdateProfile does to the fetched user: each non-nil field overwrites, and nothing else. */
  function MergeProfile(u: User, req: UpdateProfileRequest): (m: User)
    ensures m.role == u.role && m.password == u.password && m.id == u.id
    ensures m.createdAt == u.createdAt && m.updatedAt == u.updatedAt
    ensures m.name == (if req.name.Some? then req.name.value else u.name)
    ensures m.email == (if req.email.Some? then req.email.value else u.email)
  {
    var m := if req.name.Some? then u.(name := req.name.value) else u;
    if req.email.Some? then m.(email := req.email.value) else m
  }

  /** What UpdateUser does to the fetched user: name, email and role each overwritten exactly when given. */
  function MergeUser(u: User, req: UpdateUserRequest): (m: User)
    ensures m.password == u.password && m.id == u.id
    ensures m.createdAt == u.createdAt && m.updatedAt == u.updatedAt
    ensures m.name == (if req.name.Some? then req.name.value else u.name)
    ensures m.email == (if req.email.Some? then req.email.value else u.email)
    ensures m.role == (if req.role.Some? then req.role.value else u.role)
  {
    var m := if req.name.Some? then u.(name := req.name.value) else u;
    var m := if req.email.Some? then m.(email := req.email.value) else m;
    if req.role.Some? then m.(role := req.role.value) else m
  }

  /** A profile update is an admin update that leaves the role out. */
  lemma ProfileIsUserUpdateWithoutRole(u: User, req: UpdateProfileRequest)
    ensures MergeProfile(u, req) == MergeUser(u, UpdateUserRequest(req.name, req.email, None))
  {
  }

  /** Merging twice changes nothing more, and an empty request changes nothing. */
  lemma MergeIdempotent(u: User, req: UpdateUserRequest)
    ensures MergeUser(MergeUser(u, req), req) == MergeUser(u, req)
    ensures MergeUser(u, UpdateUserRequest(None, None, None)) == u
  {
  }

  /** The row the repository's UpdateUser leaves for user `m` at time `now`. */
  function Updated(row: User, m: User, now: int): User
  {
    row.(name := m.name, email := m.email, role := m.role, updatedAt := now)
  }

  class UserService {
    const repo: UserRepository.UserRepository
    const cfg: Config
    const crypto: Crypto
    /** The publishes scheduled so far, oldest first. */
    ghost var events: seq<Pending>

    ghost predicate Valid()
      reads this, repo
    {
      repo.Valid()
    }

    constructor (repo: UserRepository.UserRepository, cfg: Config, crypto: Crypto)
      requires repo.Valid()
      ensures Valid() && this.repo == repo && this.cfg == cfg && this.crypto == crypto && events == []
    {
      this.repo := repo;
      this.cfg := cfg;
      this.crypto := crypto;
      events := [];
    }

    /**
     * RegisterUser. `hashed` is HashPassword's result (None when hashing fails). On success
     * the stored user carries the repository-assigned id and timestamps, and one register
     * event for it is scheduled.
     */
    method RegisterUser(req: RegisterRequest, hashed: Option<string>, now: int, dbFailure: bool)
      returns (r: Result<UserResponse, ErrorKind>)
      requires Valid()
      modifies this, repo
      ensures Valid()
      ensures hashed.None? ==> r == Err(InternalServerError) && unchanged(repo) && events == old(events)
      ensures hashed.Some? && dbFailure ==>
        r == Err(InternalServerError) && repo.rows == old(repo.rows) && events == old(events)
      ensures hashed.Some? && !dbFailure && old(repo.EmailTaken(req.email, 0)) ==>
        r == Err(EmailExists) && repo.rows == old(repo.rows) && events == old(events)
      ensures hashed.Some? && !dbFailure && !old(repo.EmailTaken(req.email, 0)) ==>
        var u := User(old(repo.nextId), req.name, req.email, hashed.value, req.role, now, now);
        && r == Ok(ToResponse(u))
        && repo.rows == old(repo.rows)[u.id := u]
        && events == old(events) + [Scheduled("user_registered", Register, u)]
    {
      if hashed.None? {
        return Err(InternalServerError);
      }
      var user := User(0, req.name, req.email, hashed.value, req.role, 0, 0);
      var err, saved := repo.CreateUser(user, now, dbFailure);
      if err.Some? {
        return Err(err.value);
      }
      events := events + [Scheduled("user_registered", Register, saved)];
      r := Ok(ToResponse(saved));
    }

    /**
     * LoginUser. `checkHash(password, hash)` is CheckPasswordHash; `t1`, `t2` are the clock
     * reads GenerateToken makes. A missing email and a wrong password fail alike.
     */
    method LoginUser(req: LoginRequest, checkHash: (string, string) -> bool, t1: int, t2: int, dbFailure: bool)
      returns (r: Result<LoginResponse, ErrorKind>)
      requires Valid()
      modifies this
      ensures dbFailure ==> r == Err(InternalServerError) && events == old(events)
      ensures !dbFailure && !repo.EmailTaken(req.email, 0) ==> r == Err(InvalidCredentials) && events == old(events)
      ensures !dbFailure && repo.EmailTaken(req.email, 0) ==>
        var u := repo.RowWithEmail(req.email);
        var token := GenerateToken(cfg, crypto, u.id, u.email, u.role, t1, t2);
        && (!checkHash(req.password, u.password) ==> r == Err(InvalidCredentials) && events == old(events))
        && (checkHash(req.password, u.password) && token.Err? ==> r == Err(token.error) && events == old(events))
        && (checkHash(req.password, u.password) && token.Ok? ==>
              && r == Ok(LoginResponse(token.value, ToResponse(u)))
              && events == old(events) + [Scheduled("user_logged_in", Login, u)])
    {
      var found := repo.GetUserByEmail(req.email, dbFailure);
      if found.Err? {
        if found.error == NotFound {
          return Err(InvalidCredentials);
        }
        return Err(found.error);
      }
      var user := found.value;
      if !checkHash(req.password, user.password) {
        return Err(InvalidCredentials);
      }
      var token := GenerateToken(cfg, crypto, user.id, user.email, user.role, t1, t2);
      if token.Err? {
        return Err(token.error);
      }
      events := events + [Scheduled("user_logged_in", Login, user)];
      r := Ok(LoginResponse(token.value, ToResponse(user)));
    }

    /**
     * UpdateProfile: name and email from the request, when given, are stored for user `id`;
     * the role is never touched. `getFailure` and `updateFailure` fail the two repository calls.
     */
    method UpdateProfile(id: int, req: UpdateProfileRequest, now: int, getFailure: bool, updateFailure: bool)
      returns (r: Result<UserResponse, ErrorKind>)
      requires Valid()
      modifies this, repo
      ensures Valid() && repo.nextId == old(repo.nextId)
      ensures forall k | k in old(repo.rows) :: k in repo.rows && repo.rows[k].role == old(repo.rows[k].role)
      ensures r.Err? ==> repo.rows == old(repo.rows) && events == old(events)
      ensures getFailure ==> r == Err(InternalServerError)
      ensures !getFailure && id !in old(repo.rows) ==> r == Err(NotFound)
      ensures !getFailure && id in old(repo.rows) ==>
        var m := MergeProfile(old(repo.rows[id]), req);
        && (updateFailure ==> r == Err(InternalServerError))
        && (!updateFailure && old(repo.EmailTaken(m.email, id)) ==> r == Err(EmailExists))
        && (!updateFailure && !old(repo.EmailTaken(m.email, id)) ==>
              && r == Ok(ToResponse(m.(updatedAt := now)))
              && repo.rows == old(repo.rows)[id := Updated(old(repo.rows[id]), m, now)]
              && events == old(events) + [Scheduled("user_updated", Update, m)])
    {
      var found := repo.GetUserByID(id, getFailure);
      if found.Err? {
        return Err(found.error);
      }
      var user := MergeProfile(found.value, req);
      var err, saved := repo.UpdateUser(user, now, updateFailure);
      if err.Some? {
        return Err(err.value);
      }
      events := events + [Scheduled("user_updated", Update, saved)];
      r := Ok(ToResponse(saved));
    }

    /** UpdateUser: like UpdateProfile, and the role too is overwritten when given. */
    method UpdateUser(id: int, req: UpdateUserRequest, now: int, getFailure: bool, updateFailure: bool)
      returns (r: Result<UserResponse, ErrorKind>)
      requires Valid()
      modifies this, repo
      ensures Valid() && repo.nextId == old(repo.nextId)
      ensures r.Err? ==> repo.rows == old(repo.rows) && events == old(events)
      ensures getFailure ==> r == Err(InternalServerError)
      ensures !getFailure && id !in old(repo.rows) ==> r == Err(NotFound)
      ensures !getFailure && id in old(repo.rows) ==>
        var m := MergeUser(old(repo.rows[id]), req);
        && (updateFailure ==> r == Err(InternalServerError))
        && (!updateFailure && old(repo.EmailTaken(m.email, id)) ==> r == Err(EmailExists))
        && (!updateFailure && !old(repo.EmailTaken(m.email, id)) ==>
              && r == Ok(ToResponse(m.(updatedAt := now)))
              && repo.rows == old(repo.rows)[id := Updated(old(repo.rows[id]), m, now)]
              && events == old(events) + [Scheduled("user_updated_admin", Update, m)])
    {
      var found := repo.GetUserByID(id, getFailure);
      if found.Err? {
        return Err(found.error);
      }
      var user := MergeUser(found.value, req);
      var err, saved := repo.UpdateUser(user, now, updateFailure);
      if err.Some? {
        return Err(err.value);
      }
      events := events + [Scheduled("user_updated_admin", Update, saved)];
      r := Ok(ToResponse(saved));
    }

    /** GetUserByID: the stored user's projection, or the repository's error unchanged. */
    method GetUserByID(id: int, dbFailure: bool) returns (r: Result<UserResponse, ErrorKind>)
      ensures dbFailure ==> r == Err(InternalServerError)
      ensures !dbFailure && id !in repo.rows ==> r == Err(NotFound)
      ensures !dbFailure && id in repo.rows ==> r == Ok(ToResponse(repo.rows[id]))
    {
      var found := repo.GetUserByID(id, dbFailure);
      if found.Err? {
        return Err(found.error);
      }
      r := Ok(ToResponse(found.value));
    }

    /** DeleteUser: the repository's outcome; no event is scheduled. */
    method DeleteUser(id: int, dbFailure: bool) returns (err: Option<ErrorKind>)
      requires Valid()
      modifies repo
      ensures Valid() && events == old(events) && repo.nextId == old(repo.nextId)
      ensures dbFailure ==> err == Some(InternalServerError) && repo.rows == old(repo.rows)
      ensures !dbFailure && id !in old(repo.rows) ==> err == Some(NotFound) && repo.rows == old(repo.rows)
      ensures !dbFailure && id in old(repo.rows) ==> err.None? && repo.rows == old(repo.rows) - {id}
    {
      err := repo.DeleteUser(id, dbFailure);
    }

    /** ListUsers: the page's users projected one by one, in the same order, and the total passed through. */
    method ListUsers(limit: int, offset: int, dbFailure: bool) returns (r: Result<(seq<UserResponse>, int), ErrorKind>)
      requires Valid()
      ensures dbFailure || limit < 0 || offset < 0 ==> r == Err(InternalServerError)
      ensures !dbFailure && limit >= 0 && offset >= 0 ==>
        var page := UserRepository.Window(UserRepository.Ordered(repo.rows, 1, repo.nextId), limit, offset);
        && r.Ok? && r.value.1 == |repo.rows| && |r.value.0| == |page|
        && forall i :: 0 <= i < |page| ==> r.value.0[i] == ToResponse(page[i])
    {
      var listed := repo.ListUsers(limit, offset, dbFailure);
      if listed.Err? {
        return Err(listed.error);
      }
      var (users, totalCount) := listed.value;
      var userResponses := new UserResponse[|users|];
      for i := 0 to |users|
        invariant forall j :: 0 <= j < i ==> userResponses[j] == ToResponse(users[j])
      {
        userResponses[i] := ToResponse(users[i]);
      }
      r := Ok((userResponses[..], totalCount));
    }
  }
}
