/**
 * The users table, held in memory with the semantics of the repository's SQL: a BIGSERIAL id
 * drawn from a sequence, a UNIQUE email, created_at and updated_at from NOW(), and errors
 * classified as ErrNotFound (no row), ErrEmailExists (unique violation, SQLSTATE 23505) or
 * ErrInternalServerError (anything else). `dbFailure` stands for any other database failure.
 */
module UserRepository {
  import opened Wrappers
  import opened AppErrors
  import opened Models

  /** The listing query does not select the password, which therefore keeps its zero value. */
  function WithoutPassword(u: User): User
  {
    u.(password := "")
  }

  /** The rows whose id lies in [lo, hi), in ascending id order, as the listing query reads them. */
  function Ordered(rows: map<int, User>, lo: int, hi: int): seq<User>
    decreases hi - lo
  {
    if hi <= lo then []
    else Ordered(rows, lo, hi - 1) + (if hi - 1 in rows then [WithoutPassword(rows[hi - 1])] else [])
  }

  /** LIMIT `limit` OFFSET `offset` applied to a sequence. */
  function Window<T>(s: seq<T>, limit: nat, offset: nat): (w: seq<T>)
    ensures |w| <= limit
    ensures forall i :: 0 <= i < |w| ==> offset + i < |s| && w[i] == s[offset + i]
    ensures offset + limit <= |s| ==> |w| == limit
    ensures offset <= |s| < offset + limit ==> |w| == |s| - offset
  {
    var start := if offset < |s| then offset else |s|;
    var end := if offset + limit < |s| then offset + limit else |s|;
    s[start..end]
  }

  /** The ids of `rows` in [lo, hi). */
  ghost function KeysIn(rows: map<int, User>, lo: int, hi: int): set<int>
  {
    set id | id in rows && lo <= id < hi
  }

  /** The ordering holds every row in range once, with ids strictly ascending. */
  lemma {:induction false} OrderedFacts(rows: map<int, User>, lo: int, hi: int)
    requires forall id | id in rows :: rows[id].id == id
    ensures |Ordered(rows, lo, hi)| == |KeysIn(rows, lo, hi)|
    ensures forall i :: 0 <= i < |Ordered(rows, lo, hi)| ==>
      var u := Ordered(rows, lo, hi)[i]; lo <= u.id < hi && u.id in rows && u == WithoutPassword(rows[u.id])
    ensures forall i, j :: 0 <= i < j < |Ordered(rows, lo, hi)| ==> Ordered(rows, lo, hi)[i].id < Ordered(rows, lo, hi)[j].id
    decreases hi - lo
  {
    if hi > lo {
      OrderedFacts(rows, lo, hi - 1);
      var last := hi - 1;
      if last in rows {
        assert KeysIn(rows, lo, hi) == KeysIn(rows, lo, hi - 1) + {last};
        assert last !in KeysIn(rows, lo, hi - 1);
      } else {
        assert KeysIn(rows, lo, hi) == KeysIn(rows, lo, hi - 1);
      }
    } else {
      assert KeysIn(rows, lo, hi) == {};
    }
  }

  /** Every row in range appears in the ordering. */
  lemma {:induction false} OrderedContains(rows: map<int, User>, lo: int, hi: int, id: int)
    requires id in rows && lo <= id < hi
    ensures WithoutPassword(rows[id]) in Ordered(rows, lo, hi)
    decreases hi - lo
  {
    if id < hi - 1 {
      OrderedContains(rows, lo, hi - 1, id);
    }
  }

  class UserRepository {
    /** The table, keyed by id. */
    var rows: map<int, User>
    /** The next value the id sequence hands out. */
    var nextId: int

    ghost predicate Valid()
      reads this
    {
      && nextId >= 1
      && (forall id | id in rows :: 1 <= id < nextId && rows[id].id == id)
      && (forall a, b | a in rows && b in rows && a != b :: rows[a].email != rows[b].email)
    }

    constructor ()
      ensures Valid() && rows == map[] && nextId == 1
    {
      rows := map[];
      nextId := 1;
    }

    /** Some row other than `except` has this email (ids start at 1, so `except` 0 disregards none). */
    predicate EmailTaken(email: string, except: int)
      reads this
    {
      exists id | id in rows :: id != except && rows[id].email == email
    }

    /** The row holding `email`; there is only one. */
    ghost function RowWithEmail(email: string): (u: User)
      requires Valid() && EmailTaken(email, 0)
      reads this
      ensures u.id in rows && rows[u.id] == u && u.email == email
    {
      var id :| id in rows && id != 0 && rows[id].email == email;
      rows[id]
    }

    /**
     * CreateUser. `user` is the caller's struct and `saved` is it after the call: on success
     * the new id and both timestamps are written into it. A unique violation still consumes
     * a value of the id sequence, as a PostgreSQL sequence does.
     */
    method CreateUser(user: User, now: int, dbFailure: bool) returns (err: Option<ErrorKind>, saved: User)
      requires Valid()
      modifies this
      ensures Valid()
      ensures dbFailure ==> err == Some(InternalServerError) && saved == user && unchanged(this)
      ensures !dbFailure && old(EmailTaken(user.email, 0)) ==>
        err == Some(EmailExists) && saved == user && rows == old(rows) && nextId == old(nextId) + 1
      ensures !dbFailure && !old(EmailTaken(user.email, 0)) ==>
        && err.None?
        && saved == user.(id := old(nextId), createdAt := now, updatedAt := now)
        && rows == old(rows)[old(nextId) := saved]
        && nextId == old(nextId) + 1
    {
      if dbFailure {
        return Some(InternalServerError), user;
      }
      var id := nextId;
      nextId := nextId + 1;
      if EmailTaken(user.email, 0) {
        return Some(EmailExists), user;
      }
      saved := user.(id := id, createdAt := now, updatedAt := now);
      rows := rows[id := saved];
      err := None;
    }

    /** GetUserByID. */
    method GetUserByID(id: int, dbFailure: bool) returns (r: Result<User, ErrorKind>)
      ensures dbFailure ==> r == Err(InternalServerError)
      ensures !dbFailure && id !in rows ==> r == Err(NotFound)
      ensures !dbFailure && id in rows ==> r == Ok(rows[id])
    {
      if dbFailure {
        return Err(InternalServerError);
      }
      if id !in rows {
        return Err(NotFound);
      }
      r := Ok(rows[id]);
    }

    /** GetUserByEmail: the one row with that email, if any. */
    method GetUserByEmail(email: string, dbFailure: bool) returns (r: Result<User, ErrorKind>)
      requires Valid()
      ensures dbFailure ==> r == Err(InternalServerError)
      ensures !dbFailure && !EmailTaken(email, 0) ==> r == Err(NotFound)
      ensures !dbFailure && EmailTaken(email, 0) ==> r == Ok(RowWithEmail(email))
    {
      if dbFailure {
        return Err(InternalServerError);
      }
      if !EmailTaken(email, 0) {
        return Err(NotFound);
      }
      var id :| id in rows && id != 0 && rows[id].email == email;
      r := Ok(rows[id]);
    }

    /**
     * UpdateUser: sets name, email, role and updated_at of the row with user.id; password
     * and created_at are not touched. `saved` is the caller's struct with the new updated_at.
     */
    method UpdateUser(user: User, now: int, dbFailure: bool) returns (err: Option<ErrorKind>, saved: User)
      requires Valid()
      modifies this
      ensures Valid() && nextId == old(nextId)
      ensures dbFailure ==> err == Some(InternalServerError) && saved == user && rows == old(rows)
      ensures !dbFailure && user.id !in old(rows) ==> err == Some(NotFound) && saved == user && rows == old(rows)
      ensures !dbFailure && user.id in old(rows) && old(EmailTaken(user.email, user.id)) ==>
        err == Some(EmailExists) && saved == user && rows == old(rows)
      ensures !dbFailure && user.id in old(rows) && !old(EmailTaken(user.email, user.id)) ==>
        && err.None?
        && saved == user.(updatedAt := now)
        && rows == old(rows)[user.id := old(rows)[user.id].(name := user.name, email := user.email,
                                                             role := user.role, updatedAt := now)]
    {
      if dbFailure {
        return Some(InternalServerError), user;
      }
      if user.id !in rows {
        return Some(NotFound), user;
      }
      if EmailTaken(user.email, user.id) {
        return Some(EmailExists), user;
      }
      rows := rows[user.id := rows[user.id].(name := user.name, email := user.email, role := user.role, updatedAt := now)];
      saved := user.(updatedAt := now);
      err := None;
    }

    /** DeleteUser: ErrNotFound when no row was affected. */
    method DeleteUser(id: int, dbFailure: bool) returns (err: Option<ErrorKind>)
      requires Valid()
      modifies this
      ensures Valid() && nextId == old(nextId)
      ensures dbFailure ==> err == Some(InternalServerError) && rows == old(rows)
      ensures !dbFailure && id !in old(rows) ==> err == Some(NotFound) && rows == old(rows)
      ensures !dbFailure && id in old(rows) ==> err.None? && rows == old(rows) - {id}
    {
      if dbFailure {
        return Some(InternalServerError);
      }
      if id !in rows {
        return Some(NotFound);
      }
      rows := rows - {id};
      err := None;
    }

    /**
     * ListUsers: the total row count, and the rows in id order after skipping `offset` of
     * them, at most `limit` of them. PostgreSQL refuses a negative LIMIT or OFFSET.
     * The scan below is the database's ordered scan fused with the rows.Next() loop.
     */
    method ListUsers(limit: int, offset: int, dbFailure: bool) returns (r: Result<(seq<User>, int), ErrorKind>)
      requires Valid()
      ensures dbFailure || limit < 0 || offset < 0 ==> r == Err(InternalServerError)
      ensures !dbFailure && limit >= 0 && offset >= 0 ==>
        r == Ok((Window(Ordered(rows, 1, nextId), limit, offset), |rows|))
    {
      if dbFailure || limit < 0 || offset < 0 {
        return Err(InternalServerError);
      }
      var totalCount := |rows|;
      var users: seq<User> := [];
      var seen := 0;
      var id := 1;
      while id < nextId
        invariant 1 <= id <= nextId
        invariant seen == |Ordered(rows, 1, id)|
        invariant users == Window(Ordered(rows, 1, id), limit, offset)
      {
        ghost var before := Ordered(rows, 1, id);
        if id in rows {
          assert Ordered(rows, 1, id + 1) == before + [WithoutPassword(rows[id])];
          if offset <= seen < offset + limit {
            users := users + [WithoutPassword(rows[id])];
          }
          seen := seen + 1;
        }
        id := id + 1;
      }
      r := Ok((users, totalCount));
    }
  }

  /** The listing holds exactly the table's rows, once each, in strictly ascending id order, without passwords. */
  lemma ListingIsTable(rows: map<int, User>, nextId: int)
    requires nextId >= 1 && forall id | id in rows :: 1 <= id < nextId && rows[id].id == id
    ensures |Ordered(rows, 1, nextId)| == |rows|
    ensures forall i, j :: 0 <= i < j < |Ordered(rows, 1, nextId)| ==>
      Ordered(rows, 1, nextId)[i].id < Ordered(rows, 1, nextId)[j].id
    ensures forall u | u in Ordered(rows, 1, nextId) :: u.id in rows && u == WithoutPassword(rows[u.id]) && u.password == ""
    ensures forall id | id in rows :: WithoutPassword(rows[id]) in Ordered(rows, 1, nextId)
  {
    OrderedFacts(rows, 1, nextId);
    assert KeysIn(rows, 1, nextId) == rows.Keys;
    forall id | id in rows ensures WithoutPassword(rows[id]) in Ordered(rows, 1, nextId) {
      OrderedContains(rows, 1, nextId, id);
    }
  }
}
