/** The user record, its client-facing projection and the request bodies. */
module Models {
  import opened Wrappers
  import opened Json

  /** A row of the users table. Password holds the hash and is never serialised. */
  datatype User = User(
    id: int,
    name: string,
    email: string,
    password: string,
    role: string,
    createdAt: int,
    updatedAt: int)

  /** The User without its password, as returned to clients. */
  datatype UserResponse = UserResponse(
    id: int,
    name: string,
    email: string,
    role: string,
    createdAt: int,
    updatedAt: int)

  datatype LoginResponse = LoginResponse(token: string, user: UserResponse)

  /** Request bodies. Their validate tags are not enforced anywhere, so any string is accepted. */
  datatype RegisterRequest = RegisterRequest(name: string, email: string, password: string, role: string)
  datatype LoginRequest = LoginRequest(email: string, password: string)

  /** Optional fields: None stands for a JSON field that was absent or null (a nil pointer). */
  datatype UpdateProfileRequest = UpdateProfileRequest(name: Option<string>, email: Option<string>)
  datatype UpdateUserRequest = UpdateUserRequest(name: Option<string>, email: Option<string>, role: Option<string>)

  function ToResponse(u: User): UserResponse
  {
    UserResponse(u.id, u.name, u.email, u.role, u.createdAt, u.updatedAt)
  }

  /** The projection keeps every field but the password, unchanged. */
  lemma ToResponseCopiesFields(u: User)
    ensures var r := ToResponse(u);
      r.id == u.id && r.name == u.name && r.email == u.email && r.role == u.role
      && r.createdAt == u.createdAt && r.updatedAt == u.updatedAt
  {
  }

  /** Two users have the same projection exactly when they agree on everything but the password. */
  lemma ToResponseForgetsPassword(u: User, v: User)
    ensures ToResponse(u) == ToResponse(v) <==> u.(password := "") == v.(password := "")
  {
    if ToResponse(u) == ToResponse(v) {
      assert u.id == ToResponse(u).id && v.id == ToResponse(v).id;
    }
  }

  function ResponseJson(r: UserResponse): Json
  {
    JObj([Field("id", JInt(r.id)), Field("name", JStr(r.name)), Field("email", JStr(r.email)),
          Field("role", JStr(r.role)), Field("created_at", JTime(r.createdAt)),
          Field("updated_at", JTime(r.updatedAt))])
  }

  /** The JSON encoding of a User: the password field carries `json:"-"`. */
  function UserJson(u: User): Json
  {
    JObj([Field("id", JInt(u.id)), Field("name", JStr(u.name)), Field("email", JStr(u.email)),
          Field("role", JStr(u.role)), Field("created_at", JTime(u.createdAt)),
          Field("updated_at", JTime(u.updatedAt))])
  }

  function LoginResponseJson(r: LoginResponse): Json
  {
    JObj([Field("token", JStr(r.token)), Field("user", ResponseJson(r.user))])
  }

  /** Neither encoding shows the password, and a user encodes exactly as its projection does. */
  lemma PasswordNeverSerialised(u: User)
    ensures UserJson(u) == ResponseJson(ToResponse(u))
    ensures !HasKey(UserJson(u), "password") && !HasKey(ResponseJson(ToResponse(u)), "password")
    ensures Keys(ResponseJson(ToResponse(u)).fields) == ["id", "name", "email", "role", "created_at", "updated_at"]
  {
    var ks := Keys(UserJson(u).fields);
    assert ks == ["id", "name", "email", "role", "created_at", "updated_at"];
  }
}
