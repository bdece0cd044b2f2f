/**
 * An inbound request, reduced to what the routes, middleware and handlers read. Library
 * parsing is given already done: the URL's {id} through strconv.ParseInt, the page and limit
 * query parameters through strconv.Atoi, and the body through json.Decoder into each request type.
 */
module Http {
  import opened Wrappers
  import opened Models
  import opened Jwt

  /** The body decoded as each handler would decode it: None where decoding fails. */
  datatype Body = Body(
    register: Option<RegisterRequest>,
    login: Option<LoginRequest>,
    profile: Option<UpdateProfileRequest>,
    update: Option<UpdateUserRequest>)

  /**
   * `authorization` is Header.Get("Authorization") (empty when absent); `ctx` holds the
   * request-scoped context values; `verb` is the HTTP method. `path` is the URL path split at
   * each '/' after the leading one, so "/api/users/" is ["api", "users", ""] and "/" is [""];
   * no segment contains '/'. `idParam` is the {id} segment through strconv.ParseInt.
   */
  datatype Request = Request(
    verb: string,
    path: seq<string>,
    authorization: string,
    ctx: map<string, UserClaims>,
    idParam: Option<int>,
    pageParam: Option<int>,
    limitParam: Option<int>,
    body: Body)
}
