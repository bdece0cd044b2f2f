/**
 * The router: the global middleware, then the sub-router mounted over the request's path.
 * A sub-router runs its own middleware first and only then looks the request up among its
 * routes, answering 405 or 404 when none of them fits. SetupRouter builds the router by
 * successive registrations on mutable routers.
 */
module Routes {
  import opened Wrappers
  import AppErrors
  import opened Response
  import opened Config
  import opened Jwt
  import opened Http
  import opened AuthMiddleware

  /** The roles of the system. */
  const RoleStudent := "student"
  const RoleAdmin := "admin"

  /**
   * The interceptors a route can run. Request logging, panic recovery and CORS pass every
   * request on unchanged; the last two are the authentication and role middleware.
   */
  datatype Middleware = RequestLogger | Recoverer | Cors | Authentication | RoleGate(roles: seq<string>)

  /** The handler a route ends in. */
  datatype Handler =
    | AuthRegister | AuthLogin
    | OwnProfileGet | OwnProfileUpdate
    | UsersList | UserGet | UserUpdate | UserDelete

  /** One segment of a route pattern: literal text, or a {name} parameter. */
  datatype Segment = Lit(text: string) | Param

  /** A route of a sub-router: its method, its pattern below the mount point, its handler. */
  datatype Route = Route(verb: string, pattern: seq<Segment>, handler: Handler)

  /**
   * A sub-router mounted at `prefix` (path segments), with the middleware registered by its
   * own Use and its routes. Its middleware wraps its own route lookup.
   */
  datatype Group = Group(prefix: seq<string>, chain: seq<Middleware>, routes: seq<Route>)

  /** A sub-router under construction: chi's Route hands a fresh one to its callback. */
  class SubRouter {
    /** Middleware registered with the sub-router's own Use. */
    var chain: seq<Middleware>
    var routes: seq<Route>

    constructor ()
      ensures chain == [] && routes == []
    {
      chain := [];
      routes := [];
    }

    /** Use: the sub-router refuses middleware once a route is registered. */
    method Use(ms: seq<Middleware>)
      requires routes == []
      modifies this
      ensures chain == old(chain) + ms && routes == old(routes)
    {
      chain := chain + ms;
    }

    method Handle(verb: string, pattern: seq<Segment>, handler: Handler)
      modifies this
      ensures routes == old(routes) + [Route(verb, pattern, handler)] && chain == old(chain)
    {
      routes := routes + [Route(verb, pattern, handler)];
    }
  }

  class Mux {
    /** Middleware registered with Use, run before routing for every request. */
    var middlewares: seq<Middleware>
    /** The mounted sub-routers, in mounting order. */
    var groups: seq<Group>

    constructor ()
      ensures middlewares == [] && groups == []
    {
      middlewares := [];
      groups := [];
    }

    /** Use: the router refuses middleware once anything is routed. */
    method Use(ms: seq<Middleware>)
      requires groups == []
      modifies this
      ensures middlewares == old(middlewares) + ms && groups == old(groups)
    {
      middlewares := middlewares + ms;
    }

    /** Mount: the sub-router, as configured, serves everything at or below `prefix`. */
    method Mount(prefix: seq<string>, sub: SubRouter)
      modifies this
      ensures groups == old(groups) + [Group(prefix, sub.chain, sub.routes)] && middlewares == old(middlewares)
    {
      groups := groups + [Group(prefix, sub.chain, sub.routes)];
    }
  }

  function GlobalMiddleware(): seq<Middleware>
  {
    [RequestLogger, Recoverer, Cors]
  }

  /** The pattern "/" of a sub-router. */
  const Root: seq<Segment> := [Lit("")]

  /**
   * The sub-routers SetupRouter mounts, in mounting order. The "/api" sub-router has no
   * middleware and no routes of its own, so its two children appear at their full prefixes.
   */
  function SubRouters(): seq<Group>
  {
    [ Group(["api", "auth"], [],
        [Route("POST", [Lit("register")], AuthRegister), Route("POST", [Lit("login")], AuthLogin)]),
      Group(["api", "profile"], [Authentication],
        [Route("GET", Root, OwnProfileGet), Route("PUT", Root, OwnProfileUpdate)]),
      Group(["api", "users"], [Authentication, RoleGate([RoleAdmin])],
        [ Route("GET", Root, UsersList), Route("GET", [Param], UserGet),
          Route("PUT", [Param], UserUpdate), Route("DELETE", [Param], UserDelete) ]) ]
  }

  /** The callback of the /api/auth sub-router: the two public routes. */
  method ConfigureAuth(r: SubRouter)
    requires r.chain == [] && r.routes == []
    modifies r
    ensures r.chain == SubRouters()[0].chain && r.routes == SubRouters()[0].routes
  {
    r.Handle("POST", [Lit("register")], AuthRegister);
    r.Handle("POST", [Lit("login")], AuthLogin);
  }

  /** The callback of the /api/profile sub-router: authentication, then the two profile routes. */
  method ConfigureProfile(r: SubRouter)
    requires r.chain == [] && r.routes == []
    modifies r
    ensures r.chain == SubRouters()[1].chain && r.routes == SubRouters()[1].routes
  {
    r.Use([Authentication]);
    r.Handle("GET", Root, OwnProfileGet);
    r.Handle("PUT", Root, OwnProfileUpdate);
  }

  /** The callback of the /api/users sub-router: authentication and the admin gate, then the four admin routes. */
  method ConfigureUsers(r: SubRouter)
    requires r.chain == [] && r.routes == []
    modifies r
    ensures r.chain == SubRouters()[2].chain && r.routes == SubRouters()[2].routes
  {
    r.Use([Authentication, RoleGate([RoleAdmin])]);
    r.Handle("GET", Root, UsersList);
    r.Handle("GET", [Param], UserGet);
    r.Handle("PUT", [Param], UserUpdate);
    r.Handle("DELETE", [Param], UserDelete);
  }

  /** SetupRouter: the global middleware first, then each sub-router, configured by its callback and mounted. */
  method SetupRouter() returns (mux: Mux)
    ensures fresh(mux)
    ensures mux.middlewares == GlobalMiddleware() && mux.groups == SubRouters()
  {
    mux := new Mux();
    mux.Use([RequestLogger, Recoverer, Cors]);

    var auth := new SubRouter();
    ConfigureAuth(auth);
    mux.Mount(["api", "auth"], auth);

    var profile := new SubRouter();
    ConfigureProfile(profile);
    mux.Mount(["api", "profile"], profile);

    var users := new SubRouter();
    ConfigureUsers(users);
    mux.Mount(["api", "users"], users);
    assert mux.groups == [SubRouters()[0], SubRouters()[1], SubRouters()[2]];
  }

  /** One middleware applied to a request at clock value `now`. */
  function Apply(cfg: Config, crypto: Crypto, now: int, m: Middleware, req: Request): Outcome
  {
    match m
    case RequestLogger => Next(req)
    case Recoverer => Next(req)
    case Cors => Next(req)
    case Authentication => Authenticate(cfg, crypto, now, req).outcome
    case RoleGate(roles) => RoleCheck(roles, req)
  }

  /** A chain halts at the first middleware that answers; otherwise the request comes out of its end. */
  function RunChain(cfg: Config, crypto: Crypto, now: int, chain: seq<Middleware>, req: Request): Outcome
    decreases |chain|
  {
    if chain == [] then Next(req)
    else match Apply(cfg, crypto, now, chain[0], req)
      case Halt(reply) => Halt(reply)
      case Next(req1) => RunChain(cfg, crypto, now, chain[1..], req1)
  }

  /** A {name} parameter matches one non-empty segment; literal text matches itself. */
  predicate Matches(pattern: seq<Segment>, segs: seq<string>)
  {
    |pattern| == |segs|
    && forall i | 0 <= i < |segs| :: if pattern[i].Lit? then segs[i] == pattern[i].text else segs[i] != ""
  }

  /** The path lies at or below the mount point `prefix`. */
  predicate Under(prefix: seq<string>, path: seq<string>)
  {
    |prefix| <= |path| && path[..|prefix|] == prefix
  }

  /** The path a mounted sub-router routes on: what follows its prefix, and "/" when nothing does. */
  function SubPath(prefix: seq<string>, path: seq<string>): (sub: seq<string>)
    requires Under(prefix, path)
    ensures |path| == |prefix| ==> sub == [""]
    ensures |path| > |prefix| ==> path == prefix + sub
  {
    if |path| == |prefix| then [""] else path[|prefix|..]
  }

  /** The first sub-router mounted at or above the path. */
  function FindGroup(groups: seq<Group>, path: seq<string>): (g: Option<Group>)
    ensures g.Some? ==> g.value in groups && Under(g.value.prefix, path)
    ensures g.None? ==> forall gr | gr in groups :: !Under(gr.prefix, path)
  {
    if groups == [] then None
    else if Under(groups[0].prefix, path) then Some(groups[0])
    else FindGroup(groups[1..], path)
  }

  /** The first route registered for this method whose pattern matches the sub-path. */
  function FindRoute(routes: seq<Route>, verb: string, sub: seq<string>): (r: Option<Route>)
    ensures r.Some? ==> r.value in routes && r.value.verb == verb && Matches(r.value.pattern, sub)
    ensures r.None? ==> forall rt | rt in routes :: !(rt.verb == verb && Matches(rt.pattern, sub))
  {
    if routes == [] then None
    else if routes[0].verb == verb && Matches(routes[0].pattern, sub) then Some(routes[0])
    else FindRoute(routes[1..], verb, sub)
  }

  /** What became of a request: answered by a middleware, or handed to a handler, or unrouted. */
  datatype Dispatched =
    | Answered(reply: Reply)
    | Reached(handler: Handler, req: Request)
    | MethodNotAllowed
    | NotFound

  /**
   * A mounted sub-router: its middleware runs first, and only a request it passes on is
   * routed, to a handler, a 405 when the path matches a route of another method, or a 404.
   */
  function ServeMounted(cfg: Config, crypto: Crypto, now: int, g: Group, req: Request): (d: Dispatched)
    requires Under(g.prefix, req.path)
    ensures var out := RunChain(cfg, crypto, now, g.chain, req);
      (d.Answered? <==> out.Halt?) && (out.Halt? ==> d.reply == out.reply)
    ensures var out := RunChain(cfg, crypto, now, g.chain, req); var sub := SubPath(g.prefix, req.path);
      d.Reached? ==>
        && out == Next(d.req)
        && exists rt | rt in g.routes :: rt.verb == req.verb && Matches(rt.pattern, sub) && rt.handler == d.handler
    ensures var sub := SubPath(g.prefix, req.path);
      d.MethodNotAllowed? ==>
        (exists rt | rt in g.routes :: Matches(rt.pattern, sub))
        && forall rt | rt in g.routes && Matches(rt.pattern, sub) :: rt.verb != req.verb
    ensures var sub := SubPath(g.prefix, req.path);
      d.NotFound? ==> forall rt | rt in g.routes :: !Matches(rt.pattern, sub)
  {
    match RunChain(cfg, crypto, now, g.chain, req)
    case Halt(reply) => Answered(reply)
    case Next(req1) =>
      var sub := SubPath(g.prefix, req.path);
      match FindRoute(g.routes, req.verb, sub)
      case Some(rt) => Reached(rt.handler, req1)
      case None =>
        if exists rt | rt in g.routes :: Matches(rt.pattern, sub) then MethodNotAllowed else NotFound
  }

  /** The router: the global middleware, then the sub-router mounted over the path, if any. */
  function Dispatch(cfg: Config, crypto: Crypto, now: int, global: seq<Middleware>, groups: seq<Group>,
                    req: Request): (d: Dispatched)
    ensures var out := RunChain(cfg, crypto, now, global, req);
      out.Halt? ==> d == Answered(out.reply)
    ensures var out := RunChain(cfg, crypto, now, global, req);
      out.Next? && FindGroup(groups, out.req.path).None? ==> d == NotFound
  {
    match RunChain(cfg, crypto, now, global, req)
    case Halt(reply) => Answered(reply)
    case Next(req1) =>
      match FindGroup(groups, req1.path)
      case None => NotFound
      case Some(g) => ServeMounted(cfg, crypto, now, g, req1)
  }

  /**
   * The router SetupRouter builds. The global middleware is transparent, so a request is
   * served by the sub-router mounted over its path, and one below no mount point gets 404.
   */
  function Serve(cfg: Config, crypto: Crypto, now: int, req: Request): (d: Dispatched)
    ensures FindGroup(SubRouters(), req.path).None? ==> d == NotFound
    ensures FindGroup(SubRouters(), req.path).Some? ==>
      d == ServeMounted(cfg, crypto, now, FindGroup(SubRouters(), req.path).value, req)
  {
    GlobalPassesThrough(cfg, crypto, now, req);
    Dispatch(cfg, crypto, now, GlobalMiddleware(), SubRouters(), req)
  }

  /** The global middleware passes every request on unchanged. */
  lemma GlobalPassesThrough(cfg: Config, crypto: Crypto, now: int, req: Request)
    ensures RunChain(cfg, crypto, now, GlobalMiddleware(), req) == Next(req)
  {
    var g := GlobalMiddleware();
    assert g[1..] == [Recoverer, Cors] && g[1..][1..] == [Cors] && g[1..][1..][1..] == [];
  }

  /** Which sub-router serves a path: the three mount points are disjoint, and other paths have none. */
  lemma GroupOf(path: seq<string>)
    ensures Under(["api", "auth"], path) ==> FindGroup(SubRouters(), path) == Some(SubRouters()[0])
    ensures Under(["api", "profile"], path) ==> FindGroup(SubRouters(), path) == Some(SubRouters()[1])
    ensures Under(["api", "users"], path) ==> FindGroup(SubRouters(), path) == Some(SubRouters()[2])
    ensures !Under(["api", "auth"], path) && !Under(["api", "profile"], path) && !Under(["api", "users"], path)
      ==> FindGroup(SubRouters(), path) == None
  {
    var gs := SubRouters();
    assert gs[1..][1..][1..] == [];
    if 2 <= |path| {
      assert Under(["api", "auth"], path) ==> path[1] == "auth";
      assert Under(["api", "profile"], path) ==> path[1] == "profile";
    }
  }

  /** Below a mount point, the router's answer is that sub-router's. */
  lemma {:induction false} ServeBy(cfg: Config, crypto: Crypto, now: int, req: Request, i: nat)
    requires i < |SubRouters()| && Under(SubRouters()[i].prefix, req.path)
    ensures Serve(cfg, crypto, now, req) == ServeMounted(cfg, crypto, now, SubRouters()[i], req)
  {
    GroupOf(req.path);
    var gs := SubRouters();
    if i == 0 {
      assert Under(["api", "auth"], req.path);
    } else if i == 1 {
      assert Under(["api", "profile"], req.path);
    } else {
      assert Under(["api", "users"], req.path);
    }
    assert FindGroup(gs, req.path) == Some(gs[i]);
  }

  /** The registration and login routes run no authentication: any request reaches them as it came. */
  lemma {:induction false} PublicRoutesOpen(cfg: Config, crypto: Crypto, now: int, req: Request)
    requires req.verb == "POST"
    ensures req.path == ["api", "auth", "register"] ==> Serve(cfg, crypto, now, req) == Reached(AuthRegister, req)
    ensures req.path == ["api", "auth", "login"] ==> Serve(cfg, crypto, now, req) == Reached(AuthLogin, req)
  {
    var g := SubRouters()[0];
    if req.path == ["api", "auth", "register"] || req.path == ["api", "auth", "login"] {
      assert Under(g.prefix, req.path);
      ServeBy(cfg, crypto, now, req, 0);
      assert RunChain(cfg, crypto, now, g.chain, req) == Next(req);
      assert SubPath(g.prefix, req.path) == [req.path[2]];
      if req.path[2] == "register" {
        assert Matches(g.routes[0].pattern, ["register"]);
      } else {
        assert !Matches(g.routes[0].pattern, ["login"]);
        assert Matches(g.routes[1].pattern, ["login"]);
      }
    }
  }

  /** The profile sub-router's chain is exactly the authentication middleware. */
  lemma {:induction false} AuthChain(cfg: Config, crypto: Crypto, now: int, req: Request)
    ensures RunChain(cfg, crypto, now, [Authentication], req) == Authenticate(cfg, crypto, now, req).outcome
  {
    assert [Authentication][1..] == [];
  }

  /** The users sub-router's chain: authentication, then the admin gate on the authenticated request. */
  lemma {:induction false} AdminChain(cfg: Config, crypto: Crypto, now: int, req: Request)
    ensures RunChain(cfg, crypto, now, [Authentication, RoleGate([RoleAdmin])], req) ==
      match Authenticate(cfg, crypto, now, req).outcome
      case Halt(reply) => Halt(reply)
      case Next(req1) => RoleCheck([RoleAdmin], req1)
  {
    var chain := [Authentication, RoleGate([RoleAdmin])];
    assert chain[1..] == [RoleGate([RoleAdmin])] && chain[1..][1..] == [];
    match Authenticate(cfg, crypto, now, req).outcome
    case Halt(_) =>
    case Next(req1) =>
      assert RunChain(cfg, crypto, now, chain[1..], req1) == RoleCheck([RoleAdmin], req1);
  }

  /**
   * Everything below /api/profile, routed or not, is answered by the authentication middleware
   * unless the token validates: the 404 and 405 decisions come after it.
   */
  lemma ProfileGroupGated(cfg: Config, crypto: Crypto, now: int, req: Request)
    requires Under(["api", "profile"], req.path)
    ensures var auth := Authenticate(cfg, crypto, now, req).outcome;
      Serve(cfg, crypto, now, req).Answered? <==> auth.Halt?
    ensures var auth := Authenticate(cfg, crypto, now, req).outcome;
      auth.Halt? ==> Serve(cfg, crypto, now, req) == Answered(auth.reply)
  {
    GroupOf(req.path);
    AuthChain(cfg, crypto, now, req);
  }

  /**
   * Everything below /api/users, routed or not, runs authentication and then the admin gate
   * before any route lookup: only a validated admin gets past them, to a handler, a 405 or a 404.
   */
  lemma UsersGroupGated(cfg: Config, crypto: Crypto, now: int, req: Request)
    requires Under(["api", "users"], req.path)
    ensures var auth := Authenticate(cfg, crypto, now, req).outcome;
      auth.Halt? ==> Serve(cfg, crypto, now, req) == Answered(auth.reply)
    ensures var auth := Authenticate(cfg, crypto, now, req).outcome;
      auth.Next? && auth.req.ctx[UserClaimsKey].role != RoleAdmin ==>
        Serve(cfg, crypto, now, req) == Answered(HandleError(AppErrors.App(AppErrors.Forbidden)))
    ensures var auth := Authenticate(cfg, crypto, now, req).outcome;
      Serve(cfg, crypto, now, req).Answered? <==> !(auth.Next? && auth.req.ctx[UserClaimsKey].role == RoleAdmin)
  {
    ServeBy(cfg, crypto, now, req, 2);
    AdminChain(cfg, crypto, now, req);
    match Authenticate(cfg, crypto, now, req).outcome
    case Halt(reply) =>
    case Next(req1) =>
      AuthenticatePasses(cfg, crypto, now, req);
      assert UserClaimsKey in req1.ctx;
  }

  /** Any request without an Authorization header below either protected mount point gets 401. */
  lemma NoTokenUnauthorized(cfg: Config, crypto: Crypto, now: int, req: Request)
    requires Under(["api", "profile"], req.path) || Under(["api", "users"], req.path)
    requires req.authorization == ""
    ensures Serve(cfg, crypto, now, req).Answered?
    ensures Observe(Serve(cfg, crypto, now, req).reply).status == 401
  {
    if Under(["api", "profile"], req.path) {
      ProfileGroupGated(cfg, crypto, now, req);
    } else {
      UsersGroupGated(cfg, crypto, now, req);
    }
    AppErrors.PredefinedTable(AppErrors.Unauthorized);
  }

  /** The requests the two profile routes serve: GET or PUT on /api/profile, with or without the slash. */
  predicate IsProfileRoute(verb: string, path: seq<string>)
  {
    (verb == "GET" || verb == "PUT") && (path == ["api", "profile"] || path == ["api", "profile", ""])
  }

  /** The routes the two profile methods resolve to. */
  lemma ProfileRoutes(verb: string, path: seq<string>)
    requires IsProfileRoute(verb, path)
    ensures var g := SubRouters()[1];
      Under(g.prefix, path)
      && FindRoute(g.routes, verb, SubPath(g.prefix, path)).Some?
      && FindRoute(g.routes, verb, SubPath(g.prefix, path)).value.handler ==
         (if verb == "GET" then OwnProfileGet else OwnProfileUpdate)
  {
    var g := SubRouters()[1];
    assert Under(g.prefix, path);
    assert SubPath(g.prefix, path) == [""];
  }

  /** The profile routes admit exactly the authenticated callers, whatever their role, with the claims stored. */
  lemma ProfileNeedsOnlyAuthentication(cfg: Config, crypto: Crypto, now: int, req: Request)
    requires IsProfileRoute(req.verb, req.path)
    ensures var auth := Authenticate(cfg, crypto, now, req).outcome;
      match Serve(cfg, crypto, now, req)
      case Reached(h, req2) =>
        auth.Next? && req2 == auth.req && h == (if req.verb == "GET" then OwnProfileGet else OwnProfileUpdate)
      case Answered(reply) => auth.Halt? && reply == auth.reply
      case _ => false
  {
    ProfileRoutes(req.verb, req.path);
    GroupOf(req.path);
    AuthChain(cfg, crypto, now, req);
  }

  /** The requests the four admin routes serve; an {id} segment is any non-empty one. */
  predicate IsUsersRoute(verb: string, path: seq<string>)
  {
    (verb == "GET" && (path == ["api", "users"] || path == ["api", "users", ""]))
    || (|path| == 3 && path[0] == "api" && path[1] == "users" && path[2] != ""
        && (verb == "GET" || verb == "PUT" || verb == "DELETE"))
  }

  /** The handler each admin method and path resolves to. */
  lemma UsersRouteRegistered(verb: string, path: seq<string>)
    requires IsUsersRoute(verb, path)
    ensures var g := SubRouters()[2];
      Under(g.prefix, path)
      && FindRoute(g.routes, verb, SubPath(g.prefix, path)).Some?
      && FindRoute(g.routes, verb, SubPath(g.prefix, path)).value.handler ==
         (if |path| == 3 && path[2] != "" then
            (if verb == "GET" then UserGet else if verb == "PUT" then UserUpdate else UserDelete)
          else UsersList)
  {
    var g := SubRouters()[2];
    assert path[..2] == ["api", "users"];
    assert Under(g.prefix, path);
    var sub := SubPath(g.prefix, path);
    if |path| == 3 && path[2] != "" {
      assert sub == [path[2]];
      assert !Matches(Root, sub);
      assert Matches([Param], sub);
    } else {
      assert sub == [""];
    }
  }

  /**
   * Every admin route runs authentication and then the admin gate, in that order: it is
   * reached exactly when the token validates and the validated role is "admin".
   */
  lemma UsersRequireAdmin(cfg: Config, crypto: Crypto, now: int, req: Request)
    requires IsUsersRoute(req.verb, req.path)
    ensures var auth := Authenticate(cfg, crypto, now, req).outcome;
      Serve(cfg, crypto, now, req).Reached? <==>
        auth.Next? && auth.req.ctx[UserClaimsKey].role == RoleAdmin
  {
    UsersRouteRegistered(req.verb, req.path);
    UsersGroupGated(cfg, crypto, now, req);
    GroupOf(req.path);
    AdminChain(cfg, crypto, now, req);
  }

  /** The users sub-router answers its root path for GET alone. */
  lemma UsersRootOnlyGet(verb: string)
    requires verb != "GET"
    ensures var g := SubRouters()[2];
      FindRoute(g.routes, verb, [""]) == None && exists rt | rt in g.routes :: Matches(rt.pattern, [""])
  {
    var g := SubRouters()[2];
    assert [Param][0].Param? && [""][0] == "";
    assert !Matches([Param], [""]);
    assert FindRoute(g.routes[1..], verb, [""]) == None;
    assert g.routes[0] in g.routes && Matches(g.routes[0].pattern, [""]);
  }

  /** An admin's request for a method /api/users/ does not register gets 405, after both middlewares. */
  lemma UnregisteredMethodNotAllowed(cfg: Config, crypto: Crypto, now: int, req: Request)
    requires req.path == ["api", "users", ""] && req.verb != "GET"
    requires var auth := Authenticate(cfg, crypto, now, req).outcome;
      auth.Next? && auth.req.ctx[UserClaimsKey].role == RoleAdmin
    ensures Serve(cfg, crypto, now, req) == MethodNotAllowed
  {
    var g := SubRouters()[2];
    var auth := Authenticate(cfg, crypto, now, req).outcome;
    assert Under(g.prefix, req.path) && SubPath(g.prefix, req.path) == [""];
    ServeBy(cfg, crypto, now, req, 2);
    AdminChain(cfg, crypto, now, req);
    assert RunChain(cfg, crypto, now, g.chain, req) == Next(auth.req);
    UsersRootOnlyGet(req.verb);
  }

  /** A path below none of the mount points gets 404 whoever asks. */
  lemma UnmountedNotFound(cfg: Config, crypto: Crypto, now: int, req: Request)
    requires !Under(["api", "auth"], req.path) && !Under(["api", "profile"], req.path) && !Under(["api", "users"], req.path)
    ensures Serve(cfg, crypto, now, req) == NotFound
  {
    GroupOf(req.path);
  }

  /** A validly authenticated student is refused everything below /api/users with 403. */
  lemma StudentForbidden(cfg: Config, crypto: Crypto, now: int, req: Request)
    requires Under(["api", "users"], req.path)
    requires var auth := Authenticate(cfg, crypto, now, req).outcome;
      auth.Next? && auth.req.ctx[UserClaimsKey].role == RoleStudent
    ensures Serve(cfg, crypto, now, req).Answered?
    ensures Observe(Serve(cfg, crypto, now, req).reply).status == 403
  {
    UsersGroupGated(cfg, crypto, now, req);
    AppErrors.PredefinedTable(AppErrors.Forbidden);
  }

  /** An expired bearer token is refused with 401 everywhere below the protected mount points. */
  lemma ExpiredTokenUnauthorized(cfg: Config, crypto: Crypto, now: int, req: Request, token: string)
    requires Under(["api", "profile"], req.path) || Under(["api", "users"], req.path)
    requires req.authorization == "Bearer " + token
    requires crypto.parse(token).Some?
    requires var exp := crypto.parse(token).value.claims.registered.expiresAt; exp.Some? && exp.value <= now
    ensures Serve(cfg, crypto, now, req).Answered?
    ensures Observe(Serve(cfg, crypto, now, req).reply).status == 401
  {
    BearerHeader(cfg, crypto, now, req, token);
    ExpiredRejected(cfg, crypto, token, now);
    AuthenticatePasses(cfg, crypto, now, req);
    if Under(["api", "profile"], req.path) {
      ProfileGroupGated(cfg, crypto, now, req);
    } else {
      UsersGroupGated(cfg, crypto, now, req);
    }
    AppErrors.PredefinedTable(AppErrors.Unauthorized);
  }

  /** The only role gate is the admin one, no sub-router asks for a student, and every chain starts with authentication. */
  lemma OnlyAdminGate()
    ensures forall g, m | g in SubRouters() && m in g.chain && m.RoleGate? :: m.roles == [RoleAdmin]
    ensures forall g, m | g in SubRouters() && m in g.chain && m.RoleGate? :: RoleStudent !in m.roles
    ensures forall g | g in SubRouters() && g.chain != [] :: g.chain[0] == Authentication
  {
  }
}
