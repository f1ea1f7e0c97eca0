/** The two routers: which middlewares run before which controller on each route, the
    meaning of running such a chain, and the method that runs one on the request and store
    objects the way Express does (each layer either answers or calls next). */
module Routes {
  import opened Values
  import opened Users
  import opened Http
  import M = Middlewares
  import A = Auth
  import U = UserActions

  /** The controllers. */
  datatype Handler =
    | AdminSpecificRoute | ViewerSpecificRoute
    | GetAllUsers | GetUserById | UpdateUser | DeleteUser | ChangePassword | ChangeUserRole
    | RegisterUser | LoginUser | LogoutUser

  /** One layer of a route's chain: a middleware or the final controller. */
  datatype Layer =
    | VerifyToken
    | VerifyRole(required: Value)
    | HashUserPassword
    | ComparePasswordForAuthentication
    | Controller(handler: Handler)

  datatype Verb = GET | POST | PUT | PATCH | DELETE

  /** The routes of the `/user` and `/auth` routers. */
  datatype Route =
    | UserGreetAdmin | UserGreetViewer | UserGet | UserGetById | UserUpdateUser
    | UserDeleteUser | UserChangePass | UserChangeRole
    | AuthRegister | AuthLogin | AuthLogout
  {
    predicate IsAuthRoute()
    {
      AuthRegister? || AuthLogin? || AuthLogout?
    }

    function Verb(): Verb
    {
      match this
      case UserGreetAdmin | UserGreetViewer | UserGet | UserGetById => GET
      case UserUpdateUser => PUT
      case UserDeleteUser => DELETE
      case UserChangePass | UserChangeRole => PATCH
      case AuthRegister | AuthLogin | AuthLogout => POST
    }

    function Path(): string
    {
      match this
      case UserGreetAdmin => "/user/greet_admin"
      case UserGreetViewer => "/user/greet_viewer"
      case UserGet => "/user/get"
      case UserGetById => "/user/getById"
      case UserUpdateUser => "/user/updateUser"
      case UserDeleteUser => "/user/deleteUser"
      case UserChangePass => "/user/changePass"
      case UserChangeRole => "/user/changeRole/:id/:newRole"
      case AuthRegister => "/auth/register"
      case AuthLogin => "/auth/login"
      case AuthLogout => "/auth/logout"
    }
  }

  /** No two routes share a method and a path, and the `/auth` routes are exactly those
      mounted under `/auth/`. */
  lemma RouteTableIsUnambiguous(a: Route, b: Route)
    ensures a.Verb() == b.Verb() && a.Path() == b.Path() ==> a == b
    ensures a.IsAuthRoute() <==> a.Path()[..6] == "/auth/"
  {
    assert a.Path()[..6] == if a.IsAuthRoute() then "/auth/" else "/user/";
  }

  /** The role a `/user` route's chain gates on, if any. */
  function RequiredRole(route: Route): Option<Value>
  {
    match route
    case UserGreetAdmin | UserChangePass | UserChangeRole => Some(ADMIN)
    case UserGreetViewer => Some(VIEWER)
    case _ => None
  }

  /** The route table: every `/user` route starts with verifyToken, followed by verifyRole
      exactly when the route is role-gated, then its controller; `/auth` routes never verify
      a token. A chain ends in its controller and holds no other controller. */
  function Chain(route: Route): (c: seq<Layer>)
    ensures |c| >= 1 && c[|c| - 1].Controller?
    ensures forall i :: 0 <= i < |c| - 1 ==> !c[i].Controller?
    ensures !route.IsAuthRoute() <==> c[0] == VerifyToken
    ensures forall i :: 0 <= i < |c| && c[i] == VerifyToken ==> i == 0 && !route.IsAuthRoute()
    ensures forall i :: 0 <= i < |c| && c[i].VerifyRole? ==>
      i == 1 && c[0] == VerifyToken && i < |c| - 1 && RequiredRole(route) == Some(c[i].required)
    ensures RequiredRole(route).Some? ==> |c| == 3 && c[1] == VerifyRole(RequiredRole(route).value)
  {
    match route
    case UserGreetAdmin => [VerifyToken, VerifyRole(ADMIN), Controller(AdminSpecificRoute)]
    case UserGreetViewer => [VerifyToken, VerifyRole(VIEWER), Controller(ViewerSpecificRoute)]
    case UserGet => [VerifyToken, Controller(GetAllUsers)]
    case UserGetById => [VerifyToken, Controller(GetUserById)]
    case UserUpdateUser => [VerifyToken, Controller(UpdateUser)]
    case UserDeleteUser => [VerifyToken, Controller(DeleteUser)]
    case UserChangePass => [VerifyToken, VerifyRole(ADMIN), Controller(ChangePassword)]
    case UserChangeRole => [VerifyToken, VerifyRole(ADMIN), Controller(ChangeUserRole)]
    case AuthRegister => [HashUserPassword, Controller(RegisterUser)]
    case AuthLogin => [ComparePasswordForAuthentication, Controller(LoginUser)]
    case AuthLogout => [Controller(LogoutUser)]
  }

  /** A request in flight: the last outcome, the request and the collection. */
  datatype State = State(out: Outcome, req: Req, db: Db)

  /** What a controller answers and leaves in the collection. Every controller keeps the
      collection well formed. */
  function Handle(h: Handler, r: Req, db: Db, env: Env): (rep: Reply)
    ensures WellFormed(db) ==> WellFormed(rep.db)
  {
    match h
    case AdminSpecificRoute => Reply(U.GreetAdmin(), db)
    case ViewerSpecificRoute => Reply(U.GreetViewer(), db)
    case GetAllUsers => Reply(U.GetAllUsers(db), db)
    case GetUserById => Reply(U.GetUserById(r.user, db), db)
    case UpdateUser => U.ProfileUpdate(r.user, r.body, db)
    case DeleteUser => U.Deletion(r.user, db, env.objectId)
    case ChangePassword => U.PasswordChange(r.user, r.body, db, env.salt, env.castId)
    case ChangeUserRole => U.RoleChange(r.params, db)
    case RegisterUser => A.Registration(r.body, db)
    case LoginUser => Reply(A.LoginUser(r.user, env), db)
    case LogoutUser => Reply(A.LogoutUser(env.config), db)
  }

  /** One layer applied to a request: a middleware never touches the collection and, when it
      answers, leaves the request as it was; a controller always answers. */
  function Apply(layer: Layer, r: Req, db: Db, env: Env): (s: State)
    ensures !layer.Controller? ==> s.db == db
    ensures !layer.Controller? && s.out.Respond? ==> s.req == r
    ensures layer.Controller? ==> s.out.Respond? && s.req == r
    ensures s.out.Next? ==> s.req.cookies == r.cookies && s.req.params == r.params
    ensures WellFormed(db) ==> WellFormed(s.db)
  {
    match layer
    case VerifyToken =>
      (match M.TokenCheck(M.AccessToken(r.cookies), env.config.jwtSecret, env.now)
       case Ok(c) => State(Next, r.(user := Decoded(c)), db)
       case Err(e) => State(Respond(e), r, db))
    case VerifyRole(role) => State(M.VerifyRole(role, r.user), r, db)
    case HashUserPassword =>
      (match M.HashPassword(r.body, env.salt)
       case Ok(b) => State(Next, r.(body := b), db)
       case Err(e) => State(Respond(e), r, db))
    case ComparePasswordForAuthentication =>
      (match M.CheckCredentials(db.users, r.body)
       case Ok(u) => State(Next, r.(user := Record(u)), db)
       case Err(e) => State(Respond(e), r, db))
    case Controller(h) =>
      var rep := Handle(h, r, db, env);
      State(Respond(rep.response), r, rep.db)
  }

  /** Running a chain: each layer in turn until one answers. */
  function Run(chain: seq<Layer>, r: Req, db: Db, env: Env): (s: State)
    ensures chain != [] && chain[|chain| - 1].Controller? ==> s.out.Respond?
    ensures s.req.cookies == r.cookies && s.req.params == r.params
    decreases |chain|
  {
    if chain == [] then State(Next, r, db)
    else
      var s := Apply(chain[0], r, db, env);
      if s.out.Next? then Run(chain[1..], s.req, s.db, env) else s
  }

  /** One layer on the request and store objects. */
  method ApplyLayer(layer: Layer, req: Request, store: UserStore, env: Env) returns (out: Outcome)
    modifies req, store
    ensures State(out, req.Snapshot(), store.Snapshot())
         == Apply(layer, old(req.Snapshot()), old(store.Snapshot()), env)
  {
    match layer
    case VerifyToken =>
      out := M.VerifyToken(req, env.config.jwtSecret, env.now);
    case VerifyRole(role) =>
      out := M.VerifyRole(role, req.user);
    case HashUserPassword =>
      out := M.HashUserPassword(req, env.salt);
    case ComparePasswordForAuthentication =>
      out := M.ComparePasswordForAuthentication(req, store);
    case Controller(h) =>
      var resp: Response;
      match h {
        case AdminSpecificRoute => resp := U.GreetAdmin();
        case ViewerSpecificRoute => resp := U.GreetViewer();
        case GetAllUsers => resp := U.GetAllUsers(store.Snapshot());
        case GetUserById => resp := U.GetUserById(req.user, store.Snapshot());
        case UpdateUser => resp := U.UpdateUser(req, store);
        case DeleteUser => resp := U.DeleteUser(req, store, env.objectId);
        case ChangePassword => resp := U.ChangePassword(req, store, env.salt, env.castId);
        case ChangeUserRole => resp := U.ChangeUserRole(req, store);
        case RegisterUser => resp := A.RegisterUser(req, store);
        case LoginUser => resp := A.LoginUser(req.user, env);
        case LogoutUser => resp := A.LogoutUser(env.config);
      }
      out := Respond(resp);
  }

  /** Serving a request on a route: the layers of its chain run in order on the request and
      store objects until one answers; the chain always ends in exactly one answer. */
  method Serve(route: Route, req: Request, store: UserStore, env: Env) returns (resp: Response)
    modifies req, store
    ensures Run(Chain(route), old(req.Snapshot()), old(store.Snapshot()), env)
         == State(Respond(resp), req.Snapshot(), store.Snapshot())
  {
    var chain := Chain(route);
    var i := 0;
    var out := Next;
    while i < |chain| && out.Next?
      invariant 0 <= i <= |chain|
      invariant out.Next? ==> i < |chain|
      invariant out.Next? ==>
        Run(chain, old(req.Snapshot()), old(store.Snapshot()), env)
        == Run(chain[i..], req.Snapshot(), store.Snapshot(), env)
      invariant out.Respond? ==>
        Run(chain, old(req.Snapshot()), old(store.Snapshot()), env)
        == State(out, req.Snapshot(), store.Snapshot())
      decreases |chain| - i
    {
      assert chain[i..][1..] == chain[i + 1..];
      out := ApplyLayer(chain[i], req, store, env);
      i := i + 1;
    }
    resp := out.response;
  }
}
