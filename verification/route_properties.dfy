/** End-to-end properties of the routes: what a request gets, and what is left in the
    collection, depending on which guards it passes. */
module RouteProperties {
  import opened Values
  import opened Bcrypt
  import opened Jwt
  import opened Users
  import opened Http
  import opened Routes
  import M = Middlewares
  import A = Auth
  import U = UserActions

  /** The decision verifyToken takes on this request. */
  function TokenOf(r: Req, env: Env): Result<Claims, Response>
  {
    M.TokenCheck(M.AccessToken(r.cookies), env.config.jwtSecret, env.now)
  }

  /** Every request leaves the collection well formed. */
  lemma {:induction false} RunKeepsWellFormed(chain: seq<Layer>, r: Req, db: Db, env: Env)
    requires WellFormed(db)
    ensures WellFormed(Run(chain, r, db, env).db)
    decreases |chain|
  {
    if chain != [] {
      var s := Apply(chain[0], r, db, env);
      if s.out.Next? {
        RunKeepsWellFormed(chain[1..], s.req, s.db, env);
      }
    }
  }

  /** Every route's chain ends in exactly one answer. */
  lemma EveryRouteAnswers(route: Route, r: Req, db: Db, env: Env)
    ensures Run(Chain(route), r, db, env).out.Respond?
  {
  }

  /** The cookie loginUser sets passes verifyToken, under the same secret, exactly until the
      token's lifetime has run out, and verifyToken then attaches the user's id, username and
      role. */
  lemma LoginCookiePassesVerifyToken(u: User, env: Env, later: int, cookies: map<string, Token>)
    requires A.CanSignIn(env)
    requires "accessToken" in cookies
    requires cookies["accessToken"] == A.LoginUser(Record(u), env).cookie.token
    ensures var check := M.TokenCheck(M.AccessToken(cookies), env.config.jwtSecret, later);
      && (check.Ok? <==> later < env.now + A.TokenLifetime(env).value)
      && (check.Ok? ==> check.value.id == u.id && check.value.username == u.username
                        && check.value.role == u.role)
      && (check.Err? ==> check.error == Error(403, "Invalid or expired token."))
  {
  }

  /** On every `/user` route a request without a (non-empty) accessToken cookie gets 401,
      never 403, and nothing changes. */
  lemma MissingTokenIs401(route: Route, r: Req, db: Db, env: Env)
    requires !route.IsAuthRoute()
    requires M.AccessToken(r.cookies).None? || !Present(M.AccessToken(r.cookies).value)
    ensures Run(Chain(route), r, db, env)
         == State(Respond(Error(401, "Unauthorized. Access token is invalid")), r, db)
  {
  }

  /** On every `/user` route a token that does not verify (bad signature, expired, malformed)
      gets 403 and nothing changes. */
  lemma BadTokenIs403(route: Route, r: Req, db: Db, env: Env)
    requires !route.IsAuthRoute()
    requires M.AccessToken(r.cookies).Some? && Present(M.AccessToken(r.cookies).value)
    requires Decode(M.AccessToken(r.cookies).value, env.config.jwtSecret, env.now).Err?
    ensures Run(Chain(route), r, db, env) == State(Respond(Error(403, "Invalid or expired token.")), r, db)
  {
  }

  /** With JWT_SECRET empty, `jwt.verify` refuses every token, so no request reaches a
      `/user` controller: each gets 401 or 403 and nothing changes. */
  lemma NoSecretLocksUserRoutes(route: Route, r: Req, db: Db, env: Env)
    requires !route.IsAuthRoute() && env.config.jwtSecret == ""
    ensures var s := Run(Chain(route), r, db, env);
      && s.db == db && s.out.Respond?
      && (s.out.response == Error(401, "Unauthorized. Access token is invalid")
          || s.out.response == Error(403, "Invalid or expired token."))
  {
  }

  /** On a role-gated route a valid token whose role is not exactly the required one gets
      403 from verifyRole, the controller does not run, and the collection is unchanged. */
  lemma WrongRoleIs403(route: Route, r: Req, db: Db, env: Env, c: Claims)
    requires RequiredRole(route).Some? && TokenOf(r, env) == Ok(c)
    requires c.role != RequiredRole(route).value
    ensures Run(Chain(route), r, db, env)
         == State(Respond(Error(403, if Truthy(c.role) then "Unauthorized: Insufficient permissions"
                                     else "Unauthorized: Role information missing")),
                  r.(user := Decoded(c)), db)
  {
    var c3 := Chain(route);
    assert c3[1..][1..] == [c3[2]];
  }

  /** The ADMIN-only routes turn away a valid VIEWER token, and greet_viewer turns away a
      valid ADMIN token. */
  lemma RolesDoNotNest(route: Route, r: Req, db: Db, env: Env, c: Claims)
    requires TokenOf(r, env) == Ok(c)
    requires (RequiredRole(route) == Some(ADMIN) && c.role == VIEWER)
          || (route == UserGreetViewer && c.role == ADMIN)
    ensures Run(Chain(route), r, db, env).out == Respond(Error(403, "Unauthorized: Insufficient permissions"))
    ensures Run(Chain(route), r, db, env).db == db
  {
    WrongRoleIs403(route, r, db, env, c);
  }

  /** On every `/user` route, a valid token carrying the required role, if the route has
      one, reaches the controller, which then sees the decoded claims as `req.user`. */
  lemma ValidTokenReachesController(route: Route, r: Req, db: Db, env: Env, c: Claims)
    requires !route.IsAuthRoute() && TokenOf(r, env) == Ok(c)
    requires RequiredRole(route).Some? ==> c.role == RequiredRole(route).value
    ensures var rep := Handle(Chain(route)[|Chain(route)| - 1].handler, r.(user := Decoded(c)), db, env);
      Run(Chain(route), r, db, env) == State(Respond(rep.response), r.(user := Decoded(c)), rep.db)
  {
    var chain := Chain(route);
    var r1 := r.(user := Decoded(c));
    var last := chain[|chain| - 1];
    assert Apply(chain[0], r, db, env) == State(Next, r1, db);
    assert Run(chain, r, db, env) == Run(chain[1..], r1, db, env);
    if RequiredRole(route).Some? {
      assert Apply(chain[1], r1, db, env) == State(Next, r1, db);
      assert chain[1..][1..] == [last];
      assert Run(chain[1..], r1, db, env) == Run([last], r1, db, env);
    } else {
      assert chain[1..] == [last];
    }
    assert Run([last], r1, db, env) == Apply(last, r1, db, env);
  }

  /** Registration without a password is answered by the hasher with 400, before
      registerUser runs, and nothing is stored. */
  lemma RegisterWithoutPassword(r: Req, db: Db, env: Env)
    requires !Given(r.body, "password")
    ensures Run(Chain(AuthRegister), r, db, env)
         == State(Respond(Error(400, "Password is a required field")), r, db)
  {
  }

  /** registerUser only sees a hashed password: a successful registration stores, under
      role VIEWER, a hash that verifies against the password the client sent. */
  lemma RegisterStoresVerifiableHash(r: Req, db: Db, env: Env)
    requires Run(Chain(AuthRegister), r, db, env).out.Respond?
    requires Run(Chain(AuthRegister), r, db, env).out.response.status == 201
    ensures Given(r.body, "password")
    ensures var after := Run(Chain(AuthRegister), r, db, env).db;
      && |after.users| == |db.users| + 1
      && after.users[|db.users|].role == VIEWER
      && Compare(r.body["password"], after.users[|db.users|].password)
      && after.users[|db.users|].password == Hash(r.body["password"], env.salt)
  {
    if !Given(r.body, "password") {
      RegisterWithoutPassword(r, db, env);
    }
  }

  /** loginUser runs only after comparePasswordForAuthentication accepted the credentials,
      and then on exactly the document it found. */
  lemma LoginOnlyAfterCredentials(r: Req, db: Db, env: Env)
    ensures var check := M.CheckCredentials(db.users, r.body);
      Run(Chain(AuthLogin), r, db, env)
      == if check.Err? then State(Respond(check.error), r, db)
         else State(Respond(A.LoginUser(Record(check.value), env)), r.(user := Record(check.value)), db)
  {
    var chain := Chain(AuthLogin);
    var check := M.CheckCredentials(db.users, r.body);
    if check.Ok? {
      var found := r.(user := Record(check.value));
      assert Apply(chain[0], r, db, env) == State(Next, found, db);
      assert Handle(LoginUser, found, db, env) == Reply(A.LoginUser(Record(check.value), env), db);
      assert Run(chain[1..], found, db, env) == Apply(Controller(LoginUser), found, db, env);
    }
  }

  /** No `/auth` route looks at the accessToken cookie: the answer and the collection are
      the same whatever cookies the request carries. */
  lemma AuthRoutesIgnoreCookies(route: Route, r: Req, db: Db, env: Env, cookies: map<string, Token>)
    requires route.IsAuthRoute()
    ensures Run(Chain(route), r, db, env).out == Run(Chain(route), r.(cookies := cookies), db, env).out
    ensures Run(Chain(route), r, db, env).db == Run(Chain(route), r.(cookies := cookies), db, env).db
  {
    var other := r.(cookies := cookies);
    if route == AuthLogin {
      LoginOnlyAfterCredentials(r, db, env);
      LoginOnlyAfterCredentials(other, db, env);
    } else if route == AuthLogout {
      LogoutAlwaysSucceeds(r, db, env);
      LogoutAlwaysSucceeds(other, db, env);
    }
  }

  /** Logout has no guard and always answers 200 with the instruction to clear the cookie,
      whether or not one was sent, so logging out twice is the same as once. */
  lemma LogoutAlwaysSucceeds(r: Req, db: Db, env: Env)
    ensures Run(Chain(AuthLogout), r, db, env) == State(Respond(A.LogoutUser(env.config)), r, db)
    ensures A.LogoutUser(env.config).status == 200
  {
  }

  /** After saving a document over its own id, findById returns the saved document. */
  lemma FindByIdAfterReplace(users: seq<User>, v: User)
    requires FindById(users, v.id).Some?
    requires forall i, j :: 0 <= i < j < |users| ==> users[i].id != users[j].id
    ensures FindById(Replaced(users, v), v.id) == Some(v)
  {
    var k := IndexOfId(users, v.id);
    FindByIdAtIndex(users, v.id);
    FindByIdAtIndex(Replaced(users, v), v.id);
    assert IndexOfId(Replaced(users, v), v.id) == k;
  }

  /** With a valid token, PUT /user/updateUser with no truthy password stores the caller's
      document with the body applied and answers 200. */
  lemma ReachUpdate(r: Req, db: Db, env: Env, c: Claims) returns (v: User)
    requires TokenOf(r, env) == Ok(c)
    requires FindById(db.users, c.id).Some? && !Given(r.body, "password")
    ensures v == U.ApplyUpdates(FindById(db.users, c.id).value, r.body)
    ensures var s := Run(Chain(UserUpdateUser), r, db, env);
      s.out.Respond? && s.out.response.status == 200 && s.db.users == Replaced(db.users, v)
  {
    var r1 := r.(user := Decoded(c));
    ValidTokenReachesController(UserUpdateUser, r, db, env, c);
    var rep := U.ProfileUpdate(Decoded(c), r.body, db);
    assert Handle(UpdateUser, r1, db, env) == rep;
    v := U.ApplyUpdates(FindById(db.users, c.id).value, r.body);
  }

  /** updateUser only refuses a truthy password, so any holder of a valid token can set their
      own role: a body {role: "ADMIN"} makes the caller's document ADMIN. */
  lemma UpdateUserCanGrantAdmin(r: Req, db: Db, env: Env, c: Claims)
    requires WellFormed(db) && TokenOf(r, env) == Ok(c)
    requires FindById(db.users, c.id).Some?
    requires r.body == map["role" := ADMIN]
    ensures var s := Run(Chain(UserUpdateUser), r, db, env);
      && s.out.Respond? && s.out.response.status == 200
      && FindById(s.db.users, c.id).Some? && FindById(s.db.users, c.id).value.role == ADMIN
  {
    var v := ReachUpdate(r, db, env, c);
    FindByIdAfterReplace(db.users, v);
  }

  /** An empty password is falsy, so updateUser lets it through and it overwrites the stored
      hash: afterwards the caller's document has no password set. */
  lemma UpdateUserCanClearPassword(r: Req, db: Db, env: Env, c: Claims)
    requires WellFormed(db) && TokenOf(r, env) == Ok(c)
    requires FindById(db.users, c.id).Some?
    requires r.body == map["password" := Str("")]
    ensures var s := Run(Chain(UserUpdateUser), r, db, env);
      && s.out.Respond? && s.out.response.status == 200
      && FindById(s.db.users, c.id).Some? && !Truthy(FindById(s.db.users, c.id).value.password)
  {
    var v := ReachUpdate(r, db, env, c);
    FindByIdAfterReplace(db.users, v);
  }

  /** A role change shows in the next login: once changeRole has set a user's role, logging
      in with that user's credentials issues a token carrying the new role. (Tokens issued
      earlier are values and keep the role they were signed with until they expire.) */
  lemma RoleChangeShowsAtNextLogin(db: Db, k: nat, newRole: string, login: Req, env: Env)
    requires WellFormed(db) && UniqueLogins(db.users)
    requires k < |db.users| && newRole != ""
    requires Given(login.body, "username") && Given(login.body, "password")
    requires login.body["username"] == db.users[k].username
    requires Compare(login.body["password"], db.users[k].password)
    requires A.CanSignIn(env)
    ensures var changed := U.RoleChange(Params(db.users[k].id, newRole), db).db;
      var s := Run(Chain(AuthLogin), login, changed, env);
      && s.out.Respond? && s.out.response.status == 200
      && s.out.response.cookie.SetCookie? && s.out.response.cookie.token.Signed?
      && s.out.response.cookie.token.claims.role == Str(newRole)
      && s.out.response.cookie.token.claims.id == db.users[k].id
  {
    var u := db.users[k];
    FindByIdAtIndex(db.users, u.id);
    var changed := U.RoleChange(Params(u.id, newRole), db).db;
    assert changed.users[k] == u.(role := Str(newRole));
    forall j | 0 <= j < k
      ensures changed.users[j].username != login.body["username"]
    {
      assert changed.users[j] == db.users[j];
    }
    M.CredentialsUseFirstMatch(changed.users, login.body, k);
    LoginOnlyAfterCredentials(login, changed, env);
  }
}
