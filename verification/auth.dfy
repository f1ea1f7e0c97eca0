/** The authentication controllers: registration, login and logout. */
module Auth {
  import opened Values
  import opened Jwt
  import opened JsNumbers
  import opened Users
  import opened Http

  // ---------------------------------------------------------------------------
  // registerUser

  /** The five fields registration requires, all truthy. */
  predicate AllGiven(body: Body)
  {
    Given(body, "firstName") && Given(body, "lastName") && Given(body, "username")
    && Given(body, "email") && Given(body, "password")
  }

  /** An existing document has the username or the email. */
  predicate Taken(users: seq<User>, body: Body)
    requires AllGiven(body)
  {
    FindByUsernameOrEmail(users, body["username"], body["email"]).Some?
  }

  /** What registerUser answers and stores: 400 for a missing field and 409 for a taken
      username or email, both leaving the collection as it was; otherwise exactly one document
      is appended under a fresh id, with the fields as given (the password as the hasher left
      it) and role VIEWER, and the 201 answer carries only its id, username and role. The
      collection stays well formed, and registration keeps usernames and emails unique. */
  function Registration(body: Body, db: Db): (rep: Reply)
    ensures !AllGiven(body) ==> rep == Reply(Error(400, "All fields are required."), db)
    ensures AllGiven(body) && Taken(db.users, body) ==>
      rep == Reply(Error(409, "Username or email already exists."), db)
    ensures rep.response.status == 201 <==> AllGiven(body) && !Taken(db.users, body)
    ensures rep.response.status == 201 ==>
      && |rep.db.users| == |db.users| + 1 && rep.db.users[..|db.users|] == db.users
      && var u := rep.db.users[|db.users|];
      && u == User(db.nextId, body["firstName"], body["lastName"], body["username"],
                   body["email"], body["password"], VIEWER)
      && rep.response.data == Registered(u.id, u.username, VIEWER)
    ensures WellFormed(db) ==> WellFormed(rep.db)
    ensures UniqueLogins(db.users) ==> UniqueLogins(rep.db.users)
  {
    if !AllGiven(body) then Reply(Error(400, "All fields are required."), db)
    else if Taken(db.users, body) then Reply(Error(409, "Username or email already exists."), db)
    else
      var u := User(db.nextId, body["firstName"], body["lastName"], body["username"],
                    body["email"], body["password"], VIEWER);
      Reply(Success(201, "User registered successfully.", Registered(u.id, u.username, u.role)),
            Db(db.users + [u], db.nextId + 1))
  }

  /** registerUser: checks the fields and the uniqueness, then inserts. */
  method RegisterUser(req: Request, store: UserStore) returns (resp: Response)
    modifies store
    ensures Reply(resp, store.Snapshot()) == Registration(req.body, old(store.Snapshot()))
  {
    var body := req.body;
    if !AllGiven(body) {
      return Error(400, "All fields are required.");
    }
    var existing := FindByUsernameOrEmail(store.users, body["username"], body["email"]);
    if existing.Some? {
      return Error(409, "Username or email already exists.");
    }
    var newUser := store.Create(body["firstName"], body["lastName"], body["username"],
                                body["email"], body["password"], VIEWER);
    resp := Success(201, "User registered successfully.",
                    Registered(newUser.id, newUser.username, newUser.role));
  }

  // ---------------------------------------------------------------------------
  // loginUser

  /** `process.env.ACCESS_TOKEN_EXPIRATION || "1h"`: an unset or empty expiry setting means
      one hour, any other setting is used as it is. */
  function ExpiresIn(setting: Option<string>): (e: string)
    ensures e != ""
    ensures setting.None? || setting.value == "" ==> e == "1h"
    ensures setting.Some? && setting.value != "" ==> e == setting.value
  {
    if setting.Some? && setting.value != "" then setting.value else "1h"
  }

  /** `parseInt(process.env.COOKIE_MAX_AGE) * 60 * 60 * 1000`, None standing for NaN
      (an unset setting reads as "undefined", which parses to NaN). */
  function CookieMaxAge(setting: Option<string>): (age: Option<int>)
    ensures age.Some? <==> setting.Some? && ParseInt(setting.value).Some?
    ensures age.Some? ==> age.value == ParseInt(setting.value).value * 3600000
  {
    if setting.None? then None
    else match ParseInt(setting.value)
      case None => None
      case Some(hours) => Some(hours * 60 * 60 * 1000)
  }

  /** A setting of n hours (optionally followed by text such as "h") gives n × 3,600,000 ms. */
  lemma CookieMaxAgeInMilliseconds(hours: nat, rest: string)
    requires rest == [] || (!IsDigit(rest[0], 10) && rest[0] != 'x' && rest[0] != 'X')
    ensures CookieMaxAge(Some(Decimal(hours) + rest)) == Some(hours * 3600000)
  {
    var setting := Decimal(hours) + rest;
    ParseIntReadsDecimal(hours, rest);
    assert ParseInt(setting) == Some(hours as int);
    calc {
      CookieMaxAge(Some(setting));
      Some(hours * 60 * 60 * 1000);
      { assert hours * 60 * 60 * 1000 == hours * 3600000; }
      Some(hours * 3600000);
    }
  }

  /** `process.env.NODE_ENV === "production"` */
  predicate Secure(config: Config)
  {
    config.nodeEnv == Some("production")
  }

  /** The options loginUser sets the cookie with. */
  function SessionCookie(config: Config): (o: CookieOptions)
    ensures o.httpOnly && o.sameSite == "None"
    ensures o.secure <==> config.nodeEnv == Some("production")
    ensures o.maxAge == CookieMaxAge(config.cookieMaxAge)
  {
    CookieOptions(true, CookieMaxAge(config.cookieMaxAge), Secure(config), "None")
  }

  /** The number of seconds the expiry setting stands for, as jsonwebtoken reads it with
      `ms`; None when `ms` cannot read the string. */
  function TokenLifetime(env: Env): Option<int>
  {
    env.lifetime(ExpiresIn(env.config.accessTokenExpiration))
  }

  /** An environment loginUser can sign a user in with. `jwt.sign` throws for an empty
      JWT_SECRET and for an expiry string `ms` cannot read, and serialising the cookie
      throws when COOKIE_MAX_AGE does not parse (its max age is then NaN). */
  predicate CanSignIn(env: Env)
  {
    && env.config.jwtSecret != ""
    && TokenLifetime(env).Some?
    && CookieMaxAge(env.config.cookieMaxAge).Some?
  }

  /** loginUser's answer once signing succeeds: 200 with document `u` minus its password,
      and the http-only `accessToken` cookie holding a token signed with JWT_SECRET over
      exactly its id, username and role, issued now and living as long as the expiry
      setting says. */
  function SignedIn(u: User, env: Env): (resp: Response)
    requires TokenLifetime(env).Some?
    ensures && resp.status == 200 && resp.success
      && resp.data == Profile(Public(u))
      && resp.cookie.SetCookie? && resp.cookie.name == "accessToken"
      && resp.cookie.options == SessionCookie(env.config)
      && resp.cookie.token == Signed(Claims(u.id, u.username, u.role, env.now,
                                            env.now + TokenLifetime(env).value),
                                     env.config.jwtSecret)
  {
    Response(200, "Login successful", true, Profile(Public(u)),
             SetCookie("accessToken", Sign(Payload(u.id, u.username, u.role), env.config.jwtSecret, env.now,
                                      TokenLifetime(env).value),
                       SessionCookie(env.config)))
  }

  /** What loginUser answers for the document comparePasswordForAuthentication attached:
      `SignedIn`. Without a document in `req.user` reading it throws, and so does signing
      or setting the cookie in an environment it cannot sign in with: both are a 500. */
  function LoginUser(user: ReqUser, env: Env): (resp: Response)
    ensures user.Record? && CanSignIn(env) ==>
      && resp.status == 200 && resp.success
      && resp.data == Profile(Public(user.user))
      && resp.cookie.SetCookie? && resp.cookie.name == "accessToken"
      && resp.cookie.options == SessionCookie(env.config)
      && resp.cookie.token == Signed(Claims(user.user.id, user.user.username, user.user.role, env.now,
                                            env.now + TokenLifetime(env).value),
                                     env.config.jwtSecret)
    ensures !user.Record? || !CanSignIn(env) ==> resp == Error(500, "Internal Server Error.")
  {
    if user.Record? && CanSignIn(env) then SignedIn(user.user, env)
    else
      Error(500, "Internal Server Error.")
  }

  // ---------------------------------------------------------------------------
  // logoutUser

  /** What logoutUser answers: 200 with an instruction to clear `accessToken`, whatever the
      request held. */
  function LogoutUser(config: Config): (resp: Response)
    ensures resp.status == 200 && resp.success && resp.message == "Logout successful"
    ensures resp.cookie == ClearCookie("accessToken", CookieOptions(true, None, Secure(config), "None"))
  {
    Response(200, "Logout successful", true, NoData,
             ClearCookie("accessToken", CookieOptions(true, None, Secure(config), "None")))
  }
}
