/** The request and response objects the middlewares and controllers work on, and the
    configuration they read from the environment. */
module Http {
  import opened Values
  import opened Jwt
  import opened Users

  /** The `data` member of a JSON response body. */
  datatype Data =
    | NoData
    | Actions(actions: seq<string>)
    | Registered(id: Id, username: Value, role: Value)
    | Profile(user: PublicUser)
    | Profiles(users: seq<PublicUser>)
    | Document(doc: User)

  /** The options passed to `res.cookie` / `res.clearCookie`; `maxAge` is None when the
      option is not passed. */
  datatype CookieOptions = CookieOptions(httpOnly: bool, maxAge: Option<int>, secure: bool, sameSite: string)

  datatype CookieOp =
    | NoCookie
    | SetCookie(name: string, token: Token, options: CookieOptions)
    | ClearCookie(name: string, options: CookieOptions)

  /** One response: status, the JSON envelope `{ message, success?, data? }`, and the cookie
      instruction sent with it. */
  datatype Response = Response(status: nat, message: string, success: bool, data: Data, cookie: CookieOp)

  /** What a middleware or controller does with a request: hand it on (`next()`) or answer it. */
  datatype Outcome = Next | Respond(response: Response)

  /** `res.status(status).json({ message })` */
  function Error(status: nat, message: string): Response
  {
    Response(status, message, false, NoData, NoCookie)
  }

  /** `res.status(status).json({ message, success: true, data })` */
  function Success(status: nat, message: string, data: Data): Response
  {
    Response(status, message, true, data, NoCookie)
  }

  /** `req.user`: unset, the decoded token payload (verifyToken), or a stored document
      (comparePasswordForAuthentication). */
  datatype ReqUser = Anonymous | Decoded(claims: Claims) | Record(user: User)

  /** `req.user.id`; reading it from an unset `req.user` throws. */
  function IdOf(user: ReqUser): Option<Id>
  {
    match user
    case Anonymous => None
    case Decoded(c) => Some(c.id)
    case Record(u) => Some(u.id)
  }

  /** `req.params` of the route `/changeRole/:id/:newRole`. */
  datatype Params = Params(id: Id, newRole: string)

  /** A request as a value: the parts the middlewares read and write. */
  datatype Req = Req(cookies: map<string, Token>, body: Body, params: Params, user: ReqUser)

  /** The request object; middlewares write `user` and `body` in place. */
  class Request {
    const cookies: map<string, Token>
    const params: Params
    var body: Body
    var user: ReqUser

    function Snapshot(): Req
      reads this
    {
      Req(cookies, body, params, user)
    }

    constructor (cookies: map<string, Token>, body: Body, params: Params)
      ensures Snapshot() == Req(cookies, body, params, Anonymous)
    {
      this.cookies := cookies;
      this.params := params;
      this.body := body;
      this.user := Anonymous;
    }
  }

  /** The environment settings the core reads: JWT_SECRET, ACCESS_TOKEN_EXPIRATION,
      COOKIE_MAX_AGE and NODE_ENV (None when unset). */
  datatype Config = Config(jwtSecret: Secret, accessTokenExpiration: Option<string>,
                           cookieMaxAge: Option<string>, nodeEnv: Option<string>)

  /** Everything a request's handling depends on besides the request and the store: the
      configuration, the clock (seconds), the salt genSalt draws, and jsonwebtoken's reading
      of an expiresIn string as seconds (None: `ms` cannot read it). Two mongoose behaviours on the whole `req.user`
      object are parameters too: `objectId` is the document id the filter `{ id: req.user }`
      of deleteUser resolves to (None: it matches nothing), and `castId` is the id
      `findById(req.user)` of changePassword casts it to (None: the cast throws). */
  datatype Env = Env(config: Config, now: int, salt: Salt, lifetime: string -> Option<int>,
                     objectId: ReqUser -> Option<Id>, castId: ReqUser -> Option<Id>)

  /** A controller's answer together with the collection after it. */
  datatype Reply = Reply(response: Response, db: Db)
}
