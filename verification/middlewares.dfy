/** The four middlewares: each decision is a function of the request (and the store), and
    the middleware itself is a method that applies the decision to the request object. */
module Middlewares {
  import opened Values
  import opened Bcrypt
  import opened Jwt
  import opened Users
  import opened Http

  // ---------------------------------------------------------------------------
  // verifyRole(requiredRole)

  /** `req.user.role`, or None when `req.user` is unset. */
  function RoleOf(user: ReqUser): Option<Value>
  {
    match user
    case Anonymous => None
    case Decoded(c) => Some(c.role)
    case Record(u) => Some(u.role)
  }

  /** Neither `!req.user` nor `!req.user.role` holds. */
  predicate HasRole(user: ReqUser)
  {
    RoleOf(user).Some? && Truthy(RoleOf(user).value)
  }

  /** The gate `verifyRole(required)`: a missing role and a different role are both 403, with
      different messages; only an exactly equal role passes, and passing changes nothing. */
  function VerifyRole(required: Value, user: ReqUser): (out: Outcome)
    ensures out.Next? <==> HasRole(user) && RoleOf(user).value == required
    ensures !HasRole(user) ==> out == Respond(Error(403, "Unauthorized: Role information missing"))
    ensures HasRole(user) && RoleOf(user).value != required ==>
      out == Respond(Error(403, "Unauthorized: Insufficient permissions"))
  {
    if !HasRole(user) then Respond(Error(403, "Unauthorized: Role information missing"))
    else if RoleOf(user).value != required then Respond(Error(403, "Unauthorized: Insufficient permissions"))
    else Next
  }

  /** Roles are compared for equality, not ranked: ADMIN fails the VIEWER gate and VIEWER
      fails the ADMIN gate. */
  lemma RolesAreNotRanked(c: Claims)
    requires c.role == ADMIN || c.role == VIEWER
    ensures VerifyRole(if c.role == ADMIN then VIEWER else ADMIN, Decoded(c))
         == Respond(Error(403, "Unauthorized: Insufficient permissions"))
  {
  }

  // ---------------------------------------------------------------------------
  // verifyToken

  /** `req.cookies.accessToken` */
  function AccessToken(cookies: map<string, Token>): Option<Token>
  {
    if "accessToken" in cookies then Some(cookies["accessToken"]) else None
  }

  /** The decision of verifyToken: 401 for a missing or empty token, which is checked before
      the token is verified; 403 for a token that does not verify; otherwise the claims
      exactly as decoded. */
  function TokenCheck(token: Option<Token>, secret: Secret, now: int): (r: Result<Claims, Response>)
    ensures r == Err(Error(401, "Unauthorized. Access token is invalid"))
        <==> token.None? || !Present(token.value)
    ensures r == Err(Error(403, "Invalid or expired token."))
        <==> token.Some? && Present(token.value) && Decode(token.value, secret, now).Err?
    ensures r.Ok? ==> token.Some? && Decode(token.value, secret, now) == Ok(r.value)
    ensures token.Some? && Present(token.value) && Decode(token.value, secret, now).Ok? ==>
      r == Ok(Decode(token.value, secret, now).value)
  {
    if token.None? || !Present(token.value) then Err(Error(401, "Unauthorized. Access token is invalid"))
    else match Decode(token.value, secret, now)
      case Err(_) => Err(Error(403, "Invalid or expired token."))
      case Ok(c) => Ok(c)
  }

  /** verifyToken: answers 401 or 403 and leaves `req.user` alone, or stores the decoded
      claims in `req.user` and calls next. */
  method VerifyToken(req: Request, secret: Secret, now: int) returns (out: Outcome)
    modifies req`user
    ensures match TokenCheck(AccessToken(req.cookies), secret, now)
      case Ok(c) => out == Next && req.user == Decoded(c)
      case Err(e) => out == Respond(e) && req.user == old(req.user)
  {
    var token := AccessToken(req.cookies);
    if token.None? || !Present(token.value) {
      return Respond(Error(401, "Unauthorized. Access token is invalid"));
    }
    var decoded := Decode(token.value, secret, now);
    if decoded.Err? {
      return Respond(Error(403, "Invalid or expired token."));
    }
    req.user := Decoded(decoded.value);
    out := Next;
  }

  // ---------------------------------------------------------------------------
  // comparePasswordForAuthentication

  /** The decision of comparePasswordForAuthentication: every failure is a 400; success means
      both fields were given, the username matched and the password verifies against the
      hash of the first matching document, which is the one returned. */
  function CheckCredentials(users: seq<User>, body: Body): (r: Result<User, Response>)
    ensures r.Err? ==> r.error.status == 400 && r.error.cookie == NoCookie
    ensures !Given(body, "username") || !Given(body, "password") ==>
      r == Err(Error(400, "Please provide both username and password"))
    ensures r.Ok? <==>
      && Given(body, "username") && Given(body, "password")
      && FindByUsername(users, body["username"]) != []
      && Compare(body["password"], FindByUsername(users, body["username"])[0].password)
    ensures r.Ok? ==> r.value == FindByUsername(users, body["username"])[0]
  {
    if !Given(body, "username") || !Given(body, "password") then
      Err(Error(400, "Please provide both username and password"))
    else
      var found := FindByUsername(users, body["username"]);
      if found == [] then Err(Error(400, "Invalid username or password"))
      else if !Truthy(found[0].password) then Err(Error(400, "User password is not set"))
      else if !Compare(body["password"], found[0].password) then Err(Error(400, "Invalid username or password"))
      else Ok(found[0])
  }

  /** An unknown username and a wrong password get the same answer. */
  lemma UnknownUserLooksLikeWrongPassword(users: seq<User>, unknown: Body, wrong: Body)
    requires Given(unknown, "username") && Given(unknown, "password")
    requires FindByUsername(users, unknown["username"]) == []
    requires Given(wrong, "username") && Given(wrong, "password")
    requires FindByUsername(users, wrong["username"]) != []
    requires Truthy(FindByUsername(users, wrong["username"])[0].password)
    requires !Compare(wrong["password"], FindByUsername(users, wrong["username"])[0].password)
    ensures CheckCredentials(users, unknown) == CheckCredentials(users, wrong)
                                             == Err(Error(400, "Invalid username or password"))
  {
  }

  /** A matching document without a stored password gets its own message, unlike the other
      failures. */
  lemma MissingHashIsReported(users: seq<User>, body: Body)
    requires Given(body, "username") && Given(body, "password")
    requires FindByUsername(users, body["username"]) != []
    requires !Truthy(FindByUsername(users, body["username"])[0].password)
    ensures CheckCredentials(users, body) == Err(Error(400, "User password is not set"))
  {
  }

  /** With several documents under one username, only the earliest is tried: its password
      decides, whatever the later ones hold. */
  lemma CredentialsUseFirstMatch(users: seq<User>, body: Body, k: nat)
    requires Given(body, "username") && Given(body, "password")
    requires k < |users| && users[k].username == body["username"]
    requires forall j :: 0 <= j < k ==> users[j].username != body["username"]
    ensures CheckCredentials(users, body)
         == if Compare(body["password"], users[k].password) then Ok(users[k])
            else if Truthy(users[k].password) then Err(Error(400, "Invalid username or password"))
            else Err(Error(400, "User password is not set"))
  {
    FindByUsernameStartsWithFirst(users, body["username"], k);
  }

  /** comparePasswordForAuthentication: answers 400 and leaves `req.user` alone, or stores the
      matching document in `req.user` and calls next. */
  method ComparePasswordForAuthentication(req: Request, store: UserStore) returns (out: Outcome)
    modifies req`user
    ensures match CheckCredentials(store.users, req.body)
      case Ok(u) => out == Next && req.user == Record(u)
      case Err(e) => out == Respond(e) && req.user == old(req.user)
  {
    if !Given(req.body, "username") || !Given(req.body, "password") {
      return Respond(Error(400, "Please provide both username and password"));
    }
    var users := FindByUsername(store.users, req.body["username"]);
    if |users| == 0 {
      return Respond(Error(400, "Invalid username or password"));
    }
    var user := users[0];
    if !Truthy(user.password) {
      return Respond(Error(400, "User password is not set"));
    }
    var isMatch := Compare(req.body["password"], user.password);
    if !isMatch {
      return Respond(Error(400, "Invalid username or password"));
    }
    req.user := Record(user);
    out := Next;
  }

  // ---------------------------------------------------------------------------
  // hashUserPassword

  /** The body hashUserPassword hands on: the password is replaced by a hash that verifies
      against it, and no other field changes; a missing or empty password is a 400. */
  function HashPassword(body: Body, salt: Salt): (r: Result<Body, Response>)
    ensures r.Err? <==> !Given(body, "password")
    ensures r.Err? ==> r.error == Error(400, "Password is a required field")
    ensures r.Ok? ==> r.value.Keys == body.Keys && Compare(body["password"], r.value["password"])
    ensures r.Ok? ==> forall k :: k in body && k != "password" ==> r.value[k] == body[k]
  {
    if !Given(body, "password") then Err(Error(400, "Password is a required field"))
    else Ok(body["password" := Hash(body["password"], salt)])
  }

  /** hashUserPassword: answers 400 and leaves the body alone, or overwrites
      `req.body.password` with its hash and only then calls next. */
  method HashUserPassword(req: Request, salt: Salt) returns (out: Outcome)
    modifies req`body
    ensures match HashPassword(old(req.body), salt)
      case Ok(b) => out == Next && req.body == b
      case Err(e) => out == Respond(e) && req.body == old(req.body)
  {
    if !Given(req.body, "password") {
      return Respond(Error(400, "Password is a required field"));
    }
    req.body := req.body["password" := Hash(req.body["password"], salt)];
    out := Next;
  }
}
