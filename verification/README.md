# Authentication and authorisation core of App_Backend, in Dafny

App_Backend is an Express service with two routers. `/auth` registers users (the password is
hashed by the `hashUserPassword` middleware first), logs them in (credentials are checked by
`comparePasswordForAuthentication`, then a JWT is signed and set as the `accessToken` cookie)
and logs them out. `/user` serves a profile API in which every route first runs `verifyToken`
and some routes then run `verifyRole(ADMIN)` or `verifyRole(VIEWER)` before the controller.
Users live in a MongoDB collection with first name, last name, username, email, password hash
and role.

This project models that request pipeline over an in-memory collection and proves what a
request gets, and what is left in the collection, depending on which guards it passes.

The model has two layers.

- **Specifications.** Each middleware decision, controller and chain is a pure function.
  `Middlewares.VerifyRole`, `Middlewares.TokenCheck`, `Middlewares.CheckCredentials` and
  `Middlewares.HashPassword` are the middleware decisions. `Auth.Registration`,
  `Auth.LoginUser`, `UserActions.ProfileUpdate`, `UserActions.RoleChange` and the other
  controllers give the reply and the new collection. `Routes.Chain` is the route table and
  `Routes.Run` composes a chain of outcomes: `Next` goes on to the next layer, `Respond` stops.
- **Objects.** The request (`Http.Request`, whose `body` and `user` the middlewares overwrite)
  and the collection (`Users.UserStore`, whose `users` sequence the controllers update) are
  classes. The layers that write to them are also methods: `VerifyToken`,
  `ComparePasswordForAuthentication` and `HashUserPassword` write the request, and
  `RegisterUser`, `UpdateUser`, `DeleteUser`, `ChangePassword` and `ChangeUserRole` write the
  collection. The `ensures` clause of each method equates the new state with the
  specification of the old state. `VerifyRole`, `GetAllUsers`, `GetUserById`, `LoginUser` and
  `LogoutUser` change neither object and stay functions. `Routes.ApplyLayer` runs one layer of
  either kind on the objects, and `Routes.Serve` runs a chain layer by layer in a loop.

Cryptography is symbolic. A bcrypt hash is the value `Digest(salt, plain)`, and the symbolic
`Compare` accepts exactly the plaintext a digest was made from (bcryptjs itself looks only at
the first 72 bytes; see "Left out"). A JWT is
`Signed(claims, key)` or unparseable text. `Decode` fails on malformed text, then on an empty
secret, then on a wrong key, then on expiry (`now >= exp`), as jsonwebtoken 9 does. The clock, the salt, the parsing of the expiry string
(`ACCESS_TOKEN_EXPIRATION`, such as "1h") and the two ways mongoose treats the whole `req.user`
object used as an id are parameters (`Http.Env`): `objectId` resolves `deleteUser`'s filter
`{ id: req.user }`, and `castId` casts `changePassword`'s `findById(req.user)`, where no id
means the cast throws.

JavaScript truthiness (`Values.Truthy`: a non-empty string or a hash) decides every
"is missing" check. `JsNumbers.ParseInt` follows JavaScript's `parseInt` on decimal and
`0x` hexadecimal input, which is how `COOKIE_MAX_AGE` is read.

The code has these behaviours, and the model follows them:

- `updateUser` refuses only a truthy `password`. Role, username and email go through, so any
  token holder can make themself ADMIN (`RouteProperties.UpdateUserCanGrantAdmin`). An empty
  password also goes through and erases the stored hash (`RouteProperties.UpdateUserCanClearPassword`).
- `updateUser` answers with the whole stored document, hash included, not the document
  without its password.
- `deleteUser` and `changePassword` use the whole decoded payload as the id. Only
  `getUserById` and `updateUser` use `req.user.id`. When `findById` cannot cast the payload
  to an object id, `changePassword` answers 500.
- `loginUser` needs a non-empty `JWT_SECRET`, an `ACCESS_TOKEN_EXPIRATION` that `ms` reads
  and a `COOKIE_MAX_AGE` that `parseInt` reads: otherwise signing or setting the cookie
  throws and login is a 500 (`Auth.CanSignIn`). With jsonwebtoken 9, an empty secret
  verifies no token, so every `/user` route is refused
  (`RouteProperties.NoSecretLocksUserRoutes`; older versions differ, see "Left out").
- `changePass` is gated by the ADMIN role, not by ownership. `changeUserRole` accepts any
  non-empty role string.

## Model

| member | source | states |
|---|---|---|
| Middlewares.VerifyRole | App_Backend/middlewares/verifyRole.js:4-16 | continues iff `req.user` has a truthy role equal to the required one; no user or an empty role is 403 "Unauthorized: Role information missing"; any other role is 403 "Unauthorized: Insufficient permissions" |
| Middlewares.RolesAreNotRanked | App_Backend/middlewares/verifyRole.js:10 | the comparison is exact: ADMIN fails the VIEWER gate and VIEWER fails the ADMIN gate |
| Middlewares.TokenCheck | App_Backend/middlewares/verifyToken.js:6-30 | a missing or empty `accessToken` is 401 and is never verified; a present token that fails to decode is 403 "Invalid or expired token."; a present token that decodes is accepted, yielding exactly the decoded claims |
| Middlewares.VerifyToken | App_Backend/middlewares/verifyToken.js:3-31 | on success sets `req.user` to the decoded claims and continues; on failure answers and leaves `req.user` unchanged |
| Middlewares.CheckCredentials | App_Backend/middlewares/authComparePass.js:7-38 | every failure is 400; missing username or password is refused before any lookup; success iff the first document with that username has a hash that verifies against the password, and then yields that document |
| Middlewares.UnknownUserLooksLikeWrongPassword | App_Backend/middlewares/authComparePass.js:19-34 | an unknown username and a wrong password get the same status and message |
| Middlewares.MissingHashIsReported | App_Backend/middlewares/authComparePass.js:26-28 | a first match with no stored hash gets the distinct message "User password is not set" |
| Middlewares.CredentialsUseFirstMatch | App_Backend/middlewares/authComparePass.js:16-23 | when several documents share the username, the first one in collection order decides |
| Middlewares.ComparePasswordForAuthentication | App_Backend/middlewares/authComparePass.js:4-43 | on success sets `req.user` to the stored document and continues; otherwise answers with the decision of `CheckCredentials` |
| Middlewares.HashPassword | App_Backend/middlewares/hashUserPass.js:5-15 | a missing or empty password is 400 "Password is a required field"; otherwise the password is replaced by a hash that verifies against it, and every other field and key is unchanged |
| Middlewares.HashUserPassword | App_Backend/middlewares/hashUserPass.js:3-20 | overwrites `req.body` with the hashed body before continuing; on a refusal the body is unchanged |
| Bcrypt.Compare | App_Backend/middlewares/authComparePass.js:31 | only a truthy stored hash can match |
| Bcrypt.CompareAcceptsOwnHash | App_Backend/middlewares/hashUserPass.js:12-13 | a hash verifies against the plaintext it was made from |
| Bcrypt.CompareRejectsOtherHash | App_Backend/controllers/userActions.js:146-149 | a symbolic hash does not verify against any other plaintext |
| Bcrypt.Hash | App_Backend/middlewares/hashUserPass.js:12-13 | a hash is truthy, and a plaintext verifies against it iff it is the plaintext that was hashed |
| Bcrypt.SaltedHashesDiffer | App_Backend/controllers/userActions.js:152-153 | hashing one plaintext under two salts gives two different hashes, and both verify |
| Jwt.Sign | App_Backend/controllers/auth.js:68-70 | a token with a positive lifetime and a non-empty secret decodes right away, under that secret, to the payload with `iat` now and `exp` at the end of the lifetime; under any other non-empty secret it is an invalid signature |
| Jwt.Decode | App_Backend/middlewares/verifyToken.js:18-21 | decoding succeeds iff the secret is non-empty, the token was signed with it and has not expired, and then yields its claims; an empty secret always fails; a wrong secret is an invalid signature |
| Jwt.SignedTokenDecodes | App_Backend/controllers/auth.js:68-70 | a token signed with a non-empty secret decodes with it until its expiry time |
| Jwt.SignedTokenExpires | App_Backend/controllers/auth.js:68-70 | from its expiry time on, a token is refused as expired |
| Auth.Registration | App_Backend/controllers/auth.js:9-47 | a missing field is 400 and a taken username or email is 409, both with the collection unchanged; 201 iff all fields are given and neither is taken, and then exactly one document is appended with role VIEWER and the given password, the answer carries only id, username and role, and well-formedness and unique logins are kept |
| Auth.RegisterUser | App_Backend/controllers/auth.js:8-52 | the answer and the collection are those of `Registration` |
| Auth.ExpiresIn | App_Backend/controllers/auth.js:69 | an unset or empty expiry setting gives "1h"; any other setting is used as it is |
| Auth.CookieMaxAge | App_Backend/controllers/auth.js:75 | a max age exists iff the setting is present and `parseInt` reads a number from it, and is then that number × 3,600,000 |
| Auth.SessionCookie | App_Backend/controllers/auth.js:73-78 | the cookie is http-only with SameSite "None", secure iff `NODE_ENV` is "production", and has the configured max age |
| JsNumbers.ParseInt | App_Backend/controllers/auth.js:75 | a blank string reads as NaN, and only a leading minus sign gives a negative number |
| JsNumbers.ParseIntReadsDecimal | App_Backend/controllers/auth.js:75 | a decimal numeral, optionally followed by non-digit text such as "h", reads as its value |
| Auth.CookieMaxAgeInMilliseconds | App_Backend/controllers/auth.js:75 | a configured age of N hours gives a cookie max age of N × 3,600,000 ms |
| Auth.LoginUser | App_Backend/controllers/auth.js:57-88 | for a stored document and a configuration with a non-empty JWT_SECRET, an expiry string `ms` reads and a COOKIE_MAX_AGE that parses: 200 with the document minus its password, and an http-only `accessToken` cookie holding a token signed over exactly its id, username and role; without a document, or with any of those settings unusable, 500 |
| Auth.SignedIn | App_Backend/controllers/auth.js:61-87 | the successful login answer: 200 with the document minus its password and an http-only `accessToken` cookie whose token carries exactly the document's id, username and role, issued now and expiring after the configured lifetime |
| Auth.LogoutUser | App_Backend/controllers/auth.js:95-107 | always 200 "Logout successful" with the instruction to clear `accessToken` |
| Users.PublicForgetsOnlyPassword | App_Backend/controllers/auth.js:81 | two documents have the same public projection iff they differ at most in the password |
| Users.FindById | App_Backend/controllers/userActions.js:59 | yields a stored document with that id, or nothing when no document has it |
| Users.FindByUsername | App_Backend/middlewares/authComparePass.js:16 | yields only documents with that username, and every one of them |
| Users.FindByUsernameStep | App_Backend/middlewares/authComparePass.js:16 | the first document yields itself or nothing, followed by the matches among the rest |
| Users.FindByUsernameKeepsOrder | App_Backend/middlewares/authComparePass.js:16 | the matches keep collection order and multiplicity: those in `a + b` are those of `a` followed by those of `b` |
| Users.FindByUsernameStartsWithFirst | App_Backend/middlewares/authComparePass.js:23 | the first result is the first document in the collection with that username |
| Users.FindByUsernameOrEmail | App_Backend/controllers/auth.js:18-20 | finds a document iff one has the username or the email |
| Users.Replaced | App_Backend/controllers/userActions.js:156-157 | the documents with the saved id become the saved document; every other document is unchanged |
| Users.FindByIdAtIndex | App_Backend/controllers/userActions.js:140 | `findById` finds the document at the first index holding that id |
| Users.RemoveFirst | App_Backend/controllers/userActions.js:113 | removes the first document with that id and shifts the rest |
| Users.RemoveFirstKeepsWellFormed | App_Backend/controllers/userActions.js:113 | removing a document keeps ids distinct and below the next id |
| Users.UserStore.Create | App_Backend/controllers/auth.js:28-37 | appends one new document under a fresh id |
| Users.UserStore.Save | App_Backend/controllers/userActions.js:156-157 | stores the document over the one with its id |
| Users.UserStore.FindOneAndDelete | App_Backend/controllers/userActions.js:113 | returns the document found and removes it |
| UserActions.GetAllUsers | App_Backend/controllers/userActions.js:36-41 | 200 with every stored document, in order, each without its password |
| UserActions.GetUserById | App_Backend/controllers/userActions.js:56-69 | looks up `req.user.id`: 404 when no document has it, and 200 "User fetched successfully." with that document without its password when one does |
| UserActions.ApplyUpdates | App_Backend/controllers/userActions.js:90 | keeps the id; each of first name, last name, username, email, password and role is taken from the body when the key is present and kept otherwise |
| UserActions.ProfileUpdate | App_Backend/controllers/userActions.js:78-102 | a truthy password is 400 with the collection unchanged; 200 iff the caller's document exists, and then the body is applied to that document only, role included, and the answer carries the updated document |
| UserActions.UpdateUser | App_Backend/controllers/userActions.js:76-107 | the answer and the collection are those of `ProfileUpdate` |
| UserActions.Deletion | App_Backend/controllers/userActions.js:111-121 | 200 iff the whole `req.user` resolves to a stored document, which is then the only one removed; otherwise 404 with the collection unchanged |
| UserActions.DeleteUser | App_Backend/controllers/userActions.js:109-126 | the answer and the collection are those of `Deletion` |
| UserActions.PasswordChange | App_Backend/controllers/userActions.js:130-161 | a missing old or new password is 400; with both given, a `req.user` the id cast refuses is 500 and one that names no document is 404; with both given and the document found, 200 iff the old password verifies against the stored hash, and otherwise 400 "Old password is incorrect."; none of the refusals changes anything; on 200 only the target's hash changes, to one that verifies against the new password |
| UserActions.ChangePassword | App_Backend/controllers/userActions.js:128-166 | the answer and the collection are those of `PasswordChange` |
| UserActions.RoleChange | App_Backend/controllers/userActions.js:171-193 | an empty new role is 400; a missing user is 404; 200 iff the role is non-empty and the user exists, and then only that user's role changes, to any string |
| UserActions.ChangeUserRole | App_Backend/controllers/userActions.js:169-198 | the answer and the collection are those of `RoleChange` |
| Routes.Chain | App_Backend/routes/userActions.js:22-56 | every `/user` chain starts with `verifyToken`; `verifyRole` appears only second, before the controller, with the route's required role; each chain ends in exactly one controller |
| Routes.Handle | App_Backend/routes/userActions.js:11-20 | every controller keeps the collection well formed |
| Routes.Apply | App_Backend/routes/userActions.js:22-56 | a middleware never touches the collection and a refusing middleware leaves the request unchanged; a controller always answers |
| Routes.ApplyLayer | App_Backend/routes/userActions.js:22-56 | running one layer on the request and the collection objects has the effect `Apply` describes |
| Routes.Serve | App_Backend/routes/userActions.js:22-56 | running the chain of any route (these `/user` routes and the `/auth` routes of `routes/auth.js` lines 12-18) on the objects ends in one answer, and the answer, request and collection are those of `Run` on the chain: the layers run in the order the router lists them, stopping at the first answer |
| RouteProperties.RunKeepsWellFormed | App_Backend/routes/userActions.js:22-56 | any chain keeps the collection's ids distinct |
| Routes.Run | App_Backend/routes/userActions.js:22-56 | a chain that ends in a controller always ends in an answer, and no layer changes the cookies or the route parameters |
| Routes.RouteTableIsUnambiguous | App_Backend/routes/auth.js:12-18 | no two routes share a method and a path, and the `/auth` routes are exactly those under `/auth/` |
| RouteProperties.LoginCookiePassesVerifyToken | App_Backend/middlewares/verifyToken.js:18-30 | with a configuration `loginUser` can sign in with, the cookie it sets passes `verifyToken` under the same secret exactly until its lifetime runs out, attaching the user's id, username and role; afterwards it gets 403 |
| RouteProperties.EveryRouteAnswers | App_Backend/middlewares/verifyToken.js:11-30 | every request ends in exactly one answer |
| RouteProperties.MissingTokenIs401 | App_Backend/middlewares/verifyToken.js:11-15 | on every `/user` route a request without a token gets 401, never 403, and nothing changes |
| RouteProperties.BadTokenIs403 | App_Backend/middlewares/verifyToken.js:18-21 | on every `/user` route a token that fails to decode gets 403 and nothing changes |
| RouteProperties.NoSecretLocksUserRoutes | App_Backend/middlewares/verifyToken.js:11-21 | with JWT_SECRET empty, every request to a `/user` route gets 401 or 403 and the collection is unchanged |
| RouteProperties.WrongRoleIs403 | App_Backend/routes/userActions.js:22-56 | on a role-gated route a valid token with another role gets 403 and the controller does not run |
| RouteProperties.RolesDoNotNest | App_Backend/routes/userActions.js:29-34 | ADMIN-only routes refuse VIEWER tokens and `greet_viewer` refuses ADMIN tokens |
| RouteProperties.ValidTokenReachesController | App_Backend/routes/userActions.js:36-42 | with a valid token and the required role, if any, the controller runs with `req.user` set to the decoded claims |
| RouteProperties.RegisterWithoutPassword | App_Backend/routes/auth.js:12 | registering without a password gets the hasher's 400 and nothing is stored |
| RouteProperties.RegisterStoresVerifiableHash | App_Backend/routes/auth.js:12 | a successful registration stores, as VIEWER, a hash of the sent password that verifies against it |
| RouteProperties.LoginOnlyAfterCredentials | App_Backend/routes/auth.js:15 | `loginUser` runs only after the credentials are accepted, on the document that was found |
| RouteProperties.AuthRoutesIgnoreCookies | App_Backend/routes/auth.js:12-18 | no `/auth` route depends on the token cookie |
| RouteProperties.LogoutAlwaysSucceeds | App_Backend/routes/auth.js:18 | logout has no guard and always answers 200, so repeating it changes nothing |
| RouteProperties.UpdateUserCanGrantAdmin | App_Backend/controllers/userActions.js:82-92 | any holder of a valid token can set their own role to ADMIN through `updateUser` |
| RouteProperties.UpdateUserCanClearPassword | App_Backend/controllers/userActions.js:82-92 | an empty password passes the `updateUser` check and erases the stored hash |
| RouteProperties.RoleChangeShowsAtNextLogin | App_Backend/controllers/userActions.js:185-186 | after `changeRole`, the next login of that user, under a configuration it can sign in with, issues a token carrying the new role |

## Left out

- The 500 branches of every `catch`, since the model has no failing store or hasher. The refusals it does model are `loginUser`'s unusable configuration and `changePassword`'s failed id cast. The greeting controllers (`GreetAdmin`, `GreetViewer`) are constant answers and carry no contract.
- Cryptography: bcrypt's salt generation, cost factor and timing-safe comparison, and JWT's encoding and HMAC. Both are symbolic values.
- Bcrypt.CompareRejectsOtherHash: holds of the symbolic hash only, and so does the `Compare` iff in the contract of Bcrypt.Hash. bcryptjs hashes only the first 72 bytes of the UTF-8 plaintext, so two passwords that share those bytes verify against each other's hash. Such a wrong password would log in and would pass the old-password check of `changePassword`; the model does not capture this.
- Bcrypt.Hash: promises that only the plaintext it was made from verifies against the hash, which idealises bcryptjs in the same way: passwords longer than 72 bytes that agree on their first 72 bytes verify against each other's hash.
- Request bodies: every body field is a string or a hash (`Values.Body`). JSON numbers, booleans, `null` and nested objects are not modelled, so these behaviours are not captured. A body `{"$set": {"password": h}}` passes `updateUser`'s password check and lets a token holder overwrite their own hash without `changePass`. A username given as a query object such as `{"$ne": null}` matches every document at login. A non-string password makes `bcrypt.hash` throw, which is a 500. UserActions.ProfileUpdate's 400 for a truthy password therefore holds for flat string bodies only.
- Parsing of the expiry string ("1h") by `ms` is the parameter `lifetime`, whose None stands for a string `ms` cannot read. Fractional seconds are not modelled. The clock is the parameter `now`.
- UserActions.Deletion: the filter `{ id }` built from the whole `req.user` object is resolved by mongoose's query casting. That resolution is the parameter `objectId`, which does not depend on the collection's contents. A casting that drops the unknown path and matches the first document is therefore not captured.
- UserActions.PasswordChange: the cast of the whole `req.user` by `findById` is the parameter `castId`, and its failure is a 500. The decoded payload carries `id` but no `_id`, so mongoose's cast is expected to throw for every request that passes the field check; the model leaves that outcome to the parameter rather than fixing it, so the 404 and 200 branches are reachable only under a cast that succeeds.
- Mongoose schema validation, unique indexes and the `ROLE_TYPES` values, which live in files that are not part of this model (`models/userModel`, `helpers/constants`). Roles are the strings "ADMIN" and "VIEWER".
- Mongoose generates object ids. The model gives each new document the store's next counter value.
- Auth.CookieMaxAge: JavaScript number arithmetic (floating point) is not modelled. An unparseable setting gives no max age, and login then answers 500 because the cookie's max age would be `NaN`. Express's other handling of the option is not modelled.
- Jwt.Decode: follows jsonwebtoken 9, which refuses to verify with an empty secret. jsonwebtoken 8.5.1 and older accept an unsigned (`alg: none`) token with any claims when the secret is falsy and no algorithms are given, as in `verifyToken`. The source pins no version, and unsigned tokens are not modelled.
- RouteProperties.NoSecretLocksUserRoutes: holds under the same jsonwebtoken 9 assumption. Under 8.x an unset `JWT_SECRET` would let a forged unsigned token with role ADMIN through `verifyToken` and `verifyRole(ADMIN)`.
- Concurrency, including the race between the uniqueness check and the insert in registration. The model is sequential.
- The health check routes, `app.js` (CORS, JSON and cookie parsing, router mounting) and `configs/database.js` (connection), which are plumbing and I/O. Logging is not modelled.
