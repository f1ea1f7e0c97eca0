/** The user controllers: listing and fetching users (queries), and updating, deleting,
    changing the password of and changing the role of a stored document (in place). */
module UserActions {
  import opened Values
  import opened Bcrypt
  import opened Users
  import opened Http

  /** The greeting handlers behind the role-gated sample routes: constant answers. */
  function GreetAdmin(): Response
  {
    Success(200, "Welcome, Admin!", Actions(["View All Users", "Manage Roles", "Access System Settings"]))
  }

  function GreetViewer(): Response
  {
    Success(200, "Welcome, Viewer!", Actions(["View Your Profile", "Browse Content"]))
  }

  // ---------------------------------------------------------------------------
  // getAllUsers, getUserById

  /** getAllUsers: every stored document, in store order, each without its password. */
  function GetAllUsers(db: Db): (resp: Response)
    ensures resp.status == 200 && resp.data.Profiles?
    ensures |resp.data.users| == |db.users|
    ensures forall i :: 0 <= i < |db.users| ==> resp.data.users[i] == Public(db.users[i])
  {
    Success(200, "Users retrieved successfully",
            Profiles(seq(|db.users|, i requires 0 <= i < |db.users| => Public(db.users[i]))))
  }

  /** getUserById: looks up `req.user.id` (reading it from an unset `req.user` throws: 500);
      404 when no document has it, otherwise that document without its password. */
  function GetUserById(user: ReqUser, db: Db): (resp: Response)
    ensures IdOf(user).None? ==> resp == Error(500, "Internal Server Error.")
    ensures IdOf(user).Some? && FindById(db.users, IdOf(user).value).None? ==> resp == Error(404, "User not found.")
    ensures IdOf(user).Some? && FindById(db.users, IdOf(user).value).Some? ==>
      resp == Success(200, "User fetched successfully.", Profile(Public(FindById(db.users, IdOf(user).value).value)))
    ensures resp.status == 200 ==>
      && IdOf(user).Some?
      && exists i :: 0 <= i < |db.users| && db.users[i].id == IdOf(user).value
                     && resp.data == Profile(Public(db.users[i]))
  {
    match IdOf(user)
    case None => Error(500, "Internal Server Error.")
    case Some(id) =>
      match FindById(db.users, id)
      case None => Error(404, "User not found.")
      case Some(u) => Success(200, "User fetched successfully.", Profile(Public(u)))
  }

  // ---------------------------------------------------------------------------
  // updateUser

  /** The value an update gives a field: the body's when the body has the key, else the old one. */
  function Field(body: Body, key: string, current: Value): Value
  {
    if key in body then body[key] else current
  }

  /** `findByIdAndUpdate(id, body)`: every schema field present in the body overwrites the
      stored one (update validators do not run, and keys outside the schema are dropped). */
  function ApplyUpdates(u: User, body: Body): (v: User)
    ensures v.id == u.id
    ensures "firstName" in body ==> v.firstName == body["firstName"]
    ensures "firstName" !in body ==> v.firstName == u.firstName
    ensures "lastName" in body ==> v.lastName == body["lastName"]
    ensures "lastName" !in body ==> v.lastName == u.lastName
    ensures "username" in body ==> v.username == body["username"]
    ensures "username" !in body ==> v.username == u.username
    ensures "email" in body ==> v.email == body["email"]
    ensures "email" !in body ==> v.email == u.email
    ensures "role" in body ==> v.role == body["role"]
    ensures "role" !in body ==> v.role == u.role
    ensures "password" in body ==> v.password == body["password"]
    ensures "password" !in body ==> v.password == u.password
  {
    u.(firstName := Field(body, "firstName", u.firstName),
       lastName := Field(body, "lastName", u.lastName),
       username := Field(body, "username", u.username),
       email := Field(body, "email", u.email),
       password := Field(body, "password", u.password),
       role := Field(body, "role", u.role))
  }

  /** What updateUser answers and stores: a truthy password in the body is a 400 that changes
      nothing; a missing document is a 404; otherwise the body is applied to that one
      document, role included, and the answer carries the updated document as stored. */
  function ProfileUpdate(user: ReqUser, body: Body, db: Db): (rep: Reply)
    ensures IdOf(user).None? ==> rep == Reply(Error(500, "Internal Server Error."), db)
    ensures IdOf(user).Some? && Given(body, "password") ==>
      rep == Reply(Error(400, "Password update is not allowed here. Use changePassword instead."), db)
    ensures IdOf(user).Some? && !Given(body, "password") && FindById(db.users, IdOf(user).value).None? ==>
      rep == Reply(Error(404, "User not found."), db)
    ensures IdOf(user).Some? && !Given(body, "password") && FindById(db.users, IdOf(user).value).Some? ==>
      rep.response.status == 200
    ensures rep.response.status == 200 ==>
      && IdOf(user).Some? && !Given(body, "password")
      && FindById(db.users, IdOf(user).value).Some?
      && var v := ApplyUpdates(FindById(db.users, IdOf(user).value).value, body);
      && rep.db == db.(users := Replaced(db.users, v))
      && rep.response.data == Document(v)
    ensures WellFormed(db) ==> WellFormed(rep.db)
  {
    match IdOf(user)
    case None => Reply(Error(500, "Internal Server Error."), db)
    case Some(id) =>
      if Given(body, "password") then
        Reply(Error(400, "Password update is not allowed here. Use changePassword instead."), db)
      else match FindById(db.users, id)
        case None => Reply(Error(404, "User not found."), db)
        case Some(u) =>
          var updated := ApplyUpdates(u, body);
          Reply(Success(200, "User updated successfully.", Document(updated)),
                db.(users := Replaced(db.users, updated)))
  }

  /** updateUser */
  method UpdateUser(req: Request, store: UserStore) returns (resp: Response)
    modifies store
    ensures Reply(resp, store.Snapshot()) == ProfileUpdate(req.user, req.body, old(store.Snapshot()))
  {
    if req.user.Anonymous? {
      return Error(500, "Internal Server Error.");
    }
    var id := IdOf(req.user).value;
    var updates := req.body;
    if Given(updates, "password") {
      return Error(400, "Password update is not allowed here. Use changePassword instead.");
    }
    var found := FindById(store.users, id);
    if found.None? {
      return Error(404, "User not found.");
    }
    var updatedUser := ApplyUpdates(found.value, updates);
    store.Save(updatedUser);
    resp := Success(200, "User updated successfully.", Document(updatedUser));
  }

  // ---------------------------------------------------------------------------
  // deleteUser

  /** What deleteUser answers and stores. The filter is built from the whole `req.user`
      object, so the document removed is whichever the persistence layer resolves that object
      to (`objectId`), not necessarily the one named by the token's id: 404 when that resolves
      to nothing stored, otherwise exactly that document is removed. */
  function Deletion(user: ReqUser, db: Db, objectId: ReqUser -> Option<Id>): (rep: Reply)
    ensures rep.response.status == 200 <==>
      objectId(user).Some? && FindById(db.users, objectId(user).value).Some?
    ensures rep.response.status == 200 ==>
      rep.db == db.(users := RemoveFirst(db.users, objectId(user).value))
      && |rep.db.users| == |db.users| - 1
    ensures rep.response.status != 200 ==> rep == Reply(Error(404, "User not found."), db)
    ensures WellFormed(db) ==> WellFormed(rep.db)
  {
    var key := objectId(user);
    if key.None? || FindById(db.users, key.value).None? then Reply(Error(404, "User not found."), db)
    else
      FindByIdAtIndex(db.users, key.value);
      RemoveFirstKeepsWellFormed(db, key.value);
      Reply(Success(200, "User deleted successfully.", NoData), db.(users := RemoveFirst(db.users, key.value)))
  }

  /** deleteUser */
  method DeleteUser(req: Request, store: UserStore, objectId: ReqUser -> Option<Id>) returns (resp: Response)
    modifies store
    ensures Reply(resp, store.Snapshot()) == Deletion(req.user, old(store.Snapshot()), objectId)
  {
    var id := objectId(req.user);
    if id.None? {
      return Error(404, "User not found.");
    }
    var deletedUser := store.FindOneAndDelete(id.value);
    if deletedUser.None? {
      return Error(404, "User not found.");
    }
    resp := Success(200, "User deleted successfully.", NoData);
  }

  // ---------------------------------------------------------------------------
  // changePassword

  /** What changePassword answers and stores: 400 when either password is missing; 500 when
      `findById` cannot cast the whole `req.user` object to a document id (`castId` None: the
      cast throws); 404 when the cast id names no stored document; 400 when the old password
      does not verify against the stored hash; in all of these nothing changes. Otherwise the
      target document's hash, and nothing else, is replaced by one that verifies against the
      new password. */
  function PasswordChange(user: ReqUser, body: Body, db: Db, salt: Salt,
                          castId: ReqUser -> Option<Id>): (rep: Reply)
    ensures !Given(body, "oldPassword") || !Given(body, "newPassword") ==>
      rep == Reply(Error(400, "Both oldPassword and newPassword are required."), db)
    ensures Given(body, "oldPassword") && Given(body, "newPassword") && castId(user).None? ==>
      rep == Reply(Error(500, "Internal Server Error."), db)
    ensures rep.response.status == 404 <==>
      Given(body, "oldPassword") && Given(body, "newPassword")
      && castId(user).Some? && FindById(db.users, castId(user).value).None?
    ensures rep.response.status != 200 ==> rep.db == db
    ensures (Given(body, "oldPassword") && Given(body, "newPassword")
             && castId(user).Some? && FindById(db.users, castId(user).value).Some?) ==>
      && (rep.response.status == 200
          <==> Compare(body["oldPassword"], FindById(db.users, castId(user).value).value.password))
      && (!Compare(body["oldPassword"], FindById(db.users, castId(user).value).value.password) ==>
            rep == Reply(Error(400, "Old password is incorrect."), db))
    ensures rep.response.status == 200 ==>
      && Given(body, "oldPassword") && Given(body, "newPassword")
      && castId(user).Some? && FindById(db.users, castId(user).value).Some?
      && Compare(body["oldPassword"], FindById(db.users, castId(user).value).value.password)
    ensures rep.response.status == 200 && WellFormed(db) ==>
      && rep.db.nextId == db.nextId && |rep.db.users| == |db.users|
      && forall i :: 0 <= i < |db.users| ==>
           if db.users[i].id == castId(user).value
           then rep.db.users[i] == db.users[i].(password := rep.db.users[i].password)
                && Compare(body["newPassword"], rep.db.users[i].password)
           else rep.db.users[i] == db.users[i]
    ensures WellFormed(db) ==> WellFormed(rep.db)
  {
    if !Given(body, "oldPassword") || !Given(body, "newPassword") then
      Reply(Error(400, "Both oldPassword and newPassword are required."), db)
    else
      var key := castId(user);
      if key.None? then Reply(Error(500, "Internal Server Error."), db)
      else if FindById(db.users, key.value).None? then Reply(Error(404, "User not found."), db)
      else
        var u := FindById(db.users, key.value).value;
        if !Compare(body["oldPassword"], u.password) then Reply(Error(400, "Old password is incorrect."), db)
        else
          var changed := u.(password := Hash(body["newPassword"], salt));
          Reply(Success(200, "Password updated successfully.", NoData), db.(users := Replaced(db.users, changed)))
  }

  /** changePassword */
  method ChangePassword(req: Request, store: UserStore, salt: Salt,
                        castId: ReqUser -> Option<Id>) returns (resp: Response)
    modifies store
    ensures Reply(resp, store.Snapshot()) == PasswordChange(req.user, req.body, old(store.Snapshot()), salt, castId)
  {
    var id := castId(req.user);
    if !Given(req.body, "oldPassword") || !Given(req.body, "newPassword") {
      return Error(400, "Both oldPassword and newPassword are required.");
    }
    if id.None? {
      return Error(500, "Internal Server Error.");
    }
    var user := FindById(store.users, id.value);
    if user.None? {
      return Error(404, "User not found.");
    }
    var isMatch := Compare(req.body["oldPassword"], user.value.password);
    if !isMatch {
      return Error(400, "Old password is incorrect.");
    }
    var hashedPassword := Hash(req.body["newPassword"], salt);
    store.Save(user.value.(password := hashedPassword));
    resp := Success(200, "Password updated successfully.", NoData);
  }

  // ---------------------------------------------------------------------------
  // changeUserRole

  /** What changeUserRole answers and stores: 400 for an empty new role and 404 for an
      unknown id, changing nothing; otherwise the target's role, and nothing else, becomes
      the new role, whatever string it is. */
  function RoleChange(params: Params, db: Db): (rep: Reply)
    ensures params.newRole == "" ==> rep == Reply(Error(400, "New role is required."), db)
    ensures params.newRole != "" && FindById(db.users, params.id).None? ==>
      rep == Reply(Error(404, "User not found."), db)
    ensures rep.response.status == 200 <==> params.newRole != "" && FindById(db.users, params.id).Some?
    ensures rep.response.status == 200 && WellFormed(db) ==>
      && rep.db.nextId == db.nextId && |rep.db.users| == |db.users|
      && forall i :: 0 <= i < |db.users| ==>
           rep.db.users[i] == if db.users[i].id == params.id
                              then db.users[i].(role := Str(params.newRole)) else db.users[i]
    ensures WellFormed(db) ==> WellFormed(rep.db)
  {
    if params.newRole == "" then Reply(Error(400, "New role is required."), db)
    else match FindById(db.users, params.id)
      case None => Reply(Error(404, "User not found."), db)
      case Some(u) =>
        Reply(Success(200, "User role updated to " + params.newRole + " successfully.", NoData),
              db.(users := Replaced(db.users, u.(role := Str(params.newRole)))))
  }

  /** changeUserRole */
  method ChangeUserRole(req: Request, store: UserStore) returns (resp: Response)
    modifies store
    ensures Reply(resp, store.Snapshot()) == RoleChange(req.params, old(store.Snapshot()))
  {
    var id := req.params.id;
    var newRole := req.params.newRole;
    if newRole == "" {
      return Error(400, "New role is required.");
    }
    var userToUpdate := FindById(store.users, id);
    if userToUpdate.None? {
      return Error(404, "User not found.");
    }
    store.Save(userToUpdate.value.(role := Str(newRole)));
    resp := Success(200, "User role updated to " + newRole + " successfully.", NoData);
  }
}
