/** The user collection: the document shape, the queries the backend issues against it, and
    the store object whose record list the controllers change in place. The persistence
    engine is reduced to an ordered list of documents; a query returns matches in that order. */
module Users {
  import opened Values

  /** A user document. Every field is a string field as the backend sees it; `password` holds
      a bcrypt digest when the document came from registration. */
  datatype User = User(id: Id, firstName: Value, lastName: Value, username: Value,
                       email: Value, password: Value, role: Value)

  /** A user document with the password path excluded. */
  datatype PublicUser = PublicUser(id: Id, firstName: Value, lastName: Value, username: Value,
                                   email: Value, role: Value)

  /** The projection `select("-password")`, also `const { password, ...rest } = doc`. */
  function Public(u: User): PublicUser
  {
    PublicUser(u.id, u.firstName, u.lastName, u.username, u.email, u.role)
  }

  /** The projection forgets the password and nothing else: a record is determined by its
      projection together with its password. */
  lemma PublicForgetsOnlyPassword(u: User, v: User)
    ensures Public(u) == Public(v) <==> u.(password := v.password) == v
  {
  }

  /** The collection as the persistence layer holds it, with the id the next insert receives. */
  datatype Db = Db(users: seq<User>, nextId: Id)

  /** Ids are unique and below the next id to be handed out. */
  ghost predicate WellFormed(db: Db)
  {
    && (forall i :: 0 <= i < |db.users| ==> db.users[i].id < db.nextId)
    && (forall i, j :: 0 <= i < j < |db.users| ==> db.users[i].id != db.users[j].id)
  }

  /** No two documents share a username or an email. */
  ghost predicate UniqueLogins(users: seq<User>)
  {
    forall i, j :: 0 <= i < j < |users| ==>
      users[i].username != users[j].username && users[i].email != users[j].email
  }

  /** `User.findById(id)`: the first document with that id. */
  function FindById(users: seq<User>, id: Id): (r: Option<User>)
    ensures r.Some? ==> r.value in users && r.value.id == id
    ensures r.None? ==> forall i :: 0 <= i < |users| ==> users[i].id != id
  {
    if users == [] then None
    else if users[0].id == id then Some(users[0])
    else FindById(users[1..], id)
  }

  /** `User.find({ username })`: every document with that username, in store order. */
  function FindByUsername(users: seq<User>, name: Value): (r: seq<User>)
    ensures forall u :: u in r ==> u in users && u.username == name
    ensures forall i :: 0 <= i < |users| && users[i].username == name ==> users[i] in r
    ensures |r| <= |users|
  {
    if users == [] then []
    else if users[0].username == name then [users[0]] + FindByUsername(users[1..], name)
      else FindByUsername(users[1..], name)
  }

  /** The query looks at one document at a time: the first yields itself or nothing, and
      the rest of the collection yields the rest of the matches. */
  lemma FindByUsernameStep(users: seq<User>, name: Value)
    requires users != []
    ensures FindByUsername(users, name)
         == (if users[0].username == name then [users[0]] else []) + FindByUsername(users[1..], name)
  {
  }

  /** The query keeps collection order and multiplicity: the matches in `a + b` are those in
      `a`, then those in `b`. */
  lemma {:induction false} FindByUsernameKeepsOrder(a: seq<User>, b: seq<User>, name: Value)
    ensures FindByUsername(a + b, name) == FindByUsername(a, name) + FindByUsername(b, name)
  {
    if a == [] {
      assert a + b == b;
    } else {
      var ab := a + b;
      assert ab[0] == a[0] && ab[1..] == a[1..] + b;
      FindByUsernameKeepsOrder(a[1..], b, name);
      FindByUsernameStep(ab, name);
      FindByUsernameStep(a, name);
    }
  }

  /** When several documents share a username, the query lists the earliest one first. */
  lemma {:induction false} FindByUsernameStartsWithFirst(users: seq<User>, name: Value, k: nat)
    requires k < |users| && users[k].username == name
    requires forall j :: 0 <= j < k ==> users[j].username != name
    ensures FindByUsername(users, name) != [] && FindByUsername(users, name)[0] == users[k]
  {
    if k > 0 {
      FindByUsernameStartsWithFirst(users[1..], name, k - 1);
    }
  }

  /** `User.findOne({ $or: [{ username }, { email }] })`. */
  function FindByUsernameOrEmail(users: seq<User>, name: Value, email: Value): (r: Option<User>)
    ensures r.Some? ==> r.value in users && (r.value.username == name || r.value.email == email)
    ensures r.None? ==> forall i :: 0 <= i < |users| ==> users[i].username != name && users[i].email != email
  {
    if users == [] then None
    else if users[0].username == name || users[0].email == email then Some(users[0])
    else FindByUsernameOrEmail(users[1..], name, email)
  }

  /** The collection after `doc.save()` / an update by id: the document with `u`'s id is
      replaced by `u`, everything else stays. */
  function Replaced(users: seq<User>, u: User): (r: seq<User>)
    ensures |r| == |users|
    ensures forall i :: 0 <= i < |users| ==> r[i] == if users[i].id == u.id then u else users[i]
  {
    seq(|users|, i requires 0 <= i < |users| => if users[i].id == u.id then u else users[i])
  }

  /** The position of the first document with that id, or |users| when there is none. */
  function IndexOfId(users: seq<User>, id: Id): (k: nat)
    ensures k <= |users|
    ensures k < |users| ==> users[k].id == id
    ensures forall j :: 0 <= j < k ==> users[j].id != id
  {
    if users == [] then 0
    else if users[0].id == id then 0
    else 1 + IndexOfId(users[1..], id)
  }

  /** findById finds the document at the first position holding that id. */
  lemma {:induction false} FindByIdAtIndex(users: seq<User>, id: Id)
    ensures var k := IndexOfId(users, id);
      FindById(users, id) == if k < |users| then Some(users[k]) else None
  {
    if users != [] && users[0].id != id {
      FindByIdAtIndex(users[1..], id);
    }
  }

  /** The collection after `findOneAndDelete`: the first document with that id is gone, and
      the others keep their order. */
  function RemoveFirst(users: seq<User>, id: Id): (r: seq<User>)
    ensures var k := IndexOfId(users, id);
      && |r| == (if k < |users| then |users| - 1 else |users|)
      && forall i :: 0 <= i < |r| ==> r[i] == users[if i < k then i else i + 1]
  {
    var k := IndexOfId(users, id);
    if k < |users| then users[..k] + users[k + 1..] else users
  }

  /** Removing a document keeps the store well formed. */
  lemma RemoveFirstKeepsWellFormed(db: Db, id: Id)
    ensures WellFormed(db) ==> WellFormed(db.(users := RemoveFirst(db.users, id)))
  {
    if !WellFormed(db) { return; }
    var r := RemoveFirst(db.users, id);
    var k := IndexOfId(db.users, id);
    forall i, j | 0 <= i < j < |r| ensures r[i].id != r[j].id {
      var i' := if i < k then i else i + 1;
      var j' := if j < k then j else j + 1;
      assert r[i] == db.users[i'] && r[j] == db.users[j'] && i' < j';
    }
  }

  /** The store object: an ordered collection of documents and an id counter standing in for
      ObjectId generation. Controllers read `users` and change it through these methods. */
  class UserStore {
    var users: seq<User>
    var nextId: Id

    function Snapshot(): Db
      reads this
    {
      Db(users, nextId)
    }

    constructor ()
      ensures Snapshot() == Db([], 0)
    {
      users := [];
      nextId := 0;
    }

    /** `new User({...}).save()`: appends a document under a fresh id. */
    method Create(firstName: Value, lastName: Value, username: Value, email: Value,
                  password: Value, role: Value) returns (u: User)
      modifies this
      ensures u == User(old(nextId), firstName, lastName, username, email, password, role)
      ensures users == old(users) + [u] && nextId == old(nextId) + 1
    {
      u := User(nextId, firstName, lastName, username, email, password, role);
      users := users + [u];
      nextId := nextId + 1;
    }

    /** `doc.save()` on a fetched and modified document, also `findByIdAndUpdate`: writes `u`
        over the document with its id. */
    method Save(u: User)
      modifies this
      ensures users == Replaced(old(users), u) && nextId == old(nextId)
    {
      users := Replaced(users, u);
    }

    /** `findOneAndDelete`: removes the first document with that id and returns it. */
    method FindOneAndDelete(id: Id) returns (d: Option<User>)
      modifies this
      ensures d == FindById(old(users), id)
      ensures users == RemoveFirst(old(users), id) && nextId == old(nextId)
    {
      d := FindById(users, id);
      users := RemoveFirst(users, id);
    }
  }
}
