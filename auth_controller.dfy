/**
 * The store-level rules of controllers/authController.js over an in-memory
 * user collection: registration, login, listing and deletion.
 *
 * bcrypt and jwt are parameters, each of which may fail with a message: `hash`
 * stands for `bcrypt.hash(p, 10)`, `compare` for `bcrypt.compare` (which rejects a
 * malformed hash), `sign` for `generateToken`'s `jwt.sign` (which throws without
 * a secret). `now` is the clock that fills the schema's timestamps.
 */
module AuthController {
  import opened Wrappers
  import opened Strings
  import opened Ids
  import opened AuthMiddleware

  datatype Role = Customer | Admin

  function RoleName(r: Role): (name: string)
    ensures name == "admin" <==> r == Admin
  {
    match r
    case Customer => "customer"
    case Admin => "admin"
  }

  /** Opaque cart and address entries; the controllers only store and return them. */
  type CartItem = string
  type AddressEntry = string

  /** A stored user (models/userModel.js). `password` holds the hash; `createdAt`
      and `updatedAt` are the `timestamps` option's fields. */
  datatype User = User(id: nat, username: string, email: string, password: string, role: Role,
                       cart: seq<CartItem>, address: seq<AddressEntry>, createdAt: int, updatedAt: int)

  /** A user as `create` stores it: empty cart and address, both timestamps now. */
  function NewUser(id: nat, username: string, email: string, hashed: string, role: Role, now: int): (u: User)
    ensures u.id == id && u.username == username && u.email == email && u.password == hashed && u.role == role
    ensures u.cart == [] && u.address == [] && u.createdAt == now && u.updatedAt == now
  {
    User(id, username, email, hashed, role, [], [], now, now)
  }

  /** The user as `register` and `login` return it: id, username, email, role
      and cart; neither the password nor the address and timestamps. */
  datatype PublicUser = PublicUser(id: nat, username: string, email: string, role: Role, cart: seq<CartItem>)

  function Public(u: User): (p: PublicUser)
    ensures p.id == u.id && p.username == u.username && p.email == u.email && p.role == u.role && p.cart == u.cart
  {
    PublicUser(u.id, u.username, u.email, u.role, u.cart)
  }

  /** A user as `find().select('-password')` returns it: every stored field but the password. */
  datatype ListedUser = ListedUser(id: nat, username: string, email: string, role: Role,
                                   cart: seq<CartItem>, address: seq<AddressEntry>, createdAt: int, updatedAt: int)

  function Listed(u: User): (l: ListedUser)
    ensures l.id == u.id && l.username == u.username && l.email == u.email && l.role == u.role
    ensures l.cart == u.cart && l.address == u.address && l.createdAt == u.createdAt && l.updatedAt == u.updatedAt
  {
    ListedUser(u.id, u.username, u.email, u.role, u.cart, u.address, u.createdAt, u.updatedAt)
  }

  function UserId(u: User): nat { u.id }

  /** The collection and its id counter. */
  datatype Users = Users(users: seq<User>, nextId: nat)

  /** Ids, emails and usernames are unique (the schema's unique indexes), every id
      is below the counter, and there is at most one admin. */
  predicate Valid(s: Users) {
    && (forall i :: 0 <= i < |s.users| ==> s.users[i].id < s.nextId)
    && (forall i, j :: 0 <= i < j < |s.users| ==>
          s.users[i].id != s.users[j].id && s.users[i].email != s.users[j].email &&
          s.users[i].username != s.users[j].username)
    && (forall i, j :: 0 <= i < j < |s.users| ==> !(s.users[i].role == Admin && s.users[j].role == Admin))
  }

  /** A form field is present when it is a non-empty string (JavaScript truthiness). */
  predicate Present(field: Option<string>) {
    field.Some? && field.value != ""
  }

  datatype RegisterBody = RegisterBody(username: Option<string>, email: Option<string>, password: Option<string>)
  datatype LoginBody = LoginBody(email: Option<string>, password: Option<string>)

  /** The JSON replies of the controller. */
  datatype Reply =
    | Registered(token: string, user: PublicUser, message: string)  // 201
    | LoggedIn(token: string, user: PublicUser)                      // 200
    | UserList(count: nat, users: seq<ListedUser>)                   // 200
    | Deleted(message: string)                                       // 200
    | Failure(status: nat, error: string)
  {
    predicate Succeeded() { !Failure? }
  }

  /** `generateToken(user)`: the signed `{ id, email, role }`. */
  function TokenFor(u: User, sign: Claims -> Result<string>): Result<string> {
    sign(Claims(IdText(u.id), u.email, RoleName(u.role)))
  }

  predicate Taken(users: seq<User>, email: string, username: string) {
    exists i :: 0 <= i < |users| && (users[i].email == email || users[i].username == username)
  }

  const FirstAdminMessage: string := "First user registered as Admin"
  const CustomerMessage: string := "Customer registered successfully"

  /** `register`, specified on values: the new collection and the reply. The user
      is created before the token is signed, so a signing failure answers 500
      with the user already stored. */
  function RegisterSpec(s: Users, body: RegisterBody, hash: string -> Result<string>,
                        sign: Claims -> Result<string>, now: int): (Users, Reply) {
    if !Present(body.username) || !Present(body.email) || !Present(body.password) then
      (s, Failure(400, "All fields required"))
    else if Taken(s.users, body.email.value, body.username.value) then
      (s, Failure(400, "User already exists"))
    else
      var role := if |s.users| == 0 then Admin else Customer;
      match hash(body.password.value)
      case Err(e) => (s, Failure(500, e))
      case Ok(hashed) =>
        var u := NewUser(s.nextId, body.username.value, body.email.value, hashed, role, now);
        var s' := Users(s.users + [u], s.nextId + 1);
        match TokenFor(u, sign)
        case Err(e) => (s', Failure(500, e))
        case Ok(token) => (s', Registered(token, Public(u), if role == Admin then FirstAdminMessage else CustomerMessage))
  }

  /** Registration refuses missing fields, a taken email or username, and a failed
      hash, all without change. Otherwise it appends exactly one user (the given
      names, the hash of the password, admin exactly when the collection was empty),
      and answers 201 with a token, or 500 when signing fails, the user staying stored. */
  lemma RegisterOutcome(s: Users, body: RegisterBody, hash: string -> Result<string>,
                        sign: Claims -> Result<string>, now: int)
    ensures var (s', r) := RegisterSpec(s, body, hash, sign, now);
            && (r.Registered? || r.Failure?)
            && (!Present(body.username) || !Present(body.email) || !Present(body.password) ==>
                  s' == s && r == Failure(400, "All fields required"))
            && ((Present(body.username) && Present(body.email) && Present(body.password) &&
                 Taken(s.users, body.email.value, body.username.value)) ==>
                  s' == s && r == Failure(400, "User already exists"))
            && ((Present(body.username) && Present(body.email) && Present(body.password) &&
                 !Taken(s.users, body.email.value, body.username.value)) ==>
                  && (hash(body.password.value).Err? ==> s' == s && r == Failure(500, hash(body.password.value).error))
                  && (hash(body.password.value).Ok? ==>
                        var u := NewUser(s.nextId, body.username.value, body.email.value, hash(body.password.value).value,
                                         if |s.users| == 0 then Admin else Customer, now);
                        && s' == Users(s.users + [u], s.nextId + 1)
                        && (TokenFor(u, sign).Err? ==> r == Failure(500, TokenFor(u, sign).error))
                        && (TokenFor(u, sign).Ok? ==>
                              r == Registered(TokenFor(u, sign).value, Public(u),
                                              if |s.users| == 0 then FirstAdminMessage else CustomerMessage))))
  {
  }

  /** After a registration that stored the user but failed to sign its token, the
      same registration sent again is refused as an existing user. */
  lemma RetryAfterSignFailure(s: Users, body: RegisterBody, hash: string -> Result<string>,
                              sign: Claims -> Result<string>, now: int,
                              hash2: string -> Result<string>, sign2: Claims -> Result<string>, now2: int)
    requires RegisterSpec(s, body, hash, sign, now).1.Failure?
    requires |RegisterSpec(s, body, hash, sign, now).0.users| == |s.users| + 1
    ensures var s' := RegisterSpec(s, body, hash, sign, now).0;
            RegisterSpec(s', body, hash2, sign2, now2) == (s', Failure(400, "User already exists"))
  {
    var s' := RegisterSpec(s, body, hash, sign, now).0;
    assert s'.users[|s.users|].email == body.email.value;
    assert Taken(s'.users, body.email.value, body.username.value);
  }

  /** Whatever arrives, a registration never breaks uniqueness or the single-admin rule. */
  lemma {:induction false} RegisterKeepsValid(s: Users, body: RegisterBody, hash: string -> Result<string>,
                                              sign: Claims -> Result<string>, now: int)
    requires Valid(s)
    ensures Valid(RegisterSpec(s, body, hash, sign, now).0)
  {
    var (s', r) := RegisterSpec(s, body, hash, sign, now);
    if |s'.users| != |s.users| {
      var u := s'.users[|s.users|];
      assert s'.users == s.users + [u];
      assert !Taken(s.users, u.email, u.username);
      forall i | 0 <= i < |s.users|
        ensures s.users[i].email != u.email && s.users[i].username != u.username
      {
        if s.users[i].email == u.email || s.users[i].username == u.username {
          assert Taken(s.users, u.email, u.username);
        }
      }
      assert u.role == Admin ==> |s.users| == 0;
    }
  }

  /** The first match of the email, as `findOne({ email })` returns it. */
  function FindByEmail(users: seq<User>, email: string): (k: Option<nat>)
    ensures k.None? <==> forall i :: 0 <= i < |users| ==> users[i].email != email
    ensures k.Some? ==> k.value < |users| && users[k.value].email == email &&
                        forall i :: 0 <= i < k.value ==> users[i].email != email
    decreases |users|
  {
    if |users| == 0 then None
    else if users[0].email == email then Some(0)
    else match FindByEmail(users[1..], email)
      case None => None
      case Some(k) => Some(k + 1)
  }

  const InvalidCredentials: Reply := Failure(401, "Invalid credentials")

  /** `login`: never changes the collection. A failing `compare` or `sign` throws
      into the handler's `catch`, which answers 500 with the error's message. */
  function Login(s: Users, body: LoginBody, compare: (string, string) -> Result<bool>,
                 sign: Claims -> Result<string>): (r: Reply)
    ensures r.Succeeded() <==> (Present(body.email) && Present(body.password) &&
                                FindByEmail(s.users, body.email.value).Some? &&
                                var u := s.users[FindByEmail(s.users, body.email.value).value];
                                compare(body.password.value, u.password) == Ok(true) && TokenFor(u, sign).Ok?)
    ensures r.Succeeded() ==> var u := s.users[FindByEmail(s.users, body.email.value).value];
                              r == LoggedIn(TokenFor(u, sign).value, Public(u))
    ensures !Present(body.email) || !Present(body.password) ==> r == Failure(400, "Email and password required")
    ensures Present(body.email) && Present(body.password) && FindByEmail(s.users, body.email.value).None? ==>
              r == InvalidCredentials
    ensures Present(body.email) && Present(body.password) && FindByEmail(s.users, body.email.value).Some? ==>
              var u := s.users[FindByEmail(s.users, body.email.value).value];
              && (compare(body.password.value, u.password) == Ok(false) ==> r == InvalidCredentials)
              && (compare(body.password.value, u.password).Err? ==>
                    r == Failure(500, compare(body.password.value, u.password).error))
              && (compare(body.password.value, u.password) == Ok(true) && TokenFor(u, sign).Err? ==>
                    r == Failure(500, TokenFor(u, sign).error))
  {
    if !Present(body.email) || !Present(body.password) then Failure(400, "Email and password required")
    else match FindByEmail(s.users, body.email.value)
      case None => InvalidCredentials
      case Some(k) =>
        match compare(body.password.value, s.users[k].password)
        case Err(e) => Failure(500, e)
        case Ok(matches) =>
          if !matches then InvalidCredentials
          else match TokenFor(s.users[k], sign)
            case Err(e) => Failure(500, e)
            case Ok(token) => LoggedIn(token, Public(s.users[k]))
  }

  /** An unknown email and a wrong password for a known one produce the same reply,
      so the answer does not reveal which emails are registered. */
  lemma LoginFailureUniform(s: Users, unknown: string, known: string, password: string,
                            compare: (string, string) -> Result<bool>, sign: Claims -> Result<string>)
    requires unknown != "" && known != "" && password != ""
    requires forall i :: 0 <= i < |s.users| ==> s.users[i].email != unknown
    requires exists i :: 0 <= i < |s.users| && s.users[i].email == known &&
                         forall j :: 0 <= j < |s.users| && s.users[j].email == known ==>
                                       compare(password, s.users[j].password) == Ok(false)
    ensures Login(s, LoginBody(Some(unknown), Some(password)), compare, sign)
         == Login(s, LoginBody(Some(known), Some(password)), compare, sign)
         == InvalidCredentials
  {
  }

  /** In a valid collection, a user's own email and a matching password log that
      user in, once the token can be signed. */
  lemma LoginFindsOwner(s: Users, i: nat, password: string, compare: (string, string) -> Result<bool>,
                        sign: Claims -> Result<string>)
    requires Valid(s) && i < |s.users| && s.users[i].email != "" && password != ""
    requires compare(password, s.users[i].password) == Ok(true) && TokenFor(s.users[i], sign).Ok?
    ensures Login(s, LoginBody(Some(s.users[i].email), Some(password)), compare, sign)
         == LoggedIn(TokenFor(s.users[i], sign).value, Public(s.users[i]))
  {
  }

  /** `getAllUsers`: every user, in order, without the password, and its count. */
  function AllUsers(s: Users): (r: Reply)
    ensures r.UserList? && r.count == |r.users| == |s.users|
    ensures forall i :: 0 <= i < |s.users| ==> r.users[i] == Listed(s.users[i])
  {
    var list := seq(|s.users|, i requires 0 <= i < |s.users| => Listed(s.users[i]));
    UserList(|list|, list)
  }

  /** `deleteUser`, specified on values. `requester` is `req.user`, which may be absent. */
  function DeleteSpec(s: Users, id: string, requester: Option<Claims>): (Users, Reply) {
    if requester.Some? && id == requester.value.id then (s, Failure(400, "Cannot delete your own account"))
    else match FindById(s.users, UserId, id)
      case None => (s, Failure(404, "User not found"))
      case Some(k) => (Users(RemoveAt(s.users, k), s.nextId), Deleted("User deleted successfully"))
  }

  /** Self-deletion is refused and an unknown id is 404, both without change;
      any other id that names a user is deleted: exactly the users with that id
      are gone and every other user stays. */
  lemma {:induction false} DeleteOutcome(s: Users, id: string, requester: Option<Claims>)
    requires Valid(s)
    ensures var (s', r) := DeleteSpec(s, id, requester);
            && (requester.Some? && id == requester.value.id ==> r == Failure(400, "Cannot delete your own account") && s' == s)
            && (!(requester.Some? && id == requester.value.id) && (forall i :: 0 <= i < |s.users| ==> IdText(s.users[i].id) != id) ==>
                  r == Failure(404, "User not found") && s' == s)
            && (r.Failure? || r.Deleted?)
            && (!(requester.Some? && id == requester.value.id) && (exists i :: 0 <= i < |s.users| && IdText(s.users[i].id) == id) ==>
                  r == Deleted("User deleted successfully"))
            && (r.Deleted? ==>
                  && |s'.users| == |s.users| - 1
                  && (forall i :: 0 <= i < |s'.users| ==> IdText(s'.users[i].id) != id)
                  && (forall u :: u in s.users && IdText(u.id) != id ==> u in s'.users)
                  && (forall u :: u in s'.users ==> u in s.users))
  {
    if !(requester.Some? && id == requester.value.id) && FindById(s.users, UserId, id).Some? {
      RemoveFound(s.users, FindById(s.users, UserId, id).value, id);
    }
  }

  /** Removing the one user with a given id, among users with unique ids. */
  lemma RemoveFound(users: seq<User>, k: nat, id: string)
    requires forall i, j :: 0 <= i < j < |users| ==> users[i].id != users[j].id
    requires k < |users| && IdText(users[k].id) == id
    ensures var rest := RemoveAt(users, k);
            && (forall i :: 0 <= i < |rest| ==> IdText(rest[i].id) != id)
            && (forall u :: u in users && IdText(u.id) != id ==> u in rest)
            && (forall u :: u in rest ==> u in users)
  {
    var rest := RemoveAt(users, k);
    forall i | 0 <= i < |rest| ensures IdText(rest[i].id) != id {
      var j := if i < k then i else i + 1;
      assert rest[i] == users[j];
      if IdText(users[j].id) == id { IdTextInjective(users[j].id, users[k].id); }
    }
    forall u | u in users && IdText(u.id) != id ensures u in rest {
      var j :| 0 <= j < |users| && users[j] == u;
      if j < k { assert rest[j] == u; } else { assert rest[j - 1] == u; }
    }
    forall u | u in rest ensures u in users {
      var i :| 0 <= i < |rest| && rest[i] == u;
      if i < k { assert users[i] == u; } else { assert users[i + 1] == u; }
    }
  }

  /** Removing one user keeps the collection valid. */
  lemma {:induction false} RemoveKeepsValid(s: Users, k: nat)
    requires Valid(s) && k < |s.users|
    ensures Valid(Users(RemoveAt(s.users, k), s.nextId))
  {
    var rest := RemoveAt(s.users, k);
    forall i | 0 <= i < |rest| ensures rest[i].id < s.nextId {
      assert rest[i] == s.users[if i < k then i else i + 1];
    }
    forall i, j | 0 <= i < j < |rest|
      ensures rest[i].id != rest[j].id && rest[i].email != rest[j].email && rest[i].username != rest[j].username
      ensures !(rest[i].role == Admin && rest[j].role == Admin)
    {
      var i', j' := if i < k then i else i + 1, if j < k then j else j + 1;
      assert rest[i] == s.users[i'] && rest[j] == s.users[j'] && i' < j';
    }
  }

  lemma DeleteKeepsValid(s: Users, id: string, requester: Option<Claims>)
    requires Valid(s)
    ensures Valid(DeleteSpec(s, id, requester).0)
  {
    if !(requester.Some? && id == requester.value.id) && FindById(s.users, UserId, id).Some? {
      RemoveKeepsValid(s, FindById(s.users, UserId, id).value);
    }
  }

  /** The user collection. */
  class UserStore {
    var users: seq<User>
    var nextId: nat

    function State(): Users
      reads this
    {
      Users(users, nextId)
    }

    constructor ()
      ensures users == [] && nextId == 0 && Valid(State())
    {
      users := [];
      nextId := 0;
    }

    /** `register`. */
    method Register(body: RegisterBody, hash: string -> Result<string>, sign: Claims -> Result<string>, now: int)
      returns (reply: Reply)
      modifies this
      ensures (State(), reply) == RegisterSpec(old(State()), body, hash, sign, now)
    {
      if !Present(body.username) || !Present(body.email) || !Present(body.password) {
        return Failure(400, "All fields required");
      }
      var username, email, password := body.username.value, body.email.value, body.password.value;
      if Taken(users, email, username) {
        return Failure(400, "User already exists");
      }
      var role := if |users| == 0 then Admin else Customer;
      var hashed := hash(password);
      if hashed.Err? {
        return Failure(500, hashed.error);
      }
      var user := NewUser(nextId, username, email, hashed.value, role, now);
      users := users + [user];
      nextId := nextId + 1;
      var token := TokenFor(user, sign);
      if token.Err? {
        return Failure(500, token.error);
      }
      var message := if role == Admin then FirstAdminMessage else CustomerMessage;
      reply := Registered(token.value, Public(user), message);
    }

    /** `deleteUser`. */
    method DeleteUser(id: string, requester: Option<Claims>) returns (reply: Reply)
      modifies this
      ensures (State(), reply) == DeleteSpec(old(State()), id, requester)
    {
      if requester.Some? && id == requester.value.id {
        return Failure(400, "Cannot delete your own account");
      }
      var found := FindById(users, UserId, id);
      if found.None? {
        return Failure(404, "User not found");
      }
      users := RemoveAt(users, found.value);
      reply := Deleted("User deleted successfully");
    }
  }

  /** Only the first registration of a fresh store makes an admin; a second user is a customer. */
  method FirstUserIsAdmin(hash: string -> Result<string>, sign: Claims -> Result<string>)
  {
    var store := new UserStore();
    var first := store.Register(RegisterBody(Some("ali"), Some("a@x"), Some("p1")), hash, sign, 1);
    var second := store.Register(RegisterBody(Some("sara"), Some("s@x"), Some("p2")), hash, sign, 2);
    assert first.Registered? ==> first.user.role == Admin;
    assert first.Registered? && second.Registered? ==> second.user.role == Customer;
  }
}
