/**
 * The backend's account endpoints: `/register` adds a user to the users
 * table after two checks, and `/login` looks the user up and hands out a
 * bearer token. The table is a list of rows in insertion order with the
 * next id to assign; the unique constraints of the table are modelled, the
 * password hash, its check and the token encoder are parameters.
 */
module Accounts {
  import opened Common

  /** A row of the `users` table (the server-set `created_at` is left out). */
  datatype User = User(id: nat, username: string, email: string, passwordHash: string,
                       role: string, displayConsent: bool, cgu: bool)

  /** The `/register` body. */
  datatype UserCreate = UserCreate(username: string, email: string, password: string,
                                   displayConsent: bool, cgu: bool)

  /** The `/login` body. */
  datatype UserLogin = UserLogin(username: string, password: string)

  datatype RegisterResponse =
    | Created(msg: string, userId: nat, displayContent: bool)
    | RegisterRejected(status: int, detail: string)
      /** The commit fails on the unique e-mail constraint and the server answers 500. */
    | EmailConflict

  datatype LoginResponse =
    | LoggedIn(accessToken: string, tokenType: string, userId: nat, displayContent: bool)
    | LoginRejected(status: int, detail: string)

  /** The users table with the id its primary-key sequence gives next. */
  datatype Table = Table(users: seq<User>, nextId: nat)

  // ---------------------------------------------------------------------
  // Queries and constraints
  // ---------------------------------------------------------------------

  /** `db.query(User).filter(User.username == username).first()` */
  function FindUser(users: seq<User>, username: string): (r: Option<User>)
    ensures r.None? <==> forall i :: 0 <= i < |users| ==> users[i].username != username
    ensures r.Some? ==> r.value in users && r.value.username == username
  {
    if users == [] then None
    else if users[0].username == username then Some(users[0])
    else FindUser(users[1..], username)
  }

  /** Some row has this e-mail address. */
  predicate EmailTaken(users: seq<User>, email: string) {
    exists i :: 0 <= i < |users| && users[i].email == email
  }

  /** The constraints of the table: unique ids below the next id, unique usernames and e-mails. */
  predicate TableValid(t: Table) {
    (forall i :: 0 <= i < |t.users| ==> t.users[i].id < t.nextId)
    && (forall i, j :: 0 <= i < j < |t.users| ==>
          t.users[i].id != t.users[j].id
          && t.users[i].username != t.users[j].username
          && t.users[i].email != t.users[j].email)
  }

  // ---------------------------------------------------------------------
  // register and login
  // ---------------------------------------------------------------------

  datatype Registered = Registered(table: Table, response: RegisterResponse)

  /** The row `register` inserts for a request. */
  function NewUser(t: Table, req: UserCreate, hash: string -> string): User {
    User(t.nextId, req.username, req.email, hash(req.password), "user", req.displayConsent, req.cgu)
  }

  /**
   * `register`: a taken username is refused first, then a request without
   * accepted terms; otherwise the row is added, unless its e-mail is taken,
   * in which case the commit fails and the table is as before.
   */
  function RegisterSpec(t: Table, req: UserCreate, hash: string -> string): Registered {
    if FindUser(t.users, req.username).Some? then
      Registered(t, RegisterRejected(400, "Username already registered"))
    else if !req.cgu then
      Registered(t, RegisterRejected(400, "Terms and conditions must be accepted"))
    else if EmailTaken(t.users, req.email) then
      Registered(t, EmailConflict)
    else
      var u := NewUser(t, req, hash);
      Registered(Table(t.users + [u], t.nextId + 1), Created("User created successfully", u.id, u.displayConsent))
  }

  /**
   * `login`: an unknown username and a wrong password get the same 401;
   * otherwise the token of the username, of type "bearer", with the user's id.
   */
  function LoginSpec(users: seq<User>, req: UserLogin, verify: (string, string) -> bool,
                     token: string -> string): LoginResponse {
    match FindUser(users, req.username)
    case None => LoginRejected(401, "Invalid credentials")
    case Some(u) =>
      if !verify(req.password, u.passwordHash) then LoginRejected(401, "Invalid credentials")
      else LoggedIn(token(u.username), "bearer", u.id, u.displayConsent)
  }

  class UserStore {
    var users: seq<User>
    var nextId: nat

    predicate Valid()
      reads this
    {
      TableValid(Table(users, nextId))
    }

    constructor()
      ensures Valid() && users == [] && nextId == 1
    {
      users := [];
      nextId := 1;
    }

    /** The `/register` handler against the table, with the commit's unique checks. */
    method Register(req: UserCreate, hash: string -> string) returns (response: RegisterResponse)
      requires Valid()
      modifies this
      ensures Valid()
      ensures Registered(Table(users, nextId), response) == RegisterSpec(old(Table(users, nextId)), req, hash)
    {
      var dbUser := FindUser(users, req.username);
      if dbUser.Some? {
        return RegisterRejected(400, "Username already registered");
      }
      if !req.cgu {
        return RegisterRejected(400, "Terms and conditions must be accepted");
      }
      var hashedPw := hash(req.password);
      var newUser := User(nextId, req.username, req.email, hashedPw, "user", req.displayConsent, req.cgu);
      if EmailTaken(users, req.email) {
        return EmailConflict;
      }
      RegisterKeepsValid(Table(users, nextId), req, hash);
      users := users + [newUser];
      nextId := nextId + 1;
      response := Created("User created successfully", newUser.id, newUser.displayConsent);
    }

    /** The `/login` handler: a lookup and a check; the table is not changed. */
    method Login(req: UserLogin, verify: (string, string) -> bool, token: string -> string)
      returns (response: LoginResponse)
      ensures response == LoginSpec(users, req, verify, token)
    {
      var dbUser := FindUser(users, req.username);
      if dbUser.None? || !verify(req.password, dbUser.value.passwordHash) {
        return LoginRejected(401, "Invalid credentials");
      }
      var accessToken := token(dbUser.value.username);
      response := LoggedIn(accessToken, "bearer", dbUser.value.id, dbUser.value.displayConsent);
    }
  }

  // ---------------------------------------------------------------------
  // Properties
  // ---------------------------------------------------------------------

  /** Registration keeps ids, usernames and e-mails unique. */
  lemma RegisterKeepsValid(t: Table, req: UserCreate, hash: string -> string)
    requires TableValid(t)
    ensures TableValid(RegisterSpec(t, req, hash).table)
  {
    if FindUser(t.users, req.username).None? && req.cgu && !EmailTaken(t.users, req.email) {
      var users' := t.users + [NewUser(t, req, hash)];
      forall i, j | 0 <= i < j < |users'|
        ensures users'[i].id != users'[j].id
        ensures users'[i].username != users'[j].username
        ensures users'[i].email != users'[j].email
      {
        if j == |t.users| {
          assert users'[i] == t.users[i];
        }
      }
    }
  }

  /**
   * The two refusals and their order: a taken username answers "Username
   * already registered" whatever the terms flag; a free username without
   * accepted terms answers "Terms and conditions must be accepted"; a refusal
   * or a failed commit leaves the table unchanged.
   */
  lemma RegisterRefusals(t: Table, req: UserCreate, hash: string -> string)
    ensures FindUser(t.users, req.username).Some? ==>
      RegisterSpec(t, req, hash) == Registered(t, RegisterRejected(400, "Username already registered"))
    ensures FindUser(t.users, req.username).None? && !req.cgu ==>
      RegisterSpec(t, req, hash) == Registered(t, RegisterRejected(400, "Terms and conditions must be accepted"))
    ensures !RegisterSpec(t, req, hash).response.Created? ==> RegisterSpec(t, req, hash).table == t
    ensures RegisterSpec(t, req, hash).response.RegisterRejected? <==>
      FindUser(t.users, req.username).Some? || !req.cgu
  {
  }

  /**
   * A registration succeeds exactly when the username and the e-mail are free
   * and the terms are accepted, and then adds exactly one row: the request's
   * fields, the hash of the password, the role "user" and the next id.
   */
  lemma RegisterSuccess(t: Table, req: UserCreate, hash: string -> string)
    ensures RegisterSpec(t, req, hash).response.Created? <==>
      (forall i :: 0 <= i < |t.users| ==> t.users[i].username != req.username)
      && req.cgu
      && (forall i :: 0 <= i < |t.users| ==> t.users[i].email != req.email)
    ensures RegisterSpec(t, req, hash).response.Created? ==>
      var r := RegisterSpec(t, req, hash);
      r.table.users == t.users + [User(t.nextId, req.username, req.email, hash(req.password), "user", req.displayConsent, true)]
      && r.table.nextId == t.nextId + 1
      && r.response == Created("User created successfully", t.nextId, req.displayConsent)
  {
  }

  /** Adding a row with a new username changes no lookup of another name and finds the row by its own. */
  lemma {:induction false} FindUserAppend(users: seq<User>, u: User, name: string)
    requires FindUser(users, u.username).None?
    ensures FindUser(users + [u], name) == if name == u.username then Some(u) else FindUser(users, name)
  {
    if users != [] {
      assert (users + [u])[1..] == users[1..] + [u];
      FindUserAppend(users[1..], u, name);
    }
  }

  /** Login refuses with one and the same answer, whichever check failed. */
  lemma LoginRefusal(users: seq<User>, req: UserLogin, verify: (string, string) -> bool, token: string -> string)
    ensures LoginSpec(users, req, verify, token).LoginRejected? <==>
      FindUser(users, req.username).None? || !verify(req.password, FindUser(users, req.username).value.passwordHash)
    ensures LoginSpec(users, req, verify, token).LoginRejected? ==>
      LoginSpec(users, req, verify, token) == LoginRejected(401, "Invalid credentials")
    ensures LoginSpec(users, req, verify, token).LoggedIn? ==>
      var u := FindUser(users, req.username).value;
      LoginSpec(users, req, verify, token) == LoggedIn(token(req.username), "bearer", u.id, u.displayConsent)
  {
  }

  /**
   * With a password check that accepts every password against its own hash,
   * a user who has just registered can log in with the same credentials and
   * gets the token of the username and the new id; logins of other names are
   * unaffected.
   */
  lemma RegisterThenLogin(t: Table, req: UserCreate, hash: string -> string,
                          verify: (string, string) -> bool, token: string -> string, other: UserLogin)
    requires forall p :: verify(p, hash(p))
    requires RegisterSpec(t, req, hash).response.Created?
    ensures LoginSpec(RegisterSpec(t, req, hash).table.users, UserLogin(req.username, req.password), verify, token)
      == LoggedIn(token(req.username), "bearer", t.nextId, req.displayConsent)
    ensures other.username != req.username ==>
      LoginSpec(RegisterSpec(t, req, hash).table.users, other, verify, token) == LoginSpec(t.users, other, verify, token)
  {
    var u := NewUser(t, req, hash);
    FindUserAppend(t.users, u, req.username);
    FindUserAppend(t.users, u, other.username);
  }
}
