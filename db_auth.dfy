/**
 * The authentication helpers of db/auth.py: `authenticate`, `login`,
 * `logout` and `get_user`, acting on the users table and on the module-level
 * `SESSION` dictionary.
 *
 * The model follows the code as it is written, not as its docstrings read:
 *  - `create_session` assigns a name local to itself, so it never changes the
 *    module-level `SESSION`; its only effect is Beaker's file I/O;
 *  - `login` updates `SESSION` and then calls `save` on it, which a plain
 *    dictionary does not have, so every connected `login` ends in an error
 *    after its state change;
 *  - `logout` assigns `SESSION` in its own body, which makes the name local
 *    to it, so its first read of `SESSION` fails and nothing changes.
 */
module Auth {
  import opened Wrappers
  import opened Lookup

  /** A point in time, as `datetime.datetime.now()` would give it. */
  type Timestamp = int

  /** A row of the users table, as far as this module reads or writes it. */
  datatype User = User(id: int, name: string, password: string, lastLogin: Option<Timestamp>)

  /** The exceptions the module's functions end in. */
  datatype Error =
    | LoginError(message: string)  // stalker.models.error.LoginError
    | CommitOnNone                 // AttributeError: `db.meta.session` is None when `commit` is called
    | SaveOnDict                   // AttributeError: the module-level SESSION is a dict, which has no `save`
    | SessionUnbound               // UnboundLocalError: `logout` reads its local SESSION before assigning it
    | LastLoginOnNone              // AttributeError: `login(None)` assigns `last_login` on None

  const NotConnectedMessage: string :=
    "stalker is not connected to any db right now, use stalker.db.setup(), to setup the default db"
  const MismatchMessage: string := "user name and login don't match"
  const UserIdKey: string := "user_id"

  /** `users[k]` is the first row whose name is `name`. */
  ghost predicate FirstNamed(users: seq<User>, k: int, name: string)
  {
    0 <= k < |users| && users[k].name == name &&
    forall j | 0 <= j < k :: users[j].name != name
  }

  /** `users[k]` is the first row whose id is `id`. */
  ghost predicate FirstWithId(users: seq<User>, k: int, id: int)
  {
    0 <= k < |users| && users[k].id == id &&
    forall j | 0 <= j < k :: users[j].id != id
  }

  /** No two rows share an id (the table's primary key). */
  ghost predicate UniqueIds(users: seq<User>)
  {
    forall i, j | 0 <= i < j < |users| :: users[i].id != users[j].id
  }

  /**
   * What `authenticate(username, password)` returns or raises, given whether
   * a database is set up and the rows of the users table.
   */
  function Authentication(connected: bool, users: seq<User>, username: string, password: string)
    : (r: Result<User, Error>)
    ensures !connected ==> r == Failure(LoginError(NotConnectedMessage))
    ensures connected && (forall k | 0 <= k < |users| :: users[k].name != username) ==>
              r == Failure(LoginError(MismatchMessage))
    ensures forall k | connected && FirstNamed(users, k, username) ::
              r == if users[k].password == password then Success(users[k])
                   else Failure(LoginError(MismatchMessage))
    ensures r.Success? <==>
              connected && exists k :: FirstNamed(users, k, username) && users[k].password == password
  {
    if !connected then Failure(LoginError(NotConnectedMessage))
    else
      match FirstWhere(users, (u: User) => u.name == username)
      case None => Failure(LoginError(MismatchMessage))
      case Some(k) =>
        if users[k].password != password then Failure(LoginError(MismatchMessage))
        else Success(users[k])
  }

  /**
   * The users table after `user_obj.last_login = now` and the commit, for a
   * `user_obj` with the given id: the row with that id is the same object as
   * `user_obj`, so it is the one stamped.
   */
  function Stamped(users: seq<User>, id: int, now: Timestamp): (r: seq<User>)
    ensures |r| == |users|
    ensures forall k | 0 <= k < |users| ::
              r[k].id == users[k].id && r[k].name == users[k].name && r[k].password == users[k].password
    ensures forall k | 0 <= k < |users| && users[k].id == id :: r[k].lastLogin == Some(now)
    ensures forall k | 0 <= k < |users| && users[k].id != id :: r[k] == users[k]
  {
    seq(|users|, k requires 0 <= k < |users| =>
      if users[k].id == id then users[k].(lastLogin := Some(now)) else users[k])
  }

  /**
   * What `get_user()` returns or raises, given whether a database is set up,
   * the rows of the users table and the module-level SESSION.
   */
  function CurrentUser(connected: bool, users: seq<User>, session: map<string, int>)
    : (r: Result<Option<User>, Error>)
    ensures !connected ==> r == Failure(LoginError(NotConnectedMessage))
    ensures connected && UserIdKey !in session ==> r == Success(None)
    ensures connected && UserIdKey in session &&
              (forall k | 0 <= k < |users| :: users[k].id != session[UserIdKey]) ==>
              r == Success(None)
    ensures forall k | connected && UserIdKey in session && FirstWithId(users, k, session[UserIdKey]) ::
              r == Success(Some(users[k]))
  {
    if !connected then Failure(LoginError(NotConnectedMessage))
    else if UserIdKey !in session then Success(None)
    else
      var id := session[UserIdKey];
      match FirstWhere(users, (u: User) => u.id == id)
      case None => Success(None)
      case Some(k) => Success(Some(users[k]))
  }

  /**
   * The state db/auth.py works on: whether `db.meta.session` is set up, the
   * users table, and the module-level `SESSION` dictionary.
   */
  class Store {
    var connected: bool
    var users: seq<User>
    var session: map<string, int>

    /** The users table keeps `id` as its primary key. */
    ghost predicate Valid()
      reads this
    {
      UniqueIds(users)
    }

    /** The module as imported (`SESSION = {}`), over a given database. */
    constructor (connected: bool, users: seq<User>)
      requires UniqueIds(users)
      ensures Valid()
      ensures this.connected == connected && this.users == users && session == map[]
    {
      this.connected := connected;
      this.users := users;
      this.session := map[];
    }

    /**
     * `create_session`: the Beaker session it builds and saves is bound to a
     * name local to the function, so none of the state here changes.
     */
    method CreateSession()
      ensures unchanged(this)
    {
    }

    /** `authenticate(username, password)`: changes nothing. */
    method Authenticate(username: string, password: string) returns (r: Result<User, Error>)
      ensures r == Authentication(connected, users, username, password)
    {
      if !connected {
        return Failure(LoginError(NotConnectedMessage));
      }
      var found := FirstWhere(users, (u: User) => u.name == username);
      if found.None? {
        return Failure(LoginError(MismatchMessage));
      }
      var user := users[found.value];
      if user.password != password {
        return Failure(LoginError(MismatchMessage));
      }
      return Success(user);
    }

    /**
     * `login(user_obj)` at time `now`, where None is the `None` that
     * `get_user()` may hand on. Setting `last_login` on None fails at once.
     * Otherwise it stamps the user's row; without a database the commit
     * fails next; otherwise `SESSION["user_id"]` becomes the user's id and
     * the following `SESSION.save()` fails. No call completes normally.
     */
    method Login(u: Option<User>, now: Timestamp) returns (r: Outcome<Error>)
      requires Valid()
      modifies this`users, this`session
      ensures Valid()
      ensures u.None? ==> r == Fail(LastLoginOnNone) && users == old(users) && session == old(session)
      ensures u.Some? ==> users == Stamped(old(users), u.value.id, now)
      ensures u.Some? ==> session == if connected then old(session)[UserIdKey := u.value.id] else old(session)
      ensures u.Some? ==> r == Fail(if connected then SaveOnDict else CommitOnNone)
    {
      if u.None? {
        return Fail(LastLoginOnNone);
      }
      var user := u.value;
      users := Stamped(users, user.id, now);
      if !connected {
        return Fail(CommitOnNone);
      }
      if UserIdKey !in session {
        CreateSession();
      }
      session := session[UserIdKey := user.id];
      return Fail(SaveOnDict);
    }

    /**
     * `logout()`. The assignment `SESSION = {}` at its end makes `SESSION`
     * local to the function, so the isinstance assertion that opens it
     * reads an unbound name and raises before the session is deleted.
     * (Its docstring intends: delete the Beaker session, then reset
     * SESSION to an empty dictionary.)
     */
    method Logout() returns (r: Outcome<Error>)
      ensures r == Fail(SessionUnbound)
    {
      r := Fail(SessionUnbound);
    }

    /** `get_user()`: changes nothing, since `create_session` changes nothing. */
    method GetUser() returns (r: Result<Option<User>, Error>)
      ensures r == CurrentUser(connected, users, session)
    {
      if !connected {
        return Failure(LoginError(NotConnectedMessage));
      }
      CreateSession();
      if UserIdKey in session {
        var id := session[UserIdKey];
        var found := FirstWhere(users, (u: User) => u.id == id);
        if found.Some? {
          return Success(Some(users[found.value]));
        }
        return Success(None);
      } else {
        return Success(None);
      }
    }
  }

  /** Stamping last-login times leaves which row is first with a given id as it was. */
  lemma StampedKeepsFirstWithId(users: seq<User>, stampId: int, now: Timestamp, k: int, id: int)
    ensures FirstWithId(Stamped(users, stampId, now), k, id) <==> FirstWithId(users, k, id)
  {
    var r := Stamped(users, stampId, now);
    if 0 <= k < |users| {
      assert (forall j | 0 <= j < k :: r[j].id != id) <==> (forall j | 0 <= j < k :: users[j].id != id) by {
        forall j | 0 <= j < k ensures r[j].id == users[j].id { }
      }
    }
  }

  /**
   * After a connected `login(u)`, `get_user()` returns `u`'s row with its
   * new last-login time, whatever SESSION held before.
   */
  lemma LoginThenGetUser(users: seq<User>, session: map<string, int>, u: User, now: Timestamp, k: int)
    requires FirstWithId(users, k, u.id)
    ensures CurrentUser(true, Stamped(users, u.id, now), session[UserIdKey := u.id])
            == Success(Some(users[k].(lastLogin := Some(now))))
  {
    StampedKeepsFirstWithId(users, u.id, now, k, u.id);
  }

  /** After a connected `login(u)` for a `u` with no row, `get_user()` returns None. */
  lemma LoginUnknownThenGetUser(users: seq<User>, session: map<string, int>, u: User, now: Timestamp)
    requires forall k | 0 <= k < |users| :: users[k].id != u.id
    ensures CurrentUser(true, Stamped(users, u.id, now), session[UserIdKey := u.id]) == Success(None)
  {
    assert Stamped(users, u.id, now) == users;
  }

  /**
   * A second `login(v)` overwrites the first: `SESSION["user_id"]` is `v.id`
   * and `get_user()` returns `v`'s row, stamped with the second time.
   */
  lemma SecondLoginWins(users: seq<User>, session: map<string, int>, u: User, v: User,
                        t1: Timestamp, t2: Timestamp, k: int)
    requires FirstWithId(users, k, v.id)
    ensures session[UserIdKey := u.id][UserIdKey := v.id] == session[UserIdKey := v.id]
    ensures CurrentUser(true, Stamped(Stamped(users, u.id, t1), v.id, t2),
                        session[UserIdKey := u.id][UserIdKey := v.id])
            == Success(Some(Stamped(users, u.id, t1)[k].(lastLogin := Some(t2))))
  {
    var once := Stamped(users, u.id, t1);
    StampedKeepsFirstWithId(users, u.id, t1, k, v.id);
    LoginThenGetUser(once, session[UserIdKey := u.id], v, t2, k);
  }

  /**
   * The usage the module documents: `authenticate` a user, `login` with the
   * result, then `get_user` returns that same user, stamped. It holds because
   * ids are the table's primary key: the first row with the authenticated
   * row's id is that row.
   */
  lemma AuthenticateLoginGetUser(users: seq<User>, session: map<string, int>,
                                 username: string, password: string, now: Timestamp)
    requires UniqueIds(users)
    requires Authentication(true, users, username, password).Success?
    ensures var u := Authentication(true, users, username, password).value;
            CurrentUser(true, Stamped(users, u.id, now), session[UserIdKey := u.id])
            == Success(Some(u.(lastLogin := Some(now))))
  {
    var k :| FirstNamed(users, k, username) && users[k].password == password;
    var u := users[k];
    assert FirstWithId(users, k, u.id);
    LoginThenGetUser(users, session, u, now, k);
  }

  /**
   * The same promise read against the store's own calls: a connected
   * `login(u)`, whose error is ignored, then `get_user()` gives `u`'s row
   * with its new last-login time.
   */
  method LoginThenGetUserOnStore(store: Store, u: User, now: Timestamp, k: int)
      returns (loggedIn: Outcome<Error>, current: Result<Option<User>, Error>)
    requires store.Valid() && store.connected
    requires FirstWithId(store.users, k, u.id)
    modifies store
    ensures loggedIn == Fail(SaveOnDict)
    ensures current == Success(Some(old(store.users)[k].(lastLogin := Some(now))))
  {
    ghost var before := store.users;
    ghost var session := store.session;
    loggedIn := store.Login(Some(u), now);
    LoginThenGetUser(before, session, u, now, k);
    current := store.GetUser();
  }

  /**
   * The module's documented usage run on a table holding one user, named
   * "alice" with password "x": authentication with the right and with a
   * wrong password, `login` (which raises after storing the id), `get_user`,
   * `logout` (which raises and changes nothing), and `get_user` again, which
   * as written still returns the user.
   */
  method AliceSession() returns (right: Result<User, Error>, wrong: Result<User, Error>,
                                 loggedIn: Outcome<Error>, current: Result<Option<User>, Error>,
                                 loggedOut: Outcome<Error>, afterLogout: Result<Option<User>, Error>)
    ensures right == Success(User(1, "alice", "x", None))
    ensures wrong == Failure(LoginError(MismatchMessage))
    ensures loggedIn == Fail(SaveOnDict)
    ensures current == Success(Some(User(1, "alice", "x", Some(5))))
    ensures loggedOut == Fail(SessionUnbound)
    ensures afterLogout == current
  {
    var alice := User(1, "alice", "x", None);
    var store := new Store(true, [alice]);
    assert FirstNamed(store.users, 0, "alice");
    right := store.Authenticate("alice", "x");
    wrong := store.Authenticate("alice", "y");
    loggedIn := store.Login(Some(alice), 5);
    assert FirstWithId(store.users, 0, 1);
    current := store.GetUser();
    loggedOut := store.Logout();
    afterLogout := store.GetUser();
  }
}
