# Stalker authentication, modelled in Dafny

Stalker keeps a record of who is logged in so that a user does not have to
give a password on every request. This project models the two places where
that happens:

- **db/auth.py**: the module-level helpers `authenticate`, `login`, `logout`
  and `get_user`. They act on the users table (reached through
  `db.meta.session`) and on the module-level dictionary `SESSION`. The model
  is the class `Auth.Store`, with three fields. `connected` says whether
  `db.meta.session` is set up. `users` holds the users table's rows, in the
  order `.first()` sees them. `session` is `SESSION`. Pure functions
  (`Authentication`, `Stamped`, `CurrentUser`) say what each call returns and
  what state it leaves. The methods are proved against them, and lemmas
  relate successive calls.
- **stalker/views/auth.py, the `login` view**: a pure function,
  `LoginView.LoginResponse`. From the request parameters, the request URL,
  the login route's URL, the application URL, the users table and the users'
  `check_password`, it decides between a redirect that remembers a login and
  the login form shown again.

The model follows the code as written. Where the code departs from what its
docstrings say, the model keeps the code's behaviour:

- `create_session` assigns `SESSION` without a `global` statement, so the
  Beaker session it builds never reaches the module-level `SESSION`. It
  changes no modelled state (`Auth.Store.CreateSession`).
- `login` stamps the user's `last_login` and commits. Without a database,
  `db.meta.session` is None, so the commit raises an AttributeError.
  Otherwise `login` stores the user's id under `"user_id"` in `SESSION`. It
  then calls `SESSION.save()`, which a plain dict does not have. So a
  connected `login` changes the state and still ends in an AttributeError.
- `logout` assigns `SESSION` at its last line, so `SESSION` is a local name
  throughout the function. Its first statement therefore raises an
  UnboundLocalError, and nothing is deleted. The user stays logged in
  (`Auth.AliceSession`).
- `authenticate` looks the user up by `name`, not by `login`. It compares
  the password in plain text. An unknown name and a wrong password raise
  `LoginError` with the same message.

## Model

| member | source | states |
|---|---|---|
| `Lookup.FirstWhere` | db/auth.py:103 | the index `.first()` picks: the first row satisfying the filter, or none exactly when no row satisfies it |
| `Auth.Authentication` | db/auth.py:90-115 | without a database: `LoginError` with the not-connected message, whatever the arguments; no row with that name: `LoginError("user name and login don't match")`; the first row with that name: returned when its password equals the argument, otherwise the same error and message; success exactly when the first row with the name has the given password |
| `Auth.Stamped` | db/auth.py:125-126 | the row with the logged-in user's id gets the new `last_login`; its id, name and password stay as they were; every other row is unchanged |
| `Auth.CurrentUser` | db/auth.py:150-167 | without a database: `LoginError` with the not-connected message; no `"user_id"` in SESSION: None; an id that matches no row: None; otherwise the first row with that id |
| `Auth.Store.constructor` | db/auth.py:61 | the module starts with an empty `SESSION`, over the given database state, whose user ids are unique (the table's primary key) |
| `Auth.Store.CreateSession` | db/auth.py:68-85 | changes none of the modelled state, because the session it builds is bound to a local name |
| `Auth.Store.Authenticate` | db/auth.py:90-115 | returns `Authentication` of the current state and changes neither the users nor SESSION |
| `Auth.Store.Login` | db/auth.py:120-133 | `login(None)` raises the AttributeError of setting `last_login` on None and changes nothing; otherwise it stamps the user's row at the given time and keeps user ids unique; without a database, leaves SESSION alone and raises the commit's AttributeError; otherwise sets `SESSION["user_id"]` to the user's id, keeps every other key, and raises the AttributeError of `save` on a dict |
| `Auth.Store.Logout` | db/auth.py:138-145 | always raises UnboundLocalError and changes nothing |
| `Auth.Store.GetUser` | db/auth.py:150-167 | returns `CurrentUser` of the current state and changes nothing |
| `Auth.StampedKeepsFirstWithId` | db/auth.py:125 | stamping `last_login` does not change which row is the first with a given id |
| `Auth.LoginThenGetUser` | db/auth.py:128-165 | after a connected `login(u)`, `get_user` returns `u`'s row with the new `last_login` |
| `Auth.LoginUnknownThenGetUser` | db/auth.py:162-167 | after a connected `login(u)` for a user with no row, `get_user` returns None |
| `Auth.LoginThenGetUserOnStore` | db/auth.py:120-167 | on the store itself: a connected `login(u)` raises the `save` error, and the `get_user()` that follows returns `u`'s row with the new `last_login` |
| `Auth.SecondLoginWins` | db/auth.py:128-133 | a second `login(v)` overwrites the first: `SESSION["user_id"]` is `v`'s id and `get_user` returns `v`'s row |
| `Auth.AuthenticateLoginGetUser` | db/auth.py:27-47 | with unique ids, `get_user` after `login` of the user `authenticate` returned gives back that user, stamped |
| `Auth.AliceSession` | db/auth.py:90-167 | on a one-user table: the right password authenticates and a wrong one fails with the mismatch message; `login` raises but `get_user` then returns the user; `logout` raises, and `get_user` still returns the user |
| `LoginView.CameFrom` | stalker/views/auth.py:206-211 | the redirect target is the `came_from` parameter when present; otherwise `'/'` when the request is for the login page, and the request URL when it is not |
| `LoginView.LoginResponse` | stalker/views/auth.py:202-245 | no `form.submitted`: a form with empty message, login and password; a missing `login` or `password` parameter: KeyError; a redirect to `came_from` exactly when the first account whose login or e-mail equals the typed value passes the password check, remembering that account's login; otherwise a form with "Wrong username or password!!!", the account's login (or the typed value when no account matches) and the typed password |
| `LoginView.FailureIsUndifferentiated` | stalker/views/auth.py:235-245 | a failed submission gets the same message whether the account is unknown or the password is wrong, and the typed password is echoed |
| `LoginView.EmailOrLoginAlike` | stalker/views/auth.py:222-229 | typing an account's e-mail gives the same response as typing its login, when no earlier account matches either |

## Left out

- The Beaker side of `create_session`: the temporary directory, the data and lock directory layout, the key and validate key, the fixed session id `'0'`, and `save()`. This is file I/O, and its result never reaches the module-level `SESSION`. I/O errors raised by Beaker are not modelled.
- Beaker's per-session file locking and any concurrent use of the module. The model is sequential.
- SQLAlchemy. The queries become lookups over `Auth.Store.users`, and `db.meta.session` becomes the `connected` flag. `.first()` without an ORDER BY is taken to follow the order of the sequence. The commit is assumed to succeed whenever a database is set up.
- `datetime.datetime.now()`. The time is a parameter of `Auth.Store.Login`.
- `Auth.Store.Login`: the model identifies the `user_obj` it is given with the row that has the same id, which is at most one row since ids are unique. It also stamps that row when no database is set up, because the assignment at db/auth.py:125 runs before the failing commit. A user object with no row leaves the table unchanged.
- `User.check_password`. The user model is not part of this model, so the check is the function parameter `checkPassword`. Password hashing is not modelled either. db/auth.py compares plain text.
- Multi-valued request parameters. `request.params` is modelled as a map with one value per key.
- Logging. Also the `stalker` module entry of the template dictionary, and the header values `remember()` computes. The model keeps only the login it remembers.
- The truthiness of `user_obj`. It is taken to be true for every row, since the User class is not part of this model.
- The other views in stalker/views/auth.py: `add_user`, `edit_user`, `get_users`, `add_group`, `summarize_user`, `view_user`, the `logout` view, `forbidden` and `home`. They are Pyramid request handling and ORM writes.
- stalker/models/asset.py and stalker/models/tag.py. They are table and mapper declarations, and their equality delegates to base classes that are not part of this model.
