/**
 * The decision the `login` view of stalker/views/auth.py makes: from the
 * request's parameters and URLs, the users table and the users' password
 * check, either a redirect that remembers a login, or the login form again.
 */
module LoginView {
  import opened Lookup

  /** A row of the users table, as far as the view reads it. */
  datatype Account = Account(login: string, email: string)

  /** What the view answers. */
  datatype Response =
    | Redirect(location: string, remembered: string)
      // HTTPFound to `location`, with the headers of `remember(request, remembered)`
    | Form(message: string, url: string, cameFrom: string, login: string, password: string)
      // the values the login template is rendered with
    | MissingParam(key: string)
      // KeyError: a submitted form without this parameter

  const LoginPath: string := "/login"
  const WrongCredentialsMessage: string := "Wrong username or password!!!"

  /** The parameters a submitted form is read from. */
  predicate Submitted(params: map<string, string>)
  {
    "form.submitted" in params && "login" in params && "password" in params
  }

  /** What a user types in the login box names the account by its login or by its e-mail. */
  predicate Names(a: Account, typed: string)
  {
    a.login == typed || a.email == typed
  }

  /** `accounts[k]` is the first account that `typed` names. */
  ghost predicate FirstNamedBy(accounts: seq<Account>, k: int, typed: string)
  {
    0 <= k < |accounts| && Names(accounts[k], typed) &&
    forall j | 0 <= j < k :: !Names(accounts[j], typed)
  }

  /**
   * Where a successful login goes: the `came_from` parameter when there is
   * one; otherwise the requested URL, except that a request of the login
   * page itself goes to the site root.
   */
  function CameFrom(params: map<string, string>, requestUrl: string, loginUrl: string): (r: string)
    ensures "came_from" in params ==> r == params["came_from"]
    ensures "came_from" !in params && requestUrl == loginUrl ==> r == "/"
    ensures "came_from" !in params && requestUrl != loginUrl ==> r == requestUrl
  {
    var referrer := if requestUrl == loginUrl then "/" else requestUrl;
    if "came_from" in params then params["came_from"] else referrer
  }

  /**
   * The `login` view: `checkPassword(a, p)` stands for `a.check_password(p)`,
   * `applicationUrl` for `request.application_url`, `loginUrl` for
   * `request.route_url('login')`, `requestUrl` for `request.url`.
   */
  function LoginResponse(params: map<string, string>, requestUrl: string, loginUrl: string,
                         applicationUrl: string, accounts: seq<Account>,
                         checkPassword: (Account, string) -> bool): (r: Response)
    ensures "form.submitted" !in params ==>
              r == Form("", applicationUrl + LoginPath, CameFrom(params, requestUrl, loginUrl), "", "")
    ensures "form.submitted" in params && "login" !in params ==> r == MissingParam("login")
    ensures "form.submitted" in params && "login" in params && "password" !in params ==>
              r == MissingParam("password")
    ensures r.Redirect? <==>
              Submitted(params) &&
              exists k :: FirstNamedBy(accounts, k, params["login"]) &&
                          checkPassword(accounts[k], params["password"])
    ensures r.Redirect? ==> r.location == CameFrom(params, requestUrl, loginUrl)
    ensures forall k | Submitted(params) && FirstNamedBy(accounts, k, params["login"]) ::
              r == if checkPassword(accounts[k], params["password"])
                   then Redirect(CameFrom(params, requestUrl, loginUrl), accounts[k].login)
                   else Form(WrongCredentialsMessage, applicationUrl + LoginPath,
                             CameFrom(params, requestUrl, loginUrl), accounts[k].login, params["password"])
    ensures Submitted(params) && (forall k | 0 <= k < |accounts| :: !Names(accounts[k], params["login"])) ==>
              r == Form(WrongCredentialsMessage, applicationUrl + LoginPath,
                        CameFrom(params, requestUrl, loginUrl), params["login"], params["password"])
  {
    var cameFrom := CameFrom(params, requestUrl, loginUrl);
    var url := applicationUrl + LoginPath;
    if "form.submitted" !in params then Form("", url, cameFrom, "", "")
    else if "login" !in params then MissingParam("login")
    else if "password" !in params then MissingParam("password")
    else
      var typed := params["login"];
      var password := params["password"];
      match FirstWhere(accounts, (a: Account) => Names(a, typed))
      case None => Form(WrongCredentialsMessage, url, cameFrom, typed, password)
      case Some(k) =>
        var login := accounts[k].login;
        if checkPassword(accounts[k], password) then Redirect(cameFrom, login)
        else Form(WrongCredentialsMessage, url, cameFrom, login, password)
  }

  /**
   * A submitted form that does not log in gets the same message whether no
   * account was named or the password was wrong, and echoes the password.
   */
  lemma FailureIsUndifferentiated(params: map<string, string>, requestUrl: string, loginUrl: string,
                                  applicationUrl: string, accounts: seq<Account>,
                                  checkPassword: (Account, string) -> bool)
    requires Submitted(params)
    requires !LoginResponse(params, requestUrl, loginUrl, applicationUrl, accounts, checkPassword).Redirect?
    ensures var r := LoginResponse(params, requestUrl, loginUrl, applicationUrl, accounts, checkPassword);
            r.Form? && r.message == WrongCredentialsMessage && r.password == params["password"]
  {
    var typed := params["login"];
    var found := FirstWhere(accounts, (a: Account) => Names(a, typed));
    if found.Some? {
      assert FirstNamedBy(accounts, found.value, typed);
    }
  }

  /**
   * Typing an account's e-mail or its login makes no difference to the
   * answer, when no earlier account is named by either: the view works on
   * the account's canonical login from then on.
   */
  lemma EmailOrLoginAlike(params: map<string, string>, requestUrl: string, loginUrl: string,
                          applicationUrl: string, accounts: seq<Account>,
                          checkPassword: (Account, string) -> bool, k: int)
    requires "form.submitted" in params && "password" in params
    requires 0 <= k < |accounts|
    requires FirstNamedBy(accounts, k, accounts[k].email)
    requires FirstNamedBy(accounts, k, accounts[k].login)
    ensures LoginResponse(params["login" := accounts[k].email], requestUrl, loginUrl,
                          applicationUrl, accounts, checkPassword)
         == LoginResponse(params["login" := accounts[k].login], requestUrl, loginUrl,
                          applicationUrl, accounts, checkPassword)
  {
    var byEmail := params["login" := accounts[k].email];
    var byLogin := params["login" := accounts[k].login];
    assert "came_from" != "login" by { assert "came_from"[0] != "login"[0]; }
    assert "password" != "login" by { assert "password"[0] != "login"[0]; }
    assert CameFrom(byEmail, requestUrl, loginUrl) == CameFrom(byLogin, requestUrl, loginUrl);
    assert byEmail["password"] == byLogin["password"];
  }
}
