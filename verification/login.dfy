/** The login route (`app/api/auth/login/route.ts`): checks the posted
    credentials against the admin table and, only when both the lookup and
    the password comparison succeed, writes the admin's identity into the
    session. The password comparison (bcrypt) is a parameter. */
module LoginRoute {
  import opened Common
  import opened Accounts
  import SessionRoute

  /** The JSON body `{ username, password }`. */
  datatype LoginBody = LoginBody(username: Option<string>, password: Option<string>)

  /** The decision of the handler: an error reply, or the admin to log in. */
  datatype LoginOutcome = Rejected(status: nat, error: string) | Accepted(admin: Admin)

  /** The decision the handler takes. `json` is `None` when the body is not
      JSON, which raises before any check and gives 500. Missing credentials
      give 400 before any lookup; an unknown username and a wrong password
      give the same 401; a store failure gives 500. */
  function Authenticate(admins: map<string, Admin>, json: Option<LoginBody>,
                        matches: (string, PasswordHash) -> bool, fault: bool): (o: LoginOutcome)
    ensures json.None? ==> o == Rejected(500, "Login failed")
    ensures json.Some? && !(Truthy(json.value.username) && Truthy(json.value.password)) ==>
      o == Rejected(400, "Missing credentials")
    ensures json.Some? && Truthy(json.value.username) && Truthy(json.value.password) && fault ==>
      o == Rejected(500, "Login failed")
    ensures o.Rejected? && o.status == 401 ==> o.error == "Invalid credentials"
    ensures o.Accepted? <==>
      && json.Some? && Truthy(json.value.username) && Truthy(json.value.password) && !fault
      && json.value.username.value in admins
      && matches(json.value.password.value, admins[json.value.username.value].passwordHash)
    ensures o.Accepted? ==> o.admin == admins[json.value.username.value]
    ensures o.Rejected? ==> o.status in {400, 401, 500}
  {
    if json.None? then
      Rejected(500, "Login failed")
    else
      var body := json.value;
      if !(Truthy(body.username) && Truthy(body.password)) then
        Rejected(400, "Missing credentials")
      else if fault then
        Rejected(500, "Login failed")
      else if body.username.value !in admins then
        Rejected(401, "Invalid credentials")
      else if !matches(body.password.value, admins[body.username.value].passwordHash) then
        Rejected(401, "Invalid credentials")
      else
        Accepted(admins[body.username.value])
  }

  /** No username enumeration: the reply to a username that has no account
      is the reply the same request would get if the account existed and
      the password did not match it. */
  lemma UnknownUserLooksLikeWrongPassword(admins: map<string, Admin>, body: LoginBody,
                                          matches: (string, PasswordHash) -> bool, fault: bool,
                                          account: Admin)
    requires Truthy(body.username) && Truthy(body.password)
    requires body.username.value !in admins
    requires !matches(body.password.value, account.passwordHash)
    ensures Authenticate(admins, Some(body), matches, fault)
         == Authenticate(admins[body.username.value := account], Some(body), matches, fault)
    ensures !fault ==> Authenticate(admins, Some(body), matches, fault) == Rejected(401, "Invalid credentials")
  {
  }

  /** POST /api/auth/login. On success the session holds the admin's id and
      username and is marked logged in, it is saved, and the reply echoes the
      username; on every other path the session is untouched. */
  method Login(store: AdminStore, json: Option<LoginBody>, session: Session,
               matches: (string, PasswordHash) -> bool, fault: bool)
    returns (reply: Reply<string>)
    requires store.Valid()
    modifies session
    ensures var o := Authenticate(store.admins, json, matches, fault);
      && (o.Rejected? ==> reply == Fail(o.status, o.error) && unchanged(session))
      && (o.Accepted? ==> reply == Ok(o.admin.username)
                          && session.Fields() == SessionData(Some(o.admin.id), Some(o.admin.username), true)
                          && session.saved == session.Fields()
                          && SessionRoute.SessionStatus(Some(session.saved))
                             == SessionRoute.LoggedIn(Some(o.admin.username), Some(o.admin.id)))
  {
    if json.None? {
      return Fail(500, "Login failed");
    }
    var body := json.value;
    if !(Truthy(body.username) && Truthy(body.password)) {
      return Fail(400, "Missing credentials");
    }
    if fault {
      return Fail(500, "Login failed");
    }
    var username, password := body.username.value, body.password.value;
    if username !in store.admins {
      return Fail(401, "Invalid credentials");
    }
    var admin := store.admins[username];
    var isValidPassword := matches(password, admin.passwordHash);
    if !isValidPassword {
      return Fail(401, "Invalid credentials");
    }
    session.userId := Some(admin.id);
    session.username := Some(admin.username);
    session.isLoggedIn := true;
    session.Save();
    reply := Ok(admin.username);
  }
}
