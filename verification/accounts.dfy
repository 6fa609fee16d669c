/** The admin table and the signed session cookie shared by the login route,
    the session probe and the provisioning script. The session library
    itself (cookie sealing) is not part of this model: a session is the
    three fields it carries, and `Save` is the point where they are sealed
    into the cookie. */
module Accounts {
  import opened Common

  /** An irreversible password digest. It is its own type, so no plaintext
      password can be stored where a digest is expected. */
  datatype PasswordHash = PasswordHash(digest: seq<bv8>)

  /** A stored admin account. */
  datatype Admin = Admin(id: string, username: string, passwordHash: PasswordHash)

  /** The fields a session cookie carries. */
  datatype SessionData = SessionData(userId: Option<string>, username: Option<string>, isLoggedIn: bool)

  /** The admin table; `username` is unique, so rows are keyed by it. */
  class AdminStore {
    var admins: map<string, Admin>

    ghost predicate Valid()
      reads this
    {
      forall u :: u in admins ==> admins[u].username == u
    }

    constructor ()
      ensures Valid() && admins == map[]
    {
      admins := map[];
    }
  }

  /** The caller's session object: the fields a handler assigns, and the
      contents of the cookie as last saved. */
  class Session {
    var userId: Option<string>
    var username: Option<string>
    var isLoggedIn: bool
    var saved: SessionData

    /** The session read from an incoming cookie. */
    constructor (cookie: SessionData)
      ensures Fields() == cookie && saved == cookie
    {
      userId, username, isLoggedIn := cookie.userId, cookie.username, cookie.isLoggedIn;
      saved := cookie;
    }

    function Fields(): SessionData
      reads this
    {
      SessionData(userId, username, isLoggedIn)
    }

    /** `session.save()`: seals the current fields into the cookie. */
    method Save()
      modifies this`saved
      ensures saved == Fields()
    {
      saved := SessionData(userId, username, isLoggedIn);
    }
  }
}
