/**
 * Admin sign-in: the credentials provider's `authorize` decision and the `jwt` and
 * `session` callbacks that copy the admin's id and username into the token and the
 * session. The password-hash comparison is a parameter.
 */
module Auth {
  import opened Wrappers
  import opened Text

  /** The submitted credentials; a field that was not sent is `None`. */
  datatype Credentials = Credentials(username: Option<string>, password: Option<string>)

  /** An admin row; `password` is the stored hash. */
  datatype AdminRow = AdminRow(id: nat, username: string, password: string, name: Option<string>)

  /** The user object handed to the session machinery. */
  datatype User = User(id: string, name: Option<string>, username: string)

  /** `credentials?.username` (or `password`) is truthy: sent and non-empty. */
  predicate Filled(s: Option<string>) {
    s.Some? && s.value != ""
  }

  /** The admin table, looked up by its unique `username`, stores each row under its own name. */
  predicate KeyedByUsername(admins: map<string, AdminRow>) {
    forall u :: u in admins ==> admins[u].username == u
  }

  /**
   * `authorize`: null for missing or empty credentials, an unknown username or a password
   * that does not match the stored hash; otherwise the admin with its id as a decimal string.
   */
  function Authorize(credentials: Option<Credentials>, admins: map<string, AdminRow>,
                     passwordMatches: (string, string) -> bool): (user: Option<User>)
    ensures user.Some? <==>
      && credentials.Some? && Filled(credentials.value.username) && Filled(credentials.value.password)
      && credentials.value.username.value in admins
      && passwordMatches(credentials.value.password.value, admins[credentials.value.username.value].password)
  {
    if credentials.None? || !Filled(credentials.value.username) || !Filled(credentials.value.password) then None
    else
      var username := credentials.value.username.value;
      if username !in admins then None
      else
        var admin := admins[username];
        if !passwordMatches(credentials.value.password.value, admin.password) then None
        else Some(User(NatToString(admin.id), admin.name, admin.username))
  }

  /** A missing or empty username or password is refused before the table is consulted. */
  lemma MissingCredentialsRefused(credentials: Option<Credentials>, admins: map<string, AdminRow>,
                                  passwordMatches: (string, string) -> bool)
    requires credentials.None? || !Filled(credentials.value.username) || !Filled(credentials.value.password)
    ensures Authorize(credentials, admins, passwordMatches).None?
    ensures Authorize(credentials, map[], passwordMatches).None?
  {
  }

  /**
   * An accepted sign-in reports the admin stored under the submitted username: its name,
   * that username, and an id string that reads back as the admin's numeric id.
   */
  lemma AcceptedUser(credentials: Option<Credentials>, admins: map<string, AdminRow>,
                     passwordMatches: (string, string) -> bool)
    requires KeyedByUsername(admins)
    requires Authorize(credentials, admins, passwordMatches).Some?
    ensures var user := Authorize(credentials, admins, passwordMatches).value;
      var admin := admins[credentials.value.username.value];
      && user.username == credentials.value.username.value
      && user.name == admin.name
      && AllDigits(user.id) && DigitsValue(user.id) == admin.id
  {
    DigitsValueOfNatToString(admins[credentials.value.username.value].id);
  }

  /** Two accepted sign-ins with the same id string are sign-ins of the same admin row. */
  lemma SameIdSameAdmin(c1: Option<Credentials>, c2: Option<Credentials>, admins: map<string, AdminRow>,
                        passwordMatches: (string, string) -> bool)
    requires Authorize(c1, admins, passwordMatches).Some? && Authorize(c2, admins, passwordMatches).Some?
    requires Authorize(c1, admins, passwordMatches).value.id == Authorize(c2, admins, passwordMatches).value.id
    ensures admins[c1.value.username.value].id == admins[c2.value.username.value].id
  {
    NatToStringInjective(admins[c1.value.username.value].id, admins[c2.value.username.value].id);
  }

  /** The JWT fields the callbacks touch. */
  class Token {
    var id: Option<string>
    var username: Option<string>

    constructor()
      ensures id == None && username == None
    {
      id := None;
      username := None;
    }
  }

  /** The user part of a session. */
  class SessionUser {
    var id: Option<string>
    var username: Option<string>
    var name: Option<string>

    constructor(name: Option<string>)
      ensures id == None && username == None && this.name == name
    {
      id := None;
      username := None;
      this.name := name;
    }
  }

  class Session {
    const user: SessionUser

    constructor(user: SessionUser)
      ensures this.user == user
    {
      this.user := user;
    }
  }

  /** `jwt`: on sign-in copy the user's id and username into the token; otherwise leave it as it is. */
  method Jwt(token: Token, user: Option<User>) returns (result: Token)
    modifies token
    ensures result == token
    ensures user.Some? ==> token.id == Some(user.value.id) && token.username == Some(user.value.username)
    ensures user.None? ==> token.id == old(token.id) && token.username == old(token.username)
  {
    if user.Some? {
      token.id := Some(user.value.id);
      token.username := Some(user.value.username);
    }
    result := token;
  }

  /** `session`: copy the token's id and username into `session.user`. */
  method SessionOf(session: Session, token: Token?) returns (result: Session)
    modifies session.user
    ensures result == session
    ensures token != null ==> session.user.id == old(token.id) && session.user.username == old(token.username)
    ensures token != null ==> session.user.name == old(session.user.name)
    ensures token == null ==> unchanged(session.user)
  {
    if token != null {
      session.user.id := token.id;
      session.user.username := token.username;
    }
    result := session;
  }

  /**
   * A credentials sign-in followed by the two callbacks: the session then carries the
   * admin's decimal id and username exactly when `authorize` accepted.
   */
  method SignIn(credentials: Option<Credentials>, admins: map<string, AdminRow>,
                passwordMatches: (string, string) -> bool, token: Token, session: Session)
    returns (user: Option<User>)
    modifies token, session.user
    ensures user == Authorize(credentials, admins, passwordMatches)
    ensures user.Some? ==> session.user.id == Some(user.value.id) && session.user.username == Some(user.value.username)
    ensures user.None? ==> session.user.id == old(token.id) && session.user.username == old(token.username)
  {
    user := Authorize(credentials, admins, passwordMatches);
    var t := Jwt(token, user);
    var s := SessionOf(session, t);
  }
}
