/** lib/auth.ts: credential sign-in and the propagation of the stored role
    through the JWT into the session. */
module Auth {
  import opened Wrappers
  import opened Domain

  /** The submitted credentials, when a credentials object was sent. */
  datatype Credentials = Credentials(email: Option<string>, password: Option<string>)

  /** What `authorize` hands to NextAuth on success. */
  datatype SignedIn = SignedIn(id: string, name: string, email: string, role: Role)

  /** `!x` on an optional string. */
  predicate Blank(x: Option<string>)
  {
    x.None? || x.value == ""
  }

  /** `authorize(credentials)`. `compare(password, hash)` stands for bcrypt's
      comparison. */
  function Authorize(credentials: Option<Credentials>, users: seq<User>, compare: (string, string) -> bool): (r: Option<SignedIn>)
    ensures credentials.None? || Blank(credentials.value.email) || Blank(credentials.value.password) ==> r.None?
    ensures r.Some? ==>
      var c := credentials.value;
      && FindUserByEmail(users, c.email.value).Some?
      && var u := FindUserByEmail(users, c.email.value).value;
      && u.isActive
      && compare(c.password.value, u.passwordHash)
      && r.value == SignedIn(u.id, u.name, u.email, u.role)
    ensures (credentials.Some? && !Blank(credentials.value.email) && !Blank(credentials.value.password)
             && FindUserByEmail(users, credentials.value.email.value).Some?
             && FindUserByEmail(users, credentials.value.email.value).value.isActive
             && compare(credentials.value.password.value, FindUserByEmail(users, credentials.value.email.value).value.passwordHash))
            ==> r.Some?
  {
    if credentials.None? || Blank(credentials.value.email) || Blank(credentials.value.password) then None
    else
      var c := credentials.value;
      match FindUserByEmail(users, c.email.value)
      case None => None
      case Some(u) =>
        if !u.isActive then None
        else if !compare(c.password.value, u.passwordHash) then None
        else Some(SignedIn(u.id, u.name, u.email, u.role))
  }

  /** An inactive user never signs in, whatever the password. */
  lemma InactiveNeverSignsIn(credentials: Credentials, users: seq<User>, compare: (string, string) -> bool)
    requires credentials.email.Some?
    requires FindUserByEmail(users, credentials.email.value).Some?
    requires !FindUserByEmail(users, credentials.email.value).value.isActive
    ensures Authorize(Some(credentials), users, compare).None?
  {
  }

  /** The user NextAuth passes to the `jwt` callback at sign-in; its id is
      optional in NextAuth's typing. */
  datatype JwtUser = JwtUser(id: Option<string>, role: Role)

  /** The `jwt` callback: the signed-in user's role and id are copied into
      the token when a user is present (at sign-in); otherwise the token is
      kept. `userId` is the user's id, or "" when it has none. */
  function Jwt(token: Token, user: Option<JwtUser>): (t: Token)
    ensures user.None? ==> t == token
    ensures user.Some? ==> t.role == Some(user.value.role)
    ensures user.Some? && user.value.id.Some? ==> t.userId == user.value.id
    ensures user.Some? && user.value.id.None? ==> t.userId == Some("")
  {
    match user
    case None => token
    case Some(u) => Token(Some(if u.id.Some? then u.id.value else ""), Some(u.role))
  }

  /** The `session` callback: id and role come from the token. */
  function Session(session: Option<SessionUser>, token: Token): (s: Option<SessionUser>)
    ensures session.None? ==> s.None?
    ensures session.Some? ==> s == Some(session.value.(id := token.userId, role := token.role))
  {
    match session
    case None => None
    case Some(u) => Some(u.(id := token.userId, role := token.role))
  }

  /** After signing in, the session carries the signed-in user's id and
      stored role. */
  lemma SignInReachesSession(credentials: Option<Credentials>, users: seq<User>, compare: (string, string) -> bool,
                             token: Token, shell: SessionUser)
    requires Authorize(credentials, users, compare).Some?
    ensures
      var u := Authorize(credentials, users, compare).value;
      var s := Session(Some(shell), Jwt(token, Some(JwtUser(Some(u.id), u.role))));
      s.Some? && s.value.id == Some(u.id) && s.value.role == Some(u.role)
  {
  }
}
