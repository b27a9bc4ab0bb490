/** The authentication routes: signup against the users collection, and
    login, logout and /me over the token and session layer. That layer is
    not part of this model and enters only as function parameters:
    - `authenticate` is the credential check (lookup by username plus
      password-hash comparison), yielding the stored user or nothing;
    - `createAccessToken` signs a set of claims into a token string;
    - `verify` checks a token's signature and expiry, yielding its claims or
      nothing. */
module AuthRoutes {
  import opened Common
  import opened UserModel

  /** The name of the cookie that carries the session token. */
  const ACCESS_TOKEN_COOKIE := "access_token"

  /** The login form: username and password. */
  datatype LoginForm = LoginForm(username: string, password: string)

  /** What a session token asserts: the subject's username and role. */
  datatype TokenClaims = TokenClaims(sub: string, role: Role)

  /** The JSON body of a successful login. */
  datatype Token = Token(accessToken: string, tokenType: string)

  /** The cookie change a response carries. */
  datatype CookieChange = SetCookie(key: string, value: string) | DeleteCookie(key: string)

  datatype LoginResponse = LoginResponse(body: Token, cookie: CookieChange)

  datatype LogoutResponse = LogoutResponse(message: string, cookie: CookieChange)

  /** The claims a token is minted with for a user. */
  function ClaimsOf(user: UserInDB): (c: TokenClaims)
    ensures c.sub == user.username && c.role == user.role
  {
    TokenClaims(user.username, user.role)
  }

  /** POST /login: when the credentials do not authenticate, Unauthorized;
      otherwise a bearer token minted from the user's username and role, also
      set as the session cookie. */
  function Login(
    form: LoginForm,
    authenticate: (string, string) -> Option<UserInDB>,
    createAccessToken: TokenClaims -> string
  ): (r: Result<LoginResponse>)
    ensures r.Failure? <==> authenticate(form.username, form.password).None?
    ensures r.Failure? ==> r.error == Unauthorized
    ensures r.Success? ==>
              var user := authenticate(form.username, form.password).value;
              && r.value.body.accessToken == createAccessToken(TokenClaims(user.username, user.role))
              && r.value.body.tokenType == "bearer"
              && r.value.cookie == SetCookie(ACCESS_TOKEN_COOKIE, r.value.body.accessToken)
  {
    match authenticate(form.username, form.password)
    case None => Failure(Unauthorized)
    case Some(user) =>
      var token := createAccessToken(ClaimsOf(user));
      Success(LoginResponse(Token(token, "bearer"), SetCookie(ACCESS_TOKEN_COOKIE, token)))
  }

  /** A failed login says nothing about why it failed: an unknown username
      and a wrong password give the same response. */
  lemma LoginFailureUniform(
    f1: LoginForm,
    f2: LoginForm,
    authenticate: (string, string) -> Option<UserInDB>,
    createAccessToken: TokenClaims -> string
  )
    requires authenticate(f1.username, f1.password).None?
    requires authenticate(f2.username, f2.password).None?
    ensures Login(f1, authenticate, createAccessToken) == Login(f2, authenticate, createAccessToken)
  {
  }

  /** POST /logout: needs a resolved session, then clears the cookie. */
  function Logout(session: Option<User>): (r: Result<LogoutResponse>)
    ensures r.Failure? <==> session.None?
    ensures r.Failure? ==> r.error == Unauthorized
    ensures r.Success? ==> r.value.cookie == DeleteCookie(ACCESS_TOKEN_COOKIE)
  {
    match session
    case None => Failure(Unauthorized)
    case Some(_) => Success(LogoutResponse("Successfully logged out", DeleteCookie(ACCESS_TOKEN_COOKIE)))
  }

  /** GET /me: needs a resolved session, then returns exactly that user. */
  function Me(session: Option<User>): (r: Result<User>)
    ensures r.Failure? <==> session.None?
    ensures r.Failure? ==> r.error == Unauthorized
    ensures r.Success? ==> r.value == session.value
  {
    match session
    case None => Failure(Unauthorized)
    case Some(user) => Success(user)
  }

  /** Session resolution for protected routes: the session cookie must be
      present, its token must verify, and the username it names must still
      be registered; the session user is then read afresh from the users
      collection, not taken from the token. */
  function Resolve(
    cookie: Option<string>,
    verify: string -> Option<TokenClaims>,
    users: map<string, UserInDB>
  ): (session: Option<User>)
    ensures session.Some? <==>
              cookie.Some? && verify(cookie.value).Some? && verify(cookie.value).value.sub in users
    ensures session.Some? ==> session.value == PublicView(users[verify(cookie.value).value.sub])
  {
    match cookie
    case None => None
    case Some(token) =>
      match verify(token)
      case None => None
      case Some(claims) =>
        if claims.sub in users then Some(PublicView(users[claims.sub])) else None
  }

  /** Log in, then present the cookie to /me: when verifying a minted token
      gives back its claims, and the authenticated user is the one stored
      under its username, /me answers with exactly the user who logged in,
      and logout with that cookie succeeds. */
  lemma LoginThenMe(
    form: LoginForm,
    authenticate: (string, string) -> Option<UserInDB>,
    createAccessToken: TokenClaims -> string,
    verify: string -> Option<TokenClaims>,
    users: map<string, UserInDB>
  )
    requires forall c :: verify(createAccessToken(c)) == Some(c)
    requires authenticate(form.username, form.password).Some?
    requires var user := authenticate(form.username, form.password).value;
             user.username in users && users[user.username] == user
    ensures Login(form, authenticate, createAccessToken).Success?
    ensures var cookie := Login(form, authenticate, createAccessToken).value.cookie;
            && cookie.SetCookie?
            && Me(Resolve(Some(cookie.value), verify, users))
               == Success(PublicView(authenticate(form.username, form.password).value))
            && Logout(Resolve(Some(cookie.value), verify, users)).Success?
  {
  }

  /** The users collection, keyed by username (the unique index). */
  class UserTable {
    var users: map<string, UserInDB>

    /** Every user is filed under its own username, and no two users share
        an id. */
    ghost predicate Valid()
      reads this
    {
      && (forall name :: name in users ==> users[name].username == name)
      && (forall a, b :: a in users && b in users && users[a].id == users[b].id ==> a == b)
    }

    constructor ()
      ensures Valid() && users == map[]
    {
      users := map[];
    }

    /** The ids of all stored users. */
    function Ids(): (ids: set<Id>)
      reads this
      ensures forall name :: name in users ==> users[name].id in ids
      ensures forall id :: id in ids ==> exists name :: name in users && users[name].id == id
    {
      set name | name in users :: users[name].id
    }

    /** POST /signup: a username already registered is refused with
        BadRequest and nothing is stored; otherwise exactly one user is added
        under that username, with a fresh id and the hash of the password
        (never the password itself), and the response is that user's public
        view: the new id with the submitted username, name and role. */
    method Signup(body: UserCreate, hash: string -> string) returns (r: Result<User>)
      requires Valid()
      modifies this
      ensures Valid()
      ensures r.Failure? <==> body.username in old(users)
      ensures r.Failure? <==> exists name :: name in old(users) && old(users)[name].username == body.username
      ensures r.Failure? ==> r.error == BadRequest && users == old(users)
      ensures r.Success? ==> r.value.id !in old(Ids())
      ensures r.Success? ==>
                users == old(users)[body.username :=
                  UserInDB(r.value.id, body.username, body.name, body.role, hash(body.password))]
      ensures r.Success? ==> r.value == PublicView(users[body.username])
      ensures r.Success? ==>
                r.value.username == body.username && r.value.name == body.name && r.value.role == body.role
    {
      if body.username in users {
        return Failure(BadRequest);
      }
      FreshIdExists(Ids());
      var id: Id :| id !in Ids();
      var stored := UserInDB(id, body.username, body.name, body.role, hash(body.password));
      users := users[body.username := stored];
      r := Success(PublicView(stored));
    }
  }
}
