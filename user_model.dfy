/** The user shapes of the backend: the request body for signup, the record
    kept in the users collection, and the public view returned to clients. */
module UserModel {
  import opened Common

  /** The closed set of roles; `role` is a `Literal["designer", "customer"]`. */
  datatype Role = Designer | Customer

  /** The wire spelling of a role. */
  function RoleName(r: Role): string
  {
    match r
    case Designer => "designer"
    case Customer => "customer"
  }

  /** Validation of the `role` field of a request body: absent means the
      default `customer`, the two known spellings are accepted, anything else
      is rejected as an unprocessable body. */
  function ParseRole(raw: Option<string>): (r: Result<Role>)
    ensures raw.None? ==> r == Success(Customer)
    ensures raw.Some? ==> (r.Success? <==> raw.value == "designer" || raw.value == "customer")
    ensures raw.Some? && r.Success? ==> RoleName(r.value) == raw.value
    ensures r.Failure? ==> r.error == UnprocessableEntity
  {
    match raw
    case None => Success(Customer)
    case Some(s) =>
      if s == "designer" then Success(Designer)
      else if s == "customer" then Success(Customer)
      else Failure(UnprocessableEntity)
  }

  /** Parsing the spelling of a role gives that role back. */
  lemma ParseRoleName(r: Role)
    ensures ParseRole(Some(RoleName(r))) == Success(r)
  {
  }

  /** The signup body after validation; it carries the plaintext password. */
  datatype UserCreate = UserCreate(username: string, name: string, role: Role, password: string)

  /** A user document as stored: the password is present only as its hash. */
  datatype UserInDB = UserInDB(id: Id, username: string, name: string, role: Role, passwordHash: string)

  /** The user as returned to clients and as resolved from a session. */
  datatype User = User(id: Id, username: string, name: string, role: Role)

  /** The client-facing view of a stored user: every public field, no hash. */
  function PublicView(u: UserInDB): (v: User)
    ensures v.id == u.id && v.username == u.username
    ensures v.name == u.name && v.role == u.role
  {
    User(u.id, u.username, u.name, u.role)
  }
}
