/** Users, roles and bearer tokens (backend/app/auth.py). Signing and
    decoding with the secret are not modelled: a token is either one this
    service issued, carrying its claims, or something else. The clock is
    the parameter `now`, in whole seconds. */
module Auth {
  import opened Wrappers

  const SecondsPerDay: int := 86400

  datatype UserRole = Admin | Viewer {
    function Value(): string {
      match this
      case Admin => "admin"
      case Viewer => "viewer"
    }
  }

  /** `UserRole(s)`: None stands for the ValueError an unknown value raises. */
  function ParseRole(s: string): (r: Option<UserRole>)
    ensures r.Some? <==> s == "admin" || s == "viewer"
  {
    if s == "admin" then Some(Admin)
    else if s == "viewer" then Some(Viewer)
    else None
  }

  /** A role survives being written as its value and read back, and a
      parsed value is the value of the role it gives. */
  lemma RoleRoundTrip(role: UserRole, s: string)
    ensures ParseRole(role.Value()) == Some(role)
    ensures ParseRole(s).Some? ==> ParseRole(s).value.Value() == s
    ensures Admin.Value() != Viewer.Value()
  {
  }

  datatype User = User(username: string, role: UserRole, email: Option<string>)

  datatype StoredUser = StoredUser(password: string, role: UserRole, email: string)

  /** The fixed user table. */
  const MockUsers: map<string, StoredUser> := map[
    "admin" := StoredUser("admin123", Admin, "admin@company.com"),
    "viewer" := StoredUser("viewer123", Viewer, "viewer@company.com"),
    "security_analyst" := StoredUser("analyst123", Viewer, "analyst@company.com")
  ]

  /** authenticate_user */
  function AuthenticateUser(username: string, password: string): (r: Option<User>)
    ensures r.Some? <==> username in MockUsers && MockUsers[username].password == password
    ensures r.Some? ==>
      (r.value.username == username
       && r.value.role == MockUsers[username].role
       && r.value.email == Some(MockUsers[username].email))
  {
    if username in MockUsers && MockUsers[username].password == password then
      var stored := MockUsers[username];
      Some(User(username, stored.role, Some(stored.email)))
    else None
  }

  /** Exactly three username/password pairs log in; only "admin" is an
      administrator. */
  lemma OnlyMockUsersLogIn(username: string, password: string)
    ensures AuthenticateUser(username, password).Some? <==>
      (username, password) in {("admin", "admin123"), ("viewer", "viewer123"), ("security_analyst", "analyst123")}
    ensures AuthenticateUser(username, password).Some? ==>
      (AuthenticateUser(username, password).value.role == Admin <==> username == "admin")
  {
  }

  /** The payload of a token; a key that is absent is None. */
  datatype Claims = Claims(sub: Option<string>, role: Option<string>, exp: Option<int>)

  /** A presented bearer token: one issued with the service's secret, or
      anything that fails signature or format checks. */
  datatype Token = Issued(claims: Claims) | Forged

  /** create_access_token: the payload names the user and the role value
      and expires 24 hours after `now`. */
  function CreateAccessToken(username: string, role: UserRole, now: int): (t: Token)
    ensures t.Issued?
    ensures t.claims.sub == Some(username) && t.claims.role == Some(role.Value())
    ensures t.claims.exp == Some(now + SecondsPerDay)
  {
    Issued(Claims(Some(username), Some(role.Value()), Some(now + SecondsPerDay)))
  }

  /** The outcome of an access check: a user, an HTTP error, or an
      exception that escapes the handler (a 500). */
  datatype Access = Granted(user: User) | Denied(status: int, detail: string) | Crash(error: string)

  /** Outcome of decoding: the decoder rejects an expiry that is not in the
      future and any token it did not issue. */
  datatype Decoded = Expired | Invalid | Valid(claims: Claims)

  function Decode(t: Token, now: int): (d: Decoded)
    ensures d.Expired? <==> t.Issued? && t.claims.exp.Some? && t.claims.exp.value <= now
    ensures d.Invalid? <==> t.Forged?
    ensures d.Valid? ==> d.claims == t.claims
  {
    match t
    case Forged => Invalid
    case Issued(c) => if c.exp.Some? && c.exp.value <= now then Expired else Valid(c)
  }

  /** verify_token */
  function VerifyToken(t: Token, now: int): (a: Access)
    ensures a.Denied? ==> a.status == 401
    ensures a == Denied(401, "Token expired") <==> Decode(t, now).Expired?
    ensures a == Denied(401, "Invalid token") <==>
      Decode(t, now).Invalid? || (Decode(t, now).Valid? && (t.claims.sub.None? || t.claims.role.None?))
    ensures a.Crash? <==> Decode(t, now).Valid? && t.claims.sub.Some? && t.claims.role.Some?
                          && ParseRole(t.claims.role.value).None?
    ensures a.Granted? ==> a.user == User(t.claims.sub.value, ParseRole(t.claims.role.value).value, None)
  {
    match Decode(t, now)
    case Expired => Denied(401, "Token expired")
    case Invalid => Denied(401, "Invalid token")
    case Valid(c) =>
      if c.sub.None? || c.role.None? then Denied(401, "Invalid token")
      else match ParseRole(c.role.value)
        case None => Crash("ValueError")
        case Some(role) => Granted(User(c.sub.value, role, None))
  }

  /** A token issued at `issued` identifies its user, without the email,
      for 24 hours and is rejected as expired from then on. */
  lemma TokenRoundTrip(username: string, role: UserRole, issued: int, now: int)
    ensures now < issued + SecondsPerDay ==>
      VerifyToken(CreateAccessToken(username, role, issued), now) == Granted(User(username, role, None))
    ensures now >= issued + SecondsPerDay ==>
      VerifyToken(CreateAccessToken(username, role, issued), now) == Denied(401, "Token expired")
  {
    RoleRoundTrip(role, role.Value());
  }

  const AdminRequired := "Admin privileges required for this operation"

  /** require_admin */
  function RequireAdmin(u: User): (a: Access)
    ensures a.Granted? <==> u.role == Admin
    ensures a.Granted? ==> a.user == u
    ensures !a.Granted? ==> a == Denied(403, AdminRequired)
  {
    if u.role != Admin then Denied(403, AdminRequired) else Granted(u)
  }

  /** require_authenticated: any verified user passes unchanged. */
  function RequireAuthenticated(u: User): (a: Access)
    ensures a.Granted? && a.user == u
  {
    Granted(u)
  }

  /** Logging in, taking the issued token and presenting it within a day
      passes the admin gate exactly for the administrator. */
  lemma LoginToAdminGate(username: string, password: string, issued: int, now: int)
    requires AuthenticateUser(username, password).Some?
    requires now < issued + SecondsPerDay
    ensures var u := AuthenticateUser(username, password).value;
      var a := VerifyToken(CreateAccessToken(u.username, u.role, issued), now);
      && a.Granted?
      && (RequireAdmin(a.user).Granted? <==> username == "admin")
  {
    var u := AuthenticateUser(username, password).value;
    TokenRoundTrip(u.username, u.role, issued, now);
    OnlyMockUsersLogIn(username, password);
  }
}
