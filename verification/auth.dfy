/** The server's authentication routes (`server/src/routes/auth.ts`):
    Google sign-in, e-mail signup and e-mail login. Token verification,
    password hashing and comparison, and token signing are parameters; the
    signup's random user id and clock are given. */
module AuthRoutes {
  import opened Common
  import Users
  import ServerBookings

  /** The user object the routes return: no password field exists to leak. */
  datatype PublicUser = PublicUser(id: string, email: string, name: string)

  datatype Reply = Failure(status: int, error: string) | Signed(token: string, user: PublicUser)

  function Claims(u: PublicUser): ServerBookings.AuthUser {
    ServerBookings.AuthUser(u.id, u.email, u.name)
  }

  function Public(u: Users.User): PublicUser {
    PublicUser(u.id, u.email, u.name)
  }

  /** What the Google verifier reports about a token. */
  datatype GoogleProfile = GoogleProfile(id: string, email: string, name: string, picture: string)

  datatype GoogleReply = GoogleFailure(status: int, error: string) | GoogleSigned(token: string, profile: GoogleProfile)

  /** `POST /auth/google`: a missing token is a bad request; a token the
      verifier rejects is unauthorised, with the verifier's message when it gives one. */
  function Google(idToken: Option<string>, verify: string -> Result<GoogleProfile, string>,
                  sign: ServerBookings.AuthUser -> string): (r: GoogleReply)
    ensures !Truthy(idToken) <==> r == GoogleFailure(400, "idToken is required")
    ensures Truthy(idToken) && verify(idToken.value).Err? ==> r.GoogleFailure? && r.status == 401
    ensures r.GoogleSigned? <==> Truthy(idToken) && verify(idToken.value).Ok?
    ensures r.GoogleSigned? ==>
      var p := verify(idToken.value).value;
      r.profile == p && r.token == sign(ServerBookings.AuthUser(p.id, p.email, p.name))
  {
    if !Truthy(idToken) then GoogleFailure(400, "idToken is required")
    else match verify(idToken.value)
      case Err(message) => GoogleFailure(401, if message != "" then message else "Authentication failed")
      case Ok(p) => GoogleSigned(sign(ServerBookings.AuthUser(p.id, p.email, p.name)), p)
  }

  const MinPasswordLength := 6
  const MissingSignupFields := "Email, password, and name are required"
  const PasswordTooShort := "Password must be at least 6 characters"
  const EmailTaken := "User with this email already exists"
  const MissingLoginFields := "Email and password are required"
  const BadCredentials := "Invalid email or password"

  datatype SignupBody = SignupBody(email: Option<string>, password: Option<string>, name: Option<string>)

  predicate SignupComplete(b: SignupBody) {
    Truthy(b.email) && Truthy(b.password) && Truthy(b.name)
  }

  /** `POST /auth/signup`: presence, then password length, then a free
      address; on success one user is stored, with the hashed password. */
  function Signup(registry: Users.Registry, body: SignupBody, hash: string -> string,
                  sign: ServerBookings.AuthUser -> string, newId: string, now: nat): (r: (Users.Registry, Reply))
    ensures !SignupComplete(body) ==> r == (registry, Failure(400, MissingSignupFields))
    ensures SignupComplete(body) && |body.password.value| < MinPasswordLength ==>
      r == (registry, Failure(400, PasswordTooShort))
    ensures (SignupComplete(body) && |body.password.value| >= MinPasswordLength
             && Users.FindByEmail(registry, body.email.value).Some?) ==> r == (registry, Failure(400, EmailTaken))
    ensures r.1.Signed? <==>
      SignupComplete(body) && |body.password.value| >= MinPasswordLength && Users.FindByEmail(registry, body.email.value).None?
    ensures r.1.Signed? ==>
      && r.0 == registry + [Users.User(newId, body.email.value, hash(body.password.value), body.name.value, now)]
      && r.1.user == PublicUser(newId, body.email.value, body.name.value)
      && r.1.token == sign(Claims(r.1.user))
  {
    if !SignupComplete(body) then (registry, Failure(400, MissingSignupFields))
    else if |body.password.value| < MinPasswordLength then (registry, Failure(400, PasswordTooShort))
    else if Users.FindByEmail(registry, body.email.value).Some? then (registry, Failure(400, EmailTaken))
    else
      var (after, u) := Users.Create(registry, Users.User(newId, body.email.value, hash(body.password.value), body.name.value, now));
      (after, Signed(sign(Claims(Public(u))), Public(u)))
  }

  /** The checks run in order: a missing field is reported even when the
      password is also short, and a short password even when the address is taken. */
  lemma SignupCheckOrder(registry: Users.Registry, body: SignupBody, hash: string -> string,
                         sign: ServerBookings.AuthUser -> string, newId: string, now: nat)
    requires Truthy(body.email) && Truthy(body.password) && |body.password.value| < MinPasswordLength
    requires Users.FindByEmail(registry, body.email.value).Some?
    ensures Signup(registry, body.(name := None), hash, sign, newId, now).1 == Failure(400, MissingSignupFields)
    ensures Truthy(body.name) ==> Signup(registry, body, hash, sign, newId, now).1 == Failure(400, PasswordTooShort)
  {
  }

  /** `POST /auth/login`: an unknown address and a wrong password get the
      very same reply, so a caller cannot tell which addresses are registered. */
  function Login(registry: Users.Registry, email: Option<string>, password: Option<string>,
                 compare: (string, string) -> bool, sign: ServerBookings.AuthUser -> string): (r: Reply)
    ensures !(Truthy(email) && Truthy(password)) ==> r == Failure(400, MissingLoginFields)
    ensures r.Signed? <==>
      && Truthy(email) && Truthy(password)
      && Users.FindByEmail(registry, email.value).Some?
      && compare(password.value, Users.FindByEmail(registry, email.value).value.password)
    ensures Truthy(email) && Truthy(password) && !r.Signed? ==> r == Failure(401, BadCredentials)
    ensures r.Signed? ==>
      r.user == Public(Users.FindByEmail(registry, email.value).value) && r.token == sign(Claims(r.user))
  {
    if !(Truthy(email) && Truthy(password)) then Failure(400, MissingLoginFields)
    else match Users.FindByEmail(registry, email.value)
      case None => Failure(401, BadCredentials)
      case Some(u) =>
        if !compare(password.value, u.password) then Failure(401, BadCredentials)
        else Signed(sign(Claims(Public(u))), Public(u))
  }

  /** Google sign-in and e-mail login sign the same claims for the same
      identity: when the verified Google profile carries the id, address and
      name of the user a login finds, both routes hand out the same token. */
  lemma GoogleSignsLikeLogin(registry: Users.Registry, idToken: string, verify: string -> Result<GoogleProfile, string>,
                             email: string, password: string, compare: (string, string) -> bool,
                             sign: ServerBookings.AuthUser -> string)
    requires idToken != "" && verify(idToken).Ok?
    requires Login(registry, Some(email), Some(password), compare, sign).Signed?
    requires var p := verify(idToken).value; var u := Login(registry, Some(email), Some(password), compare, sign).user;
      p.id == u.id && p.email == u.email && p.name == u.name
    ensures Google(Some(idToken), verify, sign).GoogleSigned?
    ensures Google(Some(idToken), verify, sign).token == Login(registry, Some(email), Some(password), compare, sign).token
  {
  }

  /** A fresh account can log in at once with its password, provided the
      comparison accepts a password against its own hash, and the login
      reports the same user the signup did. */
  lemma SignupThenLogin(registry: Users.Registry, body: SignupBody, hash: string -> string,
                        compare: (string, string) -> bool, sign: ServerBookings.AuthUser -> string, newId: string, now: nat)
    requires SignupComplete(body)
    requires Signup(registry, body, hash, sign, newId, now).1.Signed?
    requires compare(body.password.value, hash(body.password.value))
    ensures var (after, reply) := Signup(registry, body, hash, sign, newId, now);
      Login(after, body.email, body.password, compare, sign) == reply
  {
    var u := Users.User(newId, body.email.value, hash(body.password.value), body.name.value, now);
    Users.CreateThenFind(registry, u, body.email.value);
  }

  /** A second signup with a registered address is refused and stores nothing. */
  lemma NoDuplicateSignup(registry: Users.Registry, body: SignupBody, other: SignupBody, hash: string -> string,
                          sign: ServerBookings.AuthUser -> string, newId: string, laterId: string, now: nat, later: nat)
    requires Signup(registry, body, hash, sign, newId, now).1.Signed?
    requires SignupComplete(other) && other.email == body.email && |other.password.value| >= MinPasswordLength
    ensures var (after, _) := Signup(registry, body, hash, sign, newId, now);
      Signup(after, other, hash, sign, laterId, later) == (after, Failure(400, EmailTaken))
  {
    var u := Users.User(newId, body.email.value, hash(body.password.value), body.name.value, now);
    Users.CreateThenFind(registry, u, body.email.value);
  }
}
