/** The e-mail sign-in and sign-up forms (`src/components/EmailAuth.tsx`):
    the client's own password checks, which run before any request, and the
    session the browser keeps after a successful reply. The request itself
    is a parameter standing for the server's answer. */
module EmailAuth {
  import opened Common
  import AuthRoutes
  import Users
  import ServerBookings

  /** The two stored session entries (the token and the user). */
  datatype Session = Session(token: Option<string>, user: Option<AuthRoutes.PublicUser>)

  datatype SignupForm = SignupForm(name: string, email: string, password: string, confirmPassword: string)

  /** What the sign-up form does on submit. */
  datatype SignupStep = PasswordsDiffer | PasswordTooShort | SendSignup(email: string, password: string, name: string)

  /** The client's checks: the confirmation first, then the length. */
  function CheckSignup(form: SignupForm): (r: SignupStep)
    ensures r == PasswordsDiffer <==> form.password != form.confirmPassword
    ensures r == PasswordTooShort <==> form.password == form.confirmPassword && |form.password| < 6
    ensures r.SendSignup? <==> form.password == form.confirmPassword && |form.password| >= 6
    ensures r.SendSignup? ==> r == SendSignup(form.email, form.password, form.name)
  {
    if form.password != form.confirmPassword then PasswordsDiffer
    else if |form.password| < 6 then PasswordTooShort
    else SendSignup(form.email, form.password, form.name)
  }

  /** A mismatched confirmation is reported even when the password is also too short. */
  lemma MismatchReportedFirst(form: SignupForm)
    requires form.password != form.confirmPassword && |form.password| < 6
    ensures CheckSignup(form) == PasswordsDiffer
  {
  }

  /** A reply as the client sees it: the server's reply, or the error it was turned into. */
  function AfterReply(session: Session, reply: AuthRoutes.Reply): (r: Session)
    ensures reply.Signed? ==> r == Session(Some(reply.token), Some(reply.user))
    ensures reply.Failure? ==> r == session
  {
    match reply
    case Signed(token, user) => Session(Some(token), Some(user))
    case Failure(_, _) => session
  }

  /** `handleSignup`: the request is sent only when both client checks pass;
      `send` stands for the server's answer to it. */
  function HandleSignup(session: Session, form: SignupForm, send: (string, string, string) -> AuthRoutes.Reply)
    : (r: (Session, bool))
    ensures r.1 <==> CheckSignup(form).SendSignup?
    ensures !r.1 ==> r.0 == session
    ensures r.1 ==> r.0 == AfterReply(session, send(form.email, form.password, form.name))
    ensures r.1 && send(form.email, form.password, form.name).Signed? ==>
      && r.0.token == Some(send(form.email, form.password, form.name).token)
      && r.0.user == Some(send(form.email, form.password, form.name).user)
    ensures r.1 && send(form.email, form.password, form.name).Failure? ==> r.0 == session
  {
    match CheckSignup(form)
    case SendSignup(email, password, name) => (AfterReply(session, send(email, password, name)), true)
    case _ => (session, false)
  }

  /** `handleLogin`: no client check; a successful reply stores both entries. */
  function HandleLogin(session: Session, reply: AuthRoutes.Reply): (r: Session)
    ensures reply.Signed? ==> r.token == Some(reply.token) && r.user == Some(reply.user)
    ensures reply.Failure? ==> r == session
  {
    AfterReply(session, reply)
  }

  /** Whatever the form passes, the server's length rule passes too, so a
      complete form for a new address always creates the account and signs the user in. */
  lemma ClientChecksImplyServerAccepts(session: Session, form: SignupForm, registry: Users.Registry,
                                       hash: string -> string, sign: ServerBookings.AuthUser -> string,
                                       newId: string, now: nat)
    requires CheckSignup(form).SendSignup?
    requires form.email != "" && form.name != ""
    requires Users.FindByEmail(registry, form.email).None?
    ensures var body := AuthRoutes.SignupBody(Some(form.email), Some(form.password), Some(form.name));
      var (_, reply) := AuthRoutes.Signup(registry, body, hash, sign, newId, now);
      && reply == AuthRoutes.Signed(sign(ServerBookings.AuthUser(newId, form.email, form.name)),
                                    AuthRoutes.PublicUser(newId, form.email, form.name))
      && HandleSignup(session, form, (e, p, n) => reply).0 == Session(Some(reply.token), Some(reply.user))
  {
  }

  /** After signing up a new address, a later login with the same
      credentials, from whatever session the browser then holds, stores
      exactly the session the signup stored. */
  lemma {:induction false} LoginAfterSignupRestoresSession(session: Session, later: Session, form: SignupForm,
                                                           registry: Users.Registry, hash: string -> string,
                                                           compare: (string, string) -> bool,
                                                           sign: ServerBookings.AuthUser -> string, newId: string, now: nat)
    requires CheckSignup(form).SendSignup?
    requires form.email != "" && form.name != ""
    requires Users.FindByEmail(registry, form.email).None?
    requires compare(form.password, hash(form.password))
    ensures var body := AuthRoutes.SignupBody(Some(form.email), Some(form.password), Some(form.name));
      var (after, reply) := AuthRoutes.Signup(registry, body, hash, sign, newId, now);
      HandleLogin(later, AuthRoutes.Login(after, Some(form.email), Some(form.password), compare, sign))
        == HandleSignup(session, form, (e, p, n) => reply).0
  {
    var body := AuthRoutes.SignupBody(Some(form.email), Some(form.password), Some(form.name));
    ClientChecksImplyServerAccepts(session, form, registry, hash, sign, newId, now);
    AuthRoutes.SignupThenLogin(registry, body, hash, compare, sign, newId, now);
  }
}
