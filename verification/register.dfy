/** The sign-up page: create the account, store its profile under its uid,
    and go to the page for the chosen role. */
module Register {
  import opened Common
  import opened Records
  import opened Store

  datatype RegisterForm = RegisterForm(namaLengkap: string, email: string, role: Role)

  /** The form as the page opens it: empty, signing up a participant. */
  function InitialForm(): RegisterForm
  {
    RegisterForm("", "", Peserta)
  }

  const EmailInUseCode := "auth/email-already-in-use"
  const EmailInUseMessage := "This email is already registered."
  const GenericMessage := "Failed to register. Please try again."

  function ErrorMessage(code: string): (m: string)
    ensures m == EmailInUseMessage <==> code == EmailInUseCode
    ensures m == GenericMessage <==> code != EmailInUseCode
  {
    if code == EmailInUseCode then EmailInUseMessage else GenericMessage
  }

  /** The outcome of account creation: an error code, or the credential, whose
      user may be null. */
  datatype SignUp = SignUpFailed(code: string) | SignedUp(user: Option<AuthUser>)

  /** The profile written to `users/{uid}`: the account's uid and email, the
      name typed in the form, and the chosen role. */
  function Profile(user: AuthUser, form: RegisterForm): AppUser
  {
    AppUser(user.uid, user.email, form.namaLengkap, form.role)
  }

  datatype RegisterStep = RegisterStep(store: Store, error: string, navigateTo: Option<string>)

  /** `handleSubmit`. `writeFailure` is the error code of a failed profile
      write, `None` when it succeeds. */
  function Submit(s: Store, form: RegisterForm, signUp: SignUp, writeFailure: Option<string>): (r: RegisterStep)
    ensures r.store.events == s.events && r.store.tickets == s.tickets
    ensures signUp.SignUpFailed? ==> r == RegisterStep(s, ErrorMessage(signUp.code), None)
    ensures signUp == SignedUp(None) ==> r == RegisterStep(s, "", Some(LandingRoute(form.role)))
    ensures signUp.SignedUp? && signUp.user.Some? && writeFailure.Some? ==>
              r == RegisterStep(s, ErrorMessage(writeFailure.value), None)
    ensures signUp.SignedUp? && signUp.user.Some? && writeFailure.None? ==>
              var u := signUp.user.value;
              && r.store.users == s.users[u.uid := Profile(u, form)]
              && r.navigateTo == Some(LandingRoute(form.role))
              && r.error == ""
  {
    match signUp
    case SignUpFailed(code) => RegisterStep(s, ErrorMessage(code), None)
    case SignedUp(None) => RegisterStep(s, "", Some(LandingRoute(form.role)))
    case SignedUp(Some(u)) =>
      match writeFailure
      case Some(code) => RegisterStep(s, ErrorMessage(code), None)
      case None => RegisterStep(s.(users := s.users[u.uid := Profile(u, form)]), "", Some(LandingRoute(form.role)))
  }

  /** A successful sign-up stores a profile with exactly the account's uid and
      email, the typed name and the chosen role, touches no other profile, and
      lands on the dashboard for organizers and on the ticket list otherwise. */
  lemma SignUpWritesProfile(s: Store, form: RegisterForm, user: AuthUser)
    ensures var r := Submit(s, form, SignedUp(Some(user)), None);
      && r.store.users[user.uid] == AppUser(user.uid, user.email, form.namaLengkap, form.role)
      && (forall k :: k in s.users && k != user.uid ==> r.store.users[k] == s.users[k])
      && r.navigateTo == Some(if form.role == Panitia then DashboardRoute else MyTicketsRoute)
  {
  }

  /** Left at its default role, the form signs up a participant, who lands on
      the ticket list. */
  lemma DefaultSignUpIsParticipant(s: Store, name: string, email: string, user: AuthUser)
    ensures var form := InitialForm().(namaLengkap := name, email := email);
      var r := Submit(s, form, SignedUp(Some(user)), None);
      r.store.users[user.uid].role == Peserta && r.navigateTo == Some(MyTicketsRoute)
  {
  }
}
