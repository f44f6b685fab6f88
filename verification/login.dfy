/** The sign-in page: a failed sign-in shows a message chosen by the
    authentication error code; a successful one waits for the session's
    profile and then sends the account to the page for its role. */
module Login {
  import opened Common
  import opened Records

  const InvalidCredentialCode := "auth/invalid-credential"
  const InvalidCredentialMessage := "Email atau kata sandi tidak sesuai."
  const GenericMessage := "Gagal masuk. Silakan coba lagi."

  /** The message for a sign-in error code: one known code has its own
      message, every other code the generic one. */
  function ErrorMessage(code: string): (m: string)
    ensures m == InvalidCredentialMessage <==> code == InvalidCredentialCode
    ensures m == GenericMessage <==> code != InvalidCredentialCode
  {
    if code == InvalidCredentialCode then InvalidCredentialMessage else GenericMessage
  }

  datatype LoginState = LoginState(error: string, loading: bool)

  /** `handleSubmit`, given the sign-in result: `None` on success, the error
      code otherwise. The handler first clears the error and sets the busy
      flag, so the result does not depend on the earlier state. The busy flag
      is cleared only on failure; on success the page keeps it until the
      navigation below takes it away. */
  function Submit(failure: Option<string>): (r: LoginState)
    ensures failure.None? ==> r.loading && r.error == ""
    ensures failure.Some? ==> !r.loading && r.error == ErrorMessage(failure.value)
  {
    match failure
    case None => LoginState("", true)
    case Some(code) => LoginState(ErrorMessage(code), false)
  }

  /** The navigation the page's effect performs for the session's profile. */
  function Redirect(appUser: Option<AppUser>): (to: Option<string>)
    ensures to.None? <==> appUser.None?
    ensures appUser.Some? && appUser.value.role == Panitia ==> to == Some(DashboardRoute)
    ensures appUser.Some? && appUser.value.role != Panitia ==> to == Some(MyTicketsRoute)
  {
    match appUser
    case None => None
    case Some(u) => Some(LandingRoute(u.role))
  }
}
