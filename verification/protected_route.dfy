/** The route guard placed in front of every role-restricted page: while the
    session is still resolving it shows a spinner, otherwise it either renders
    the nested route or sends the visitor to the sign-in page. */
module ProtectedRoute {
  import opened Common
  import opened Records

  datatype GuardView =
    | Spinner
    | Redirect(to: string, replace: bool)
    | Outlet

  /** The guard's decision from the session's `loading` flag, the signed-in
      profile and the roles the route admits. */
  function Decide(loading: bool, appUser: Option<AppUser>, allowedRoles: seq<Role>): (v: GuardView)
    ensures loading ==> v == Spinner
    ensures v.Outlet? <==> !loading && appUser.Some? && appUser.value.role in allowedRoles
    ensures !loading && (appUser.None? || appUser.value.role !in allowedRoles) ==>
              v == Redirect(LoginRoute, true)
  {
    if loading then Spinner
    else if appUser.None? || appUser.value.role !in allowedRoles then Redirect(LoginRoute, true)
    else Outlet
  }

  /** "Not signed in" and "signed in with the wrong role" are
      indistinguishable: both give the very same redirect. */
  lemma SignedOutAndWrongRoleLookAlike(profile: AppUser, allowedRoles: seq<Role>)
    requires profile.role !in allowedRoles
    ensures Decide(false, None, allowedRoles) == Decide(false, Some(profile), allowedRoles)
  {
  }

  /** Admitting more roles never turns a rendered route into a redirect or a
      spinner. */
  lemma MoreRolesNeverRevoke(loading: bool, appUser: Option<AppUser>, allowed: seq<Role>, wider: seq<Role>)
    requires forall r :: r in allowed ==> r in wider
    requires Decide(loading, appUser, allowed) == Outlet
    ensures Decide(loading, appUser, wider) == Outlet
  {
  }
}
