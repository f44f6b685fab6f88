/** The application-wide session state: the identity the authentication
    service reports, the profile document fetched for it, and a `loading` flag
    that is true until the first auth-state callback has finished. */
module AuthContext {
  import opened Common
  import opened Records
  import opened Store

  datatype AuthState = AuthState(currentUser: Option<AuthUser>, appUser: Option<AppUser>, loading: bool)

  /** The provider's state before any callback has run. */
  function Initial(): AuthState
  {
    AuthState(None, None, true)
  }

  /** One auth-state callback. `user` is the identity it receives, `users`
      the profile collection when the profile is read, and `readOk` whether
      that read succeeded. A failed read rejects the callback after
      `currentUser` was set, so the profile and the flag stay as they were. */
  function OnAuthStateChanged(st: AuthState, user: Option<AuthUser>, users: map<Id, AppUser>, readOk: bool): (r: AuthState)
    ensures r.currentUser == user
    ensures user.None? ==> r.appUser.None? && !r.loading
    ensures user.Some? && readOk ==>
              !r.loading && r.appUser == Get(users, user.value.uid)
    ensures user.Some? && !readOk ==> r.appUser == st.appUser && r.loading == st.loading
  {
    match user
    case None => AuthState(None, None, false)
    case Some(u) =>
      if !readOk then st.(currentUser := user)
      else if u.uid in users then AuthState(user, Some(users[u.uid]), false)
      else AuthState(user, None, false)
  }

  /** Whether the provider renders the application or its full-screen spinner. */
  predicate RendersChildren(st: AuthState)
  {
    !st.loading
  }

  /** One callback as the provider receives it. */
  datatype Callback = Callback(user: Option<AuthUser>, users: map<Id, AppUser>, readOk: bool)

  /** A callback runs to its end unless it is cut short by a failed profile read. */
  predicate Completes(c: Callback)
  {
    c.user.None? || c.readOk
  }

  /** The provider's state after a sequence of callbacks, oldest first. */
  function Replay(cs: seq<Callback>): AuthState
  {
    if cs == [] then Initial()
    else
      var last := cs[|cs| - 1];
      OnAuthStateChanged(Replay(cs[..|cs| - 1]), last.user, last.users, last.readOk)
  }

  /** `loading` is cleared only at the end of a callback, and once cleared it
      stays cleared: it is false exactly when some callback has run to its end. */
  lemma {:induction false} LoadingClearsOnlyByCallback(cs: seq<Callback>)
    ensures !Replay(cs).loading <==> exists i :: 0 <= i < |cs| && Completes(cs[i])
  {
    if cs != [] {
      var init := cs[..|cs| - 1];
      LoadingClearsOnlyByCallback(init);
      if exists i :: 0 <= i < |init| && Completes(init[i]) {
        var i :| 0 <= i < |init| && Completes(init[i]);
        assert cs[i] == init[i];
      }
      if exists i :: 0 <= i < |cs| && Completes(cs[i]) {
        var i :| 0 <= i < |cs| && Completes(cs[i]);
        if i < |init| {
          assert init[i] == cs[i];
        }
      }
    }
  }

  /** The application behind the provider is not shown until an auth-state
      callback has run to its end; in particular not before the first one. */
  lemma ChildrenWaitForCallback(cs: seq<Callback>)
    ensures RendersChildren(Replay(cs)) <==> exists i :: 0 <= i < |cs| && Completes(cs[i])
    ensures !RendersChildren(Replay([]))
  {
    LoadingClearsOnlyByCallback(cs);
  }

  /** After any non-empty sequence of callbacks, `currentUser` is the user the
      last one received. */
  lemma CurrentUserIsLatest(cs: seq<Callback>)
    requires cs != []
    ensures Replay(cs).currentUser == cs[|cs| - 1].user
  {
  }

  /** `useAuth`: the context value, or the error thrown outside a provider. */
  datatype UseAuthResult = Context(value: AuthState) | Thrown(message: string)

  function UseAuth(context: Option<AuthState>): (r: UseAuthResult)
    ensures r.Thrown? <==> context.None?
    ensures r.Thrown? ==> r.message == "useAuth must be used within an AuthProvider"
    ensures context.Some? ==> r == Context(context.value)
  {
    match context
    case None => Thrown("useAuth must be used within an AuthProvider")
    case Some(v) => Context(v)
  }
}
