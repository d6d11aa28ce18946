/** The sign-in page (pages/Login.tsx): the contributor/admin mode switch
    and the role check of `handleLogin`.

    The sign-in call (context/AuthContext.jsx, which turns every failure
    into `{ success: false, error }`), the read of the profile's
    `role_text` and the sign-out are replies given as parameters; a reply
    that throws is its own case. Before `handleLogin` runs at all, the
    browser checks the form's `required` fields. */
module LoginPage {
  import opened Common
  import opened Types

  /** What `login(email, password)` resolves to; `user` is the user's id. */
  datatype SignInResult = SignInResult(success: bool, user: Option<string>, error: Option<string>)

  /** The profile read with `.single()`: `role_text` (`None` for a `null`
      column) and whether an error came back, which is also how a missing
      profile row is answered (PostgREST's "not exactly one row"); or a
      throw, with the thrown error's message. */
  datatype ProfileReply = ProfileReply(roleText: Option<string>, failed: bool) | ProfileThrew(message: Option<string>)

  /** `profile?.role_text || "contributor"` */
  function StoredRole(roleText: Option<string>): (role: string)
    ensures role != ""
    ensures Present(roleText) ==> role == roleText.value
    ensures !Present(roleText) ==> role == Contributor.Value()
  {
    if Present(roleText) then roleText.value else "contributor"
  }

  /** What `supabase.auth.signOut()` does: it resolves, or it throws, with
      the thrown error's message. */
  datatype SignOutReply = SignedOut | SignOutThrew(message: Option<string>)

  /** The browser's constraint validation of the sign-in form: the e-mail
      and password inputs are `required`, so a form with either empty is
      not submitted. */
  predicate FormAccepted(email: string, password: string)
  {
    email != "" && password != ""
  }

  /** The catch block's `err.message || "An unexpected error occurred"`. */
  function ThrownMessage(message: Option<string>): string
  {
    if Present(message) then message.value else "An unexpected error occurred"
  }

  /** What one sign-in attempt leads to: the error shown, the role passed
      to `onLogin`, and whether the session was signed out again (the
      sign-out was requested, whether or not it threw). */
  datatype Attempt = Attempt(error: Option<string>, onLogin: Option<UserRole>, signedOut: bool)

  function HandleLoginSpec(mode: UserRole, result: SignInResult, profile: ProfileReply, signOut: SignOutReply): Attempt
  {
    if !result.success then Attempt(Some(if Present(result.error) then result.error.value else "Login failed"), None, false)
    else if result.user.None? then Attempt(Some("Login failed - no user data"), None, false)
    else
      match profile
      case ProfileThrew(message) =>
        Attempt(Some(ThrownMessage(message)), None, false)
      case ProfileReply(roleText, failed) =>
        if failed then Attempt(Some("Failed to load user profile"), None, false)
        else if mode == Admin then
          if StoredRole(roleText) != "admin" then
            match signOut
            case SignedOut => Attempt(Some("You are not authorized as admin"), None, true)
            case SignOutThrew(message) => Attempt(Some(ThrownMessage(message)), None, true)
          else Attempt(None, Some(Admin), false)
        else Attempt(None, Some(Contributor), false)
  }

  /** The admin view is entered only in admin mode by a user whose stored
      role is "admin"; in contributor mode a signed-in user always enters
      as a contributor, whatever the stored role; a user refused admin
      access is signed out again, and told so unless the sign-out throws.
      Every attempt that does not call `onLogin` leaves a non-empty
      error. */
  lemma {:induction false} RoleAuthorisation(mode: UserRole, result: SignInResult, profile: ProfileReply, signOut: SignOutReply)
    ensures var a := HandleLoginSpec(mode, result, profile, signOut);
      var reached := result.success && result.user.Some? && profile.ProfileReply? && !profile.failed;
      (a.onLogin == Some(Admin) <==> reached && mode == Admin && StoredRole(profile.roleText) == "admin") &&
      (a.onLogin == Some(Contributor) <==> reached && mode == Contributor) &&
      (a.signedOut <==> reached && mode == Admin && StoredRole(profile.roleText) != "admin") &&
      (a.signedOut && signOut == SignedOut ==> a.error == Some("You are not authorized as admin")) &&
      (a.onLogin.Some? <==> a.error.None?) &&
      (a.error.Some? ==> a.error.value != "")
  {
    var a := HandleLoginSpec(mode, result, profile, signOut);
    if !result.success {
      assert a.error.value != "";
    }
    if profile.ProfileThrew? || signOut.SignOutThrew? {
      assert ThrownMessage(if profile.ProfileThrew? then profile.message else signOut.message) != "";
    }
  }

  /** A failed sign-in shows the sign-in error, or "Login failed" when it
      has none, and goes no further. */
  lemma FailedSignInStops(mode: UserRole, result: SignInResult, profile: ProfileReply, signOut: SignOutReply)
    requires !result.success
    ensures HandleLoginSpec(mode, result, profile, signOut) ==
      Attempt(Some(if Present(result.error) then result.error.value else "Login failed"), None, false)
  {
  }

  class Login {
    var email: string
    var password: string
    var isLoading: bool
    var error: Option<string>
    var loginMode: UserRole

    constructor ()
      ensures email == "" && password == "" && !isLoading && error.None? && loginMode == Contributor
    {
      email, password, isLoading, error, loginMode := "", "", false, None, Contributor;
    }

    /** The e-mail input's `onChange`. */
    method SetEmail(s: string)
      modifies this`email
      ensures email == s
    {
      email := s;
    }

    /** The password input's `onChange`. */
    method SetPassword(s: string)
      modifies this`password
      ensures password == s
    {
      password := s;
    }

    /** The submit of the sign-in form. When a required field is empty the
        browser refuses the submit and nothing changes. Otherwise
        `handleLogin` runs: the error is cleared and the loading flag
        raised, then every exit sets the error or calls `onLogin`, and
        lowers the flag again. The form is kept. */
    method HandleLogin(result: SignInResult, profile: ProfileReply, signOut: SignOutReply)
      returns (submitted: bool, onLogin: Option<UserRole>, signedOut: bool)
      modifies this`isLoading, this`error
      ensures submitted <==> FormAccepted(email, password)
      ensures submitted ==> !isLoading && Attempt(error, onLogin, signedOut) == HandleLoginSpec(loginMode, result, profile, signOut)
      ensures !submitted ==> isLoading == old(isLoading) && error == old(error) && onLogin.None? && !signedOut
    {
      onLogin, signedOut := None, false;
      submitted := FormAccepted(email, password);
      if !submitted {
        return;
      }
      error := None;
      isLoading := true;
      if !result.success {
        error := Some(if Present(result.error) then result.error.value else "Login failed");
        isLoading := false;
        return;
      }
      if result.user.None? {
        error := Some("Login failed - no user data");
        isLoading := false;
        return;
      }
      if profile.ProfileThrew? {
        error := Some(ThrownMessage(profile.message));
        isLoading := false;
        return;
      }
      if profile.failed {
        error := Some("Failed to load user profile");
        isLoading := false;
        return;
      }
      var userRole := StoredRole(profile.roleText);
      if loginMode == Admin {
        if userRole != "admin" {
          error := Some("You are not authorized as admin");
          signedOut := true;
          if signOut.SignOutThrew? {
            error := Some(ThrownMessage(signOut.message));
          }
          isLoading := false;
          return;
        }
        onLogin := Some(Admin);
        isLoading := false;
        return;
      }
      onLogin := Some(Contributor);
      isLoading := false;
    }

    /** `toggleLoginMode`: the other mode, with the error and the form
        cleared. Toggling twice gives back the mode. */
    method ToggleLoginMode()
      modifies this`loginMode, this`error, this`email, this`password
      ensures loginMode != old(loginMode) && error.None? && email == "" && password == ""
    {
      loginMode := if loginMode == Contributor then Admin else Contributor;
      error := None;
      email := "";
      password := "";
    }
  }
}
