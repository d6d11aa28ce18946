/** The sign-up page (pages/Signup.tsx): `handleSubmit`, which creates the
    account, writes the user's profile row and tells the user how it went.

    The account creation and the profile upsert are replies given as
    parameters; a reply that throws is its own case. The one-second timer
    before the switch to the sign-in page is the `SwitchLater` outcome.
    Before `handleSubmit` runs at all, the browser checks the form's
    `required` inputs, the terms checkbox among them; that checkbox is not
    React state, so its ticked state is a parameter of the submit. */
module SignupPage {
  import opened Common
  import opened Types

  /** The messages the page shows. */
  const UnexpectedError: string := "An unexpected error occurred. Please try again."
  const AlreadyRegistered: string := "This email is already registered. Please login instead."
  const CreateFailed: string := "Failed to create account. Please try again."
  const ProfileSetupFailed: string := "Account created but profile setup failed: "
  const AccountExists: string := "Account already exists! Please check your email or login."
  const AccountCreated: string := "Account created successfully! You can now login."

  datatype SignupForm = SignupForm(name: string, email: string, language: string, password: string)

  /** The inputs' `onChange` handlers; each replaces one field. */
  datatype SignupEdit = SetName(s: string) | SetEmail(s: string) | SetLanguage(s: string) | SetPassword(s: string)

  function Apply(f: SignupForm, e: SignupEdit): SignupForm
  {
    match e
    case SetName(s) => f.(name := s)
    case SetEmail(s) => f.(email := s)
    case SetLanguage(s) => f.(language := s)
    case SetPassword(s) => f.(password := s)
  }

  /** The browser's constraint validation of the sign-up form: the name,
      e-mail and password inputs and the terms checkbox are `required`. */
  predicate FormAccepted(f: SignupForm, termsChecked: bool)
  {
    f.name != "" && f.email != "" && f.password != "" && termsChecked
  }

  /** The account `signUp` created: its id and the length of its
      `identities` list (`None` when the list is missing). */
  datatype NewUser = NewUser(id: string, identities: Option<nat>)

  /** `{ data, error }` of `signUp`, or a throw. */
  datatype SignUpReply = SignUpReply(user: Option<NewUser>, error: Option<string>) | SignUpThrew

  /** The upsert's error, if any, or a throw. */
  datatype UpsertReply = UpsertReply(error: Option<string>) | UpsertThrew

  /** The profile row written for a new account, keyed on `id`. */
  datatype ProfileRow = ProfileRow(
    id: string, nameText: string, emailText: string, fullName: string,
    roleText: string, profileCompleted: bool, trustScore: int)

  /** The row the page upserts for a new user: a contributor whose profile
      is not yet completed, with a trust score of 100. */
  function NewProfile(user: NewUser, f: SignupForm): (row: ProfileRow)
    ensures row.id == user.id
    ensures row.nameText == f.name && row.fullName == f.name && row.emailText == f.email
    ensures row.roleText == Contributor.Value() && !row.profileCompleted && row.trustScore == 100
  {
    ProfileRow(user.id, f.name, f.email, f.name, "contributor", false, 100)
  }

  /** Whether and when the page moves on to the sign-in page. */
  datatype Redirect = Stay | SwitchNow | SwitchLater

  datatype SignupOutcome = SignupOutcome(alert: string, redirect: Redirect, profile: Option<ProfileRow>)

  function SignupSpec(f: SignupForm, reply: SignUpReply, upsert: UpsertReply): SignupOutcome
  {
    match reply
    case SignUpThrew => SignupOutcome(UnexpectedError, Stay, None)
    case SignUpReply(user, error) =>
      if error.Some? then
        if Contains(error.value, "already registered") then
          SignupOutcome(AlreadyRegistered, SwitchNow, None)
        else SignupOutcome(error.value, Stay, None)
      else if user.None? then SignupOutcome(CreateFailed, Stay, None)
      else
        var row := Some(NewProfile(user.value, f));
        match upsert
        case UpsertThrew => SignupOutcome(UnexpectedError, Stay, row)
        case UpsertReply(profileError) =>
          if profileError.Some? then
            SignupOutcome(ProfileSetupFailed + profileError.value, Stay, row)
          else if user.value.identities == Some(0) then
            SignupOutcome(AccountExists, SwitchLater, row)
          else SignupOutcome(AccountCreated, SwitchLater, row)
  }

  /** A profile is written exactly when the account was created without an
      error; an error mentioning "already registered" sends the user to
      the sign-in page at once, and the page moves there later only after
      the profile was written; an account without identities is reported
      as existing rather than created. */
  lemma {:induction false} SignupBranches(f: SignupForm, reply: SignUpReply, upsert: UpsertReply)
    ensures var o := SignupSpec(f, reply, upsert);
      (o.profile.Some? <==> reply.SignUpReply? && reply.error.None? && reply.user.Some?) &&
      (o.profile.Some? ==> o.profile.value == NewProfile(reply.user.value, f)) &&
      (o.profile.Some? ==>
         o.profile.value.id == reply.user.value.id &&
         o.profile.value.roleText == "contributor" && !o.profile.value.profileCompleted) &&
      (o.redirect == SwitchNow <==> reply.SignUpReply? && reply.error.Some? && Contains(reply.error.value, "already registered")) &&
      (o.redirect == SwitchLater <==> o.profile.Some? && upsert == UpsertReply(None)) &&
      (o.redirect == SwitchLater ==>
        (o.alert == AccountExists <==> reply.user.value.identities == Some(0)))
  {
    var o := SignupSpec(f, reply, upsert);
    if o.redirect == SwitchLater {
      assert |AccountExists| != |AccountCreated|;
    }
  }

  /** A form the browser lets through writes a profile with a name, an
      e-mail and a full name, none of them empty. */
  lemma AcceptedFormsWriteNamedProfiles(f: SignupForm, termsChecked: bool, reply: SignUpReply, upsert: UpsertReply)
    requires FormAccepted(f, termsChecked)
    ensures var o := SignupSpec(f, reply, upsert);
      o.profile.Some? ==> o.profile.value.nameText != "" && o.profile.value.emailText != "" && o.profile.value.fullName != ""
  {
  }

  class Signup {
    var form: SignupForm
    var isLoading: bool

    constructor ()
      ensures form == SignupForm("", "", "English", "") && !isLoading
    {
      form := SignupForm("", "", "English", "");
      isLoading := false;
    }

    /** A field's `onChange`. */
    method Change(e: SignupEdit)
      modifies this`form
      ensures form == Apply(old(form), e)
    {
      form := Apply(form, e);
    }

    /** The submit of the sign-up form, given whether the terms box is
        ticked and the answers to its two requests. When the browser
        refuses the form nothing happens and there is no outcome.
        Otherwise `handleSubmit` runs: the loading flag is raised and is
        down again on every exit. */
    method HandleSubmit(termsChecked: bool, reply: SignUpReply, upsert: UpsertReply) returns (outcome: Option<SignupOutcome>)
      modifies this`isLoading
      ensures outcome.Some? <==> FormAccepted(form, termsChecked)
      ensures outcome.Some? ==> !isLoading && outcome.value == SignupSpec(form, reply, upsert)
      ensures outcome.None? ==> isLoading == old(isLoading)
    {
      if !FormAccepted(form, termsChecked) {
        return None;
      }
      isLoading := true;
      if reply.SignUpThrew? {
        outcome := Some(SignupOutcome(UnexpectedError, Stay, None));
        isLoading := false;
        return;
      }
      if reply.error.Some? {
        if Contains(reply.error.value, "already registered") {
          outcome := Some(SignupOutcome(AlreadyRegistered, SwitchNow, None));
        } else {
          outcome := Some(SignupOutcome(reply.error.value, Stay, None));
        }
        isLoading := false;
        return;
      }
      if reply.user.None? {
        outcome := Some(SignupOutcome(CreateFailed, Stay, None));
        isLoading := false;
        return;
      }
      var row := NewProfile(reply.user.value, form);
      if upsert.UpsertThrew? {
        outcome := Some(SignupOutcome(UnexpectedError, Stay, Some(row)));
        isLoading := false;
        return;
      }
      if upsert.error.Some? {
        outcome := Some(SignupOutcome(ProfileSetupFailed + upsert.error.value, Stay, Some(row)));
        isLoading := false;
        return;
      }
      var message := if reply.user.value.identities == Some(0)
        then AccountExists
        else AccountCreated;
      outcome := Some(SignupOutcome(message, SwitchLater, Some(row)));
      isLoading := false;
    }
  }
}
