/** The profile completion page (pages/CompleteProfile.tsx): the five
    fields, the validation of the submit, the update of the signed-in
    user's profile row and what the page does with the answer.

    The age field is a number input: it is `None` while empty and the
    integer typed otherwise (fractions and exponents are not modelled).
    The two calls to the database client are replies given as parameters;
    a reply that throws is its own case. */
module CompleteProfilePage {
  import opened Common
  import opened Types

  /** The messages the page shows. */
  const FillInAllFields: string := "Please fill in all fields"
  const AgeOutOfRange: string := "Age must be between 18 and 100"
  const UnexpectedError: string := "An unexpected error occurred. Please try again."
  const UserNotFound: string := "User not found. Please log in again."
  const NoMatchingRecord: string := "Failed to update profile. No matching record found."

  datatype ProfileForm = ProfileForm(age: Option<int>, gender: string, city: string, state: string, upiId: string)

  /** The validation of `handleSubmit`: the message it shows, or `None` when
      the form passes. */
  function Validate(f: ProfileForm): Option<string>
  {
    if f.age.None? || f.gender == "" || f.city == "" || f.state == "" || f.upiId == "" then
      Some(FillInAllFields)
    else if f.age.value < 18 || f.age.value > 100 then
      Some(AgeOutOfRange)
    else
      None
  }

  /** A form passes exactly when every field is filled in and the age lies
      between 18 and 100 inclusive; an empty field is reported before an
      age out of range. */
  lemma ValidateAcceptsExactly(f: ProfileForm)
    ensures Validate(f).None? <==>
      f.age.Some? && 18 <= f.age.value <= 100 && f.gender != "" && f.city != "" && f.state != "" && f.upiId != ""
    ensures (f.age.None? || f.gender == "" || f.city == "" || f.state == "" || f.upiId == "") ==>
      Validate(f) == Some(FillInAllFields)
  {
  }

  /** The update object, column by column in the order it is written. */
  function UpdateColumns(f: ProfileForm): seq<(string, Json)>
    requires f.age.Some?
  {
    [("age_int", JNum(f.age.value)), ("age", JNum(f.age.value)),
     ("gender_text", JStr(f.gender)), ("gender", JStr(f.gender)),
     ("city_text", JStr(f.city)), ("city", JStr(f.city)),
     ("state_text", JStr(f.state)), ("state", JStr(f.state)),
     ("upi_id_text", JStr(f.upiId)), ("upi_id", JStr(f.upiId)),
     ("profile_completed", JBool(true))]
  }

  /** Each field is written twice, under its suffixed and its plain column,
      with the same value; the form's values are the ones written, and the
      update marks the profile completed. */
  lemma {:induction false} UpdateWritesBothSpellings(f: ProfileForm)
    requires f.age.Some?
    ensures var cols := UpdateColumns(f);
      |cols| == 11 && cols[10] == ("profile_completed", JBool(true)) &&
      (forall k :: 0 <= k < 5 ==>
        cols[2 * k].1 == cols[2 * k + 1].1 &&
        cols[2 * k].0 == cols[2 * k + 1].0 + (if k == 0 then "_int" else "_text")) &&
      [cols[1].1, cols[3].1, cols[5].1, cols[7].1, cols[9].1] ==
        [JNum(f.age.value), JStr(f.gender), JStr(f.city), JStr(f.state), JStr(f.upiId)]
  {
    var cols := UpdateColumns(f);
    assert cols[0].0 == cols[1].0 + "_int";
    assert cols[2].0 == cols[3].0 + "_text";
    assert cols[4].0 == cols[5].0 + "_text";
    assert cols[6].0 == cols[7].0 + "_text";
    assert cols[8].0 == cols[9].0 + "_text";
    forall k | 0 <= k < 5
      ensures cols[2 * k].1 == cols[2 * k + 1].1
      ensures cols[2 * k].0 == cols[2 * k + 1].0 + (if k == 0 then "_int" else "_text")
    {
      assert k == 0 || k == 1 || k == 2 || k == 3 || k == 4;
    }
  }

  /** `supabase.auth.getUser()`: the user's id, if any, and whether an error
      came with it; or a throw. */
  datatype UserReply = UserReply(user: Option<string>, failed: bool) | GetUserThrew

  /** The update's `{ data, error }`, or a throw. */
  datatype UpdateReply = UpdateReply(data: Option<seq<map<string, Json>>>, error: Option<string>) | UpdateThrew

  /** What one submit leads to: the message left on the page, the update
      sent (the user's id and the columns), and whether `onComplete` ran. */
  datatype Submitted = Submitted(error: string, sent: Option<(string, seq<(string, Json)>)>, completed: bool)

  function Submit(f: ProfileForm, who: UserReply, update: UpdateReply): Submitted
  {
    var invalid := Validate(f);
    if invalid.Some? then Submitted(invalid.value, None, false)
    else if who.GetUserThrew? then Submitted(UnexpectedError, None, false)
    else if who.user.None? || who.failed then Submitted(UserNotFound, None, false)
    else
      var sent := Some((who.user.value, UpdateColumns(f)));
      match update
      case UpdateThrew => Submitted(UnexpectedError, sent, false)
      case UpdateReply(data, error) =>
        if error.Some? then Submitted(error.value, sent, false)
        else if data.None? || |data.value| == 0 then
          Submitted(NoMatchingRecord, sent, false)
        else Submitted("", sent, true)
  }

  /** `onComplete` runs exactly when the form is valid, a user is signed in
      and the update came back with at least one row; nothing is written
      for an invalid form or a missing user, and each of those leaves a
      message; an update error is shown with the database's message. */
  lemma {:induction false} CompletesOnlyAfterAnUpdatedRow(f: ProfileForm, who: UserReply, update: UpdateReply)
    ensures var s := Submit(f, who, update);
      (s.completed <==>
        Validate(f).None? && who.UserReply? && who.user.Some? && !who.failed &&
        update.UpdateReply? && update.error.None? && update.data.Some? && |update.data.value| > 0) &&
      (s.sent.Some? <==> Validate(f).None? && who.UserReply? && who.user.Some? && !who.failed) &&
      (s.sent.Some? ==> s.sent.value == (who.user.value, UpdateColumns(f))) &&
      (s.completed ==> s.error == "") && (s.sent.None? ==> s.error != "") &&
      (s.sent.Some? && update.UpdateReply? && update.error.Some? ==> s.error == update.error.value)
  {
    var s := Submit(f, who, update);
    if Validate(f).Some? {
      assert Validate(f).value != "";
    }
  }

  /** The inputs' `onChange` handlers; each sets one field. An emptied
      age input gives `None`. */
  datatype ProfileEdit =
    | SetAge(age: Option<int>) | SetGender(s: string) | SetCity(s: string) | SetState(s: string) | SetUpiId(s: string)

  function Apply(f: ProfileForm, e: ProfileEdit): ProfileForm
  {
    match e
    case SetAge(age) => f.(age := age)
    case SetGender(s) => f.(gender := s)
    case SetCity(s) => f.(city := s)
    case SetState(s) => f.(state := s)
    case SetUpiId(s) => f.(upiId := s)
  }

  class CompleteProfile {
    var form: ProfileForm
    var loading: bool
    var error: string

    constructor ()
      ensures form == ProfileForm(None, "", "", "", "") && !loading && error == ""
    {
      form := ProfileForm(None, "", "", "", "");
      loading := false;
      error := "";
    }

    /** A field's `onChange`. */
    method Change(e: ProfileEdit)
      modifies this`form
      ensures form == Apply(old(form), e)
    {
      form := Apply(form, e);
    }

    /** `handleSubmit`, with the submit button disabled while loading. The
        error is cleared first and set on every failure; the loading flag,
        raised once the form is valid, is down again on every exit. */
    method HandleSubmit(who: UserReply, update: UpdateReply)
      returns (sent: Option<(string, seq<(string, Json)>)>, completed: bool)
      requires !loading
      modifies this`loading, this`error
      ensures !loading
      ensures Submitted(error, sent, completed) == Submit(form, who, update)
    {
      error := "";
      sent, completed := None, false;
      if form.age.None? || form.gender == "" || form.city == "" || form.state == "" || form.upiId == "" {
        error := FillInAllFields;
        return;
      }
      if form.age.value < 18 || form.age.value > 100 {
        error := AgeOutOfRange;
        return;
      }
      loading := true;
      if who.GetUserThrew? {
        error := UnexpectedError;
        loading := false;
        return;
      }
      if who.user.None? || who.failed {
        error := UserNotFound;
        loading := false;
        return;
      }
      sent := Some((who.user.value, UpdateColumns(form)));
      if update.UpdateThrew? {
        error := UnexpectedError;
        loading := false;
        return;
      }
      loading := false;
      if update.error.Some? {
        error := update.error.value;
        return;
      }
      if update.data.None? || |update.data.value| == 0 {
        error := NoMatchingRecord;
        return;
      }
      completed := true;
    }
  }
}
