/** The change-password form of src/components/ChangePasswordModal.tsx: the
    checks of `handleSubmit` and the reset done by `handleClose`. The
    outcome of the `onSubmit` call is the `callSucceeds` argument. */
module PasswordForm {

  import opened Optional
  import opened Strings

  datatype PasswordError = TooShort | Mismatch | CallFailed

  datatype State = State(password: string, confirmPassword: string, error: Option<PasswordError>)

  /** The `onSubmit(userId, newPassword)` call. */
  datatype Call = Call(userId: string, newPassword: string)

  /** `handleClose`: both fields and the error cleared. */
  function Close(st: State): (r: State)
    ensures r.password == "" && r.confirmPassword == "" && r.error.None?
  {
    State("", "", None)
  }

  /** `!userId` in ECMAScript: null and '' are both falsy. */
  predicate HasUser(userId: Option<string>) {
    userId.Some? && userId.value != ""
  }

  /** `handleSubmit`: the new state and the call made, if any. */
  function HandleSubmit(st: State, userId: Option<string>, callSucceeds: bool): (r: (State, Option<Call>))
    ensures r.1.Some? ==> userId.Some? && r.1.value == Call(userId.value, st.password)
    ensures r.1.None? ==> r.0.password == st.password && r.0.confirmPassword == st.confirmPassword
    ensures r.1.Some? && callSucceeds ==> r.0 == Close(st)
    ensures r.1.Some? && !callSucceeds ==> r.0 == st.(error := Some(CallFailed))
  {
    if Utf16Length(st.password) < 6 then (st.(error := Some(TooShort)), None)
    else if st.password != st.confirmPassword then (st.(error := Some(Mismatch)), None)
    else if !HasUser(userId) then (st.(error := None), None)
    else if callSucceeds then (Close(st), Some(Call(userId.value, st.password)))
    else (st.(error := Some(CallFailed)), Some(Call(userId.value, st.password)))
  }

  /** `onSubmit` is called exactly when the password has at least six
      characters, the confirmation equals it and there is a user. */
  lemma CallIff(st: State, userId: Option<string>, callSucceeds: bool)
    ensures HandleSubmit(st, userId, callSucceeds).1.Some? <==>
      Utf16Length(st.password) >= 6 && st.password == st.confirmPassword && HasUser(userId)
  {
  }

  /** A short password is reported before any mismatch, whatever the
      confirmation holds. */
  lemma ShortBeforeMismatch(st: State, userId: Option<string>, callSucceeds: bool)
    ensures HandleSubmit(st, userId, callSucceeds).0.error == Some(TooShort) <==> Utf16Length(st.password) < 6
  {
  }

  lemma MismatchReported(st: State, userId: Option<string>, callSucceeds: bool)
    ensures HandleSubmit(st, userId, callSucceeds).0.error == Some(Mismatch) <==>
      Utf16Length(st.password) >= 6 && st.password != st.confirmPassword
  {
  }

  /** Without a user a valid form returns silently: no call and no error. */
  lemma MissingUserSilent(st: State, userId: Option<string>, callSucceeds: bool)
    requires Utf16Length(st.password) >= 6 && st.password == st.confirmPassword && !HasUser(userId)
    ensures HandleSubmit(st, userId, callSucceeds) == (st.(error := None), None)
  {
  }

  /** After a successful change the form is empty again, so submitting it
      once more is refused as too short. */
  lemma ResubmitAfterSuccess(st: State, userId: Option<string>, again: bool)
    requires HandleSubmit(st, userId, true).1.Some?
    ensures HandleSubmit(HandleSubmit(st, userId, true).0, userId, again).0.error == Some(TooShort)
  {
  }

  /** The length counts UTF-16 code units: three emoji pass the check. */
  lemma LengthCountsCodeUnits()
    ensures Utf16Length("\U{1F600}\U{1F600}\U{1F600}") == 6
    ensures HandleSubmit(State("\U{1F600}\U{1F600}\U{1F600}", "\U{1F600}\U{1F600}\U{1F600}", None), Some("u"), true).1.Some?
  {
  }
}
