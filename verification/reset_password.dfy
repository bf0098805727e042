/**
 * src/Pages/Dashbaord/Profile/components/form-reset-password.tsx: the zod
 * schema of the change-password dialog (each rule written out as a string
 * predicate) and the dialog's `open` / `isLoading` / form state around
 * `onSubmit`.
 */
module ResetPassword {
  import opened Wrappers
  import opened Js
  import Http

  /** The three fields of the form. */
  datatype PasswordValues = PasswordValues(currentPassword: string, newPassword: string, newPasswordConfirmation: string)

  const EmptyValues := PasswordValues("", "", "")

  datatype FieldName = CurrentPassword | NewPassword | NewPasswordConfirmation

  /** One zod issue: the field it is attached to and its message. */
  datatype Issue = Issue(path: FieldName, message: string)

  const CurrentTooShort := "Password must be at least 6 characters"
  const NewTooShort := "Password must be at least 8 characters"
  const NewTooWeak := "Password must contain at least one uppercase letter, one lowercase letter, one number and one special character"
  const Mismatch := "Passwords don't match"

  /** `[@$!%*?&]` */
  predicate IsSpecial(c: char) {
    c in "@$!%*?&"
  }

  /** `[A-Za-z\d@$!%*?&]` */
  predicate IsAllowed(c: char) {
    IsAsciiLower(c) || IsAsciiUpper(c) || IsAsciiDigit(c) || IsSpecial(c)
  }

  predicate HasLower(s: string) { exists i | 0 <= i < |s| :: IsAsciiLower(s[i]) }
  predicate HasUpper(s: string) { exists i | 0 <= i < |s| :: IsAsciiUpper(s[i]) }
  predicate HasDigit(s: string) { exists i | 0 <= i < |s| :: IsAsciiDigit(s[i]) }
  predicate HasSpecial(s: string) { exists i | 0 <= i < |s| :: IsSpecial(s[i]) }

  /** `/^(?=.*[a-z])(?=.*[A-Z])(?=.*\d)(?=.*[@$!%*?&])[A-Za-z\d@$!%*?&]{8,}$/` */
  predicate IsStrong(s: string) {
    |s| >= 8 && (forall i :: 0 <= i < |s| ==> IsAllowed(s[i])) &&
    HasLower(s) && HasUpper(s) && HasDigit(s) && HasSpecial(s)
  }

  /**
   * The issues `formSchema` reports, in order: the `min` checks and the
   * `regex` check each add their own issue, and the `refine` on the object
   * adds the mismatch issue on the confirmation field.
   */
  function Issues(v: PasswordValues): (r: seq<Issue>)
    ensures Issue(CurrentPassword, CurrentTooShort) in r <==> |v.currentPassword| < 6
    ensures Issue(NewPassword, NewTooShort) in r <==> |v.newPassword| < 8
    ensures Issue(NewPassword, NewTooWeak) in r <==> !IsStrong(v.newPassword)
    ensures Issue(NewPasswordConfirmation, Mismatch) in r <==> v.newPassword != v.newPasswordConfirmation
    ensures forall x :: x in r ==> x.path != NewPasswordConfirmation || x.message == Mismatch
  {
    (if |v.currentPassword| < 6 then [Issue(CurrentPassword, CurrentTooShort)] else []) +
    (if |v.newPassword| < 8 then [Issue(NewPassword, NewTooShort)] else []) +
    (if !IsStrong(v.newPassword) then [Issue(NewPassword, NewTooWeak)] else []) +
    (if v.newPassword != v.newPasswordConfirmation then [Issue(NewPasswordConfirmation, Mismatch)] else [])
  }

  /** The form is accepted exactly when the current password has six characters, the new one is strong and the confirmation repeats it. */
  lemma AcceptedValues(v: PasswordValues)
    ensures Issues(v) == [] <==>
              |v.currentPassword| >= 6 && IsStrong(v.newPassword) && v.newPasswordConfirmation == v.newPassword
  {
    if Issues(v) != [] {
      var x := Issues(v)[0];
      assert x in Issues(v);
    }
  }

  /** The length rule of the new password is implied by its pattern: a new password without the pattern issue never has the length issue. */
  lemma PatternCoversLength(v: PasswordValues)
    ensures Issue(NewPassword, NewTooWeak) !in Issues(v) ==> Issue(NewPassword, NewTooShort) !in Issues(v)
  {
  }

  /** A sample password of each kind: one that meets every rule, and one that lacks an upper-case letter. */
  lemma SamplePasswords()
    ensures IsStrong("Secret1!")
    ensures !IsStrong("secret12!")
  {
    assert IsAsciiLower("Secret1!"[1]) && IsAsciiUpper("Secret1!"[0]);
    assert IsAsciiDigit("Secret1!"[6]) && IsSpecial("Secret1!"[7]);
  }

  /** What the toast shows after a submission. */
  datatype Toast = Succeeded(text: string) | Failed(text: string)

  const UpdatedText := "Password updated successfully"
  const UpdateFallback := "Failed to update password"

  /** `e.message || "Failed to update password"` */
  function FailureText(e: Http.Thrown): (t: string)
    ensures t != ""
    ensures Present(e.message) ==> t == e.message.value
  {
    OrElse(e.message, UpdateFallback)
  }

  class ResetPasswordDialog {
    var open: bool
    var isLoading: bool
    var values: PasswordValues
    var issues: seq<Issue>
    var toast: Option<Toast>

    /** The dialog starts closed, idle, with three empty fields. */
    constructor ()
      ensures !open && !isLoading && values == EmptyValues && issues == [] && toast == None
    {
      open, isLoading, values, issues, toast := false, false, EmptyValues, [], None;
    }

    /** `onOpenChange`. */
    method SetOpen(b: bool)
      modifies this
      ensures open == b
      ensures isLoading == old(isLoading) && values == old(values) && issues == old(issues) && toast == old(toast)
    {
      open := b;
    }

    /** Typing into the fields. */
    method Edit(v: PasswordValues)
      modifies this
      ensures values == v
      ensures open == old(open) && isLoading == old(isLoading) && issues == old(issues) && toast == old(toast)
    {
      values := v;
    }

    /**
     * `handleSubmit(onSubmit)` with `updatePassword`'s outcome as `reply`:
     * invalid values only show their issues; valid ones are sent, and success
     * closes the dialog and resets the form while failure keeps it open with
     * the error's message. Loading is over in every case.
     */
    method Submit(reply: Result<(), Http.Thrown>) returns (sent: bool)
      modifies this
      ensures issues == Issues(old(values))
      ensures sent <==> issues == []
      ensures sent ==> !isLoading
      ensures !sent ==> isLoading == old(isLoading) && open == old(open) && values == old(values) && toast == old(toast)
      ensures sent && reply.Success? ==> !open && values == EmptyValues && toast == Some(Succeeded(UpdatedText))
      ensures sent && reply.Failure? ==> open == old(open) && values == old(values) && toast == Some(Failed(FailureText(reply.error)))
    {
      issues := Issues(values);
      if issues != [] {
        sent := false;
        return;
      }
      sent := true;
      isLoading := true;
      match reply {
        case Success(_) =>
          toast := Some(Succeeded(UpdatedText));
          open := false;
          values := EmptyValues;
        case Failure(e) =>
          toast := Some(Failed(FailureText(e)));
      }
      isLoading := false;
    }
  }
}
