/** `validatePasswords` (`ForgotPW3Activity.kt`): the new-password screen
    checks both fields in one pass and puts at most one error under each. */
module PasswordReset {
  import opened Wrappers
  import opened Text

  const MinPasswordLength := 6
  const NewRequiredError := "New password is required"
  const TooShortError := "Password must be at least 6 characters"
  const ConfirmRequiredError := "Please confirm your password"
  const MismatchError := "Passwords do not match"

  /** The error under the new-password field, for the trimmed input. */
  function NewPasswordError(newPassword: string): (r: Option<string>)
    ensures r.None? <==> |newPassword| >= MinPasswordLength
    ensures newPassword == [] <==> r == Some(NewRequiredError)
  {
    if newPassword == [] then Some(NewRequiredError)
    else if |newPassword| < MinPasswordLength then Some(TooShortError)
    else None
  }

  /** The error under the confirmation field, for the trimmed inputs. */
  function ConfirmPasswordError(newPassword: string, confirmPassword: string): (r: Option<string>)
    ensures r.None? <==> confirmPassword != [] && confirmPassword == newPassword
    ensures confirmPassword == [] <==> r == Some(ConfirmRequiredError)
  {
    if confirmPassword == [] then Some(ConfirmRequiredError)
    else if newPassword != confirmPassword then Some(MismatchError)
    else None
  }

  /** The inputs pass exactly when the trimmed new password has at least
      six characters and the trimmed confirmation equals it. */
  lemma PasswordsValidExactly(newText: string, confirmText: string)
    ensures (NewPasswordError(Trim(newText)).None? && ConfirmPasswordError(Trim(newText), Trim(confirmText)).None?) <==>
              |Trim(newText)| >= MinPasswordLength && Trim(confirmText) == Trim(newText)
  {
  }

  /** A confirmation is judged against the new password even when that is
      itself in error, so a short password typed twice gets only the
      length error. */
  lemma ShortPasswordTypedTwice(p: string)
    requires 0 < |p| < MinPasswordLength
    ensures NewPasswordError(p) == Some(TooShortError)
    ensures ConfirmPasswordError(p, p).None?
  {
  }

  /** The screen's two input layouts, each with its error line. */
  class PasswordResetForm {
    var newPasswordError: Option<string>
    var confirmPasswordError: Option<string>

    constructor ()
      ensures newPasswordError.None? && confirmPasswordError.None?
    {
      newPasswordError, confirmPasswordError := None, None;
    }

    /** Sets each field's error (none when its checks pass) from the texts
        typed into the two fields; both fields are always checked. */
    method ValidatePasswords(newPasswordText: string, confirmPasswordText: string) returns (isValid: bool)
      modifies this`newPasswordError, this`confirmPasswordError
      ensures newPasswordError == NewPasswordError(Trim(newPasswordText))
      ensures confirmPasswordError == ConfirmPasswordError(Trim(newPasswordText), Trim(confirmPasswordText))
      ensures isValid <==> newPasswordError.None? && confirmPasswordError.None?
    {
      var newPassword := Trim(newPasswordText);
      var confirmPassword := Trim(confirmPasswordText);
      newPasswordError := NewPasswordError(newPassword);
      confirmPasswordError := ConfirmPasswordError(newPassword, confirmPassword);
      isValid := newPasswordError.None? && confirmPasswordError.None?;
    }
  }
}
