/** `validateInputs` (`SignUpActivity.kt`): the registration screen checks
    username, email and password in one pass and puts at most one error
    under each. Android's `Patterns.EMAIL_ADDRESS` is a parameter. */
module SignUp {
  import opened Wrappers
  import opened Text

  const MinUsernameLength := 3
  const MinPasswordLength := 6
  const UsernameRequiredError := "Username is required"
  const UsernameTooShortError := "Username must be at least 3 characters"
  const EmailRequiredError := "Email is required"
  const EmailInvalidError := "Please enter a valid email address"
  const PasswordRequiredError := "Password is required"
  const PasswordTooShortError := "Password must be at least 6 characters"

  /** The error under the username field, for the trimmed input. */
  function UsernameError(username: string): (r: Option<string>)
    ensures r.None? <==> |username| >= MinUsernameLength
    ensures username == [] <==> r == Some(UsernameRequiredError)
  {
    if username == [] then Some(UsernameRequiredError)
    else if |username| < MinUsernameLength then Some(UsernameTooShortError)
    else None
  }

  /** The error under the email field, for the trimmed input. */
  function EmailError(email: string, emailPattern: string -> bool): (r: Option<string>)
    ensures r.None? <==> email != [] && emailPattern(email)
    ensures email == [] <==> r == Some(EmailRequiredError)
  {
    if email == [] then Some(EmailRequiredError)
    else if !emailPattern(email) then Some(EmailInvalidError)
    else None
  }

  /** The error under the password field, for the trimmed input. */
  function PasswordError(password: string): (r: Option<string>)
    ensures r.None? <==> |password| >= MinPasswordLength
    ensures password == [] <==> r == Some(PasswordRequiredError)
  {
    if password == [] then Some(PasswordRequiredError)
    else if |password| < MinPasswordLength then Some(PasswordTooShortError)
    else None
  }

  /** An empty field is reported as required, never as too short or
      malformed, even when the pattern would accept the empty string. */
  lemma EmptyIsRequired(emailPattern: string -> bool)
    ensures UsernameError([]) == Some(UsernameRequiredError)
    ensures EmailError([], emailPattern) == Some(EmailRequiredError)
    ensures PasswordError([]) == Some(PasswordRequiredError)
  {
  }

  /** The screen's three input layouts, each with its error line. */
  class SignUpForm {
    const emailPattern: string -> bool
    var usernameError: Option<string>
    var emailError: Option<string>
    var passwordError: Option<string>

    constructor (emailPattern: string -> bool)
      ensures this.emailPattern == emailPattern
      ensures usernameError.None? && emailError.None? && passwordError.None?
    {
      this.emailPattern := emailPattern;
      usernameError, emailError, passwordError := None, None, None;
    }

    /** Sets each field's error (none when its checks pass) from the text
        typed into it; a failing field does not stop the others being
        checked. */
    method ValidateInputs(usernameText: string, emailText: string, passwordText: string) returns (isValid: bool)
      modifies this`usernameError, this`emailError, this`passwordError
      ensures usernameError == UsernameError(Trim(usernameText))
      ensures emailError == EmailError(Trim(emailText), emailPattern)
      ensures passwordError == PasswordError(Trim(passwordText))
      ensures isValid <==> usernameError.None? && emailError.None? && passwordError.None?
    {
      var username := Trim(usernameText);
      var email := Trim(emailText);
      var password := Trim(passwordText);
      usernameError := UsernameError(username);
      emailError := EmailError(email, emailPattern);
      passwordError := PasswordError(password);
      isValid := usernameError.None? && emailError.None? && passwordError.None?;
    }
  }

  /** Sign-up passes exactly when the trimmed username has at least three
      characters, the trimmed email is non-empty and matches the pattern,
      and the trimmed password has at least six characters. */
  lemma SignUpValidExactly(username: string, email: string, password: string, emailPattern: string -> bool)
    ensures (UsernameError(Trim(username)).None? && EmailError(Trim(email), emailPattern).None? &&
             PasswordError(Trim(password)).None?) <==>
              |Trim(username)| >= MinUsernameLength && !IsBlank(email) && emailPattern(Trim(email)) &&
              |Trim(password)| >= MinPasswordLength
  {
  }
}
