/** The sign-in form: its validation and the message shown after the login
    call. The call itself is a parameter: what it threw, or nothing. */
module SignIn {
  import opened Wrappers
  import opened Validation

  const EMAIL_REQUIRED := "Please enter your email!"
  const EMAIL_INVALID := "Please enter a valid email address!"
  const LOGIN_SUCCEEDED := "Login successful!"
  const LOGIN_FAILED := "Invalid username or password."

  datatype Errors = Errors(username: string, password: string)

  datatype Severity = Success | Failure

  datatype Snackbar = Snackbar(open: bool, message: string, severity: Severity)

  /** The username's error text; empty when it passes. */
  function UsernameError(username: string): (e: string)
    ensures username == "" ==> e == EMAIL_REQUIRED
    ensures username != "" && !IsEmail(username) ==> e == EMAIL_INVALID
    ensures e == "" <==> IsEmail(username)
  {
    if username == "" then EMAIL_REQUIRED
    else if !IsEmail(username) then EMAIL_INVALID
    else ""
  }

  /** The username passes exactly when the e-mail pattern matches it. */
  lemma UsernamePassesIffPattern(username: string)
    ensures UsernameError(username) == "" <==> PatternMatches(username)
  {
    IsEmailIffPattern(username);
  }

  class SignInPage {
    var username: string
    var password: string
    var errors: Errors
    var snackbar: Snackbar

    constructor ()
      ensures username == "" && password == "" && errors == Errors("", "")
      ensures snackbar == Snackbar(false, "", Success)
    {
      username := "";
      password := "";
      errors := Errors("", "");
      snackbar := Snackbar(false, "", Success);
    }

    method SetUsername(text: string)
      modifies this
      ensures username == text && password == old(password) && errors == old(errors) && snackbar == old(snackbar)
    {
      username := text;
    }

    method SetPassword(text: string)
      modifies this
      ensures password == text && username == old(username) && errors == old(errors) && snackbar == old(snackbar)
    {
      password := text;
    }

    /** `validateForm`: both fields are checked, each error is recorded, and
        the form passes exactly when neither has one. */
    method ValidateForm() returns (isValid: bool)
      modifies this
      ensures errors == Errors(UsernameError(username), PasswordError(password))
      ensures isValid <==> errors.username == "" && errors.password == ""
      ensures username == old(username) && password == old(password) && snackbar == old(snackbar)
    {
      var newErrors := Errors("", "");
      isValid := true;
      if username == "" {
        newErrors := newErrors.(username := EMAIL_REQUIRED);
        isValid := false;
      } else if !IsEmail(username) {
        newErrors := newErrors.(username := EMAIL_INVALID);
        isValid := false;
      }
      if password == "" {
        newErrors := newErrors.(password := PASSWORD_REQUIRED);
        isValid := false;
      } else if Utf16Length(password) < MIN_PASSWORD_LENGTH {
        newErrors := newErrors.(password := PASSWORD_TOO_SHORT);
        isValid := false;
      }
      errors := newErrors;
    }

    /** `handleSubmit`: an invalid form never calls `login`; otherwise the
        snackbar reports success, or the failure's message. */
    method HandleSubmit(loginThrew: Option<Thrown>) returns (loginCalled: bool)
      modifies this
      ensures errors == Errors(UsernameError(username), PasswordError(password))
      ensures loginCalled <==> IsEmail(username) && PasswordError(password) == ""
      ensures !loginCalled ==> snackbar == old(snackbar)
      ensures loginCalled && loginThrew.None? ==> snackbar == Snackbar(true, LOGIN_SUCCEEDED, Success)
      ensures loginCalled && loginThrew.Some? ==>
        snackbar == Snackbar(true, FailureMessage(loginThrew.value, LOGIN_FAILED), Failure)
      ensures username == old(username) && password == old(password)
    {
      var valid := ValidateForm();
      if !valid {
        return false;
      }
      loginCalled := true;
      if loginThrew.None? {
        snackbar := Snackbar(true, LOGIN_SUCCEEDED, Success);
      } else {
        snackbar := Snackbar(true, FailureMessage(loginThrew.value, LOGIN_FAILED), Failure);
      }
    }
  }
}
