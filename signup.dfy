/** The sign-up form: its validation and the message shown after the sign-up
    call. The call itself is a parameter: what it threw, or nothing. */
module SignUp {
  import opened Wrappers
  import opened Validation

  const NAME_REQUIRED := "Please enter your name!"
  const EMAIL_REQUIRED := "Please enter your email!"
  const EMAIL_INVALID := "Please enter a valid email!"
  const SIGNUP_SUCCEEDED := "Account created successfully!"
  const SIGNUP_FAILED := "Sign up failed. Please try again."

  datatype Errors = Errors(name: string, username: string, password: string)

  datatype Severity = Success | Failure

  datatype Snackbar = Snackbar(open: bool, message: string, severity: Severity)

  function NameError(name: string): (e: string)
    ensures e == "" <==> name != ""
    ensures name == "" ==> e == NAME_REQUIRED
  {
    if name == "" then NAME_REQUIRED else ""
  }

  function UsernameError(username: string): (e: string)
    ensures username == "" ==> e == EMAIL_REQUIRED
    ensures username != "" && !IsEmail(username) ==> e == EMAIL_INVALID
    ensures e == "" <==> IsEmail(username)
  {
    if username == "" then EMAIL_REQUIRED
    else if !IsEmail(username) then EMAIL_INVALID
    else ""
  }

  /** The three errors of one validation. */
  function FormErrors(name: string, username: string, password: string): (e: Errors)
    ensures e.name == NameError(name) && e.username == UsernameError(username) && e.password == PasswordError(password)
  {
    Errors(NameError(name), UsernameError(username), PasswordError(password))
  }

  /** Each field's error depends on that field alone, so one validation
      reports every failing field; the form passes exactly when the name is
      given, the e-mail matches the pattern and the password passes. */
  lemma ErrorsArePerField(name: string, username: string, password: string, name2: string, username2: string, password2: string)
    ensures FormErrors(name2, username, password).username == FormErrors(name, username, password).username
    ensures FormErrors(name2, username, password).password == FormErrors(name, username, password).password
    ensures FormErrors(name, username2, password).name == FormErrors(name, username, password).name
    ensures FormErrors(name, username2, password).password == FormErrors(name, username, password).password
    ensures FormErrors(name, username, password2).name == FormErrors(name, username, password).name
    ensures FormErrors(name, username, password2).username == FormErrors(name, username, password).username
    ensures FormErrors(name, username, password) == Errors("", "", "") <==>
      name != "" && PatternMatches(username) && password != "" && Utf16Length(password) >= MIN_PASSWORD_LENGTH
  {
    IsEmailIffPattern(username);
  }

  class SignUpPage {
    var name: string
    var username: string
    var password: string
    var errors: Errors
    var snackbar: Snackbar

    constructor ()
      ensures name == "" && username == "" && password == "" && errors == Errors("", "", "")
      ensures snackbar == Snackbar(false, "", Success)
    {
      name := "";
      username := "";
      password := "";
      errors := Errors("", "", "");
      snackbar := Snackbar(false, "", Success);
    }

    /** `validateForm`: the three fields are checked, each error is recorded,
        and the form passes exactly when none has one. */
    method ValidateForm() returns (isValid: bool)
      modifies this
      ensures errors == FormErrors(name, username, password)
      ensures isValid <==> errors == Errors("", "", "")
      ensures name == old(name) && username == old(username) && password == old(password) && snackbar == old(snackbar)
    {
      var newErrors := Errors("", "", "");
      isValid := true;
      if name == "" {
        newErrors := newErrors.(name := NAME_REQUIRED);
        isValid := false;
      }
      if username == "" {
        newErrors := newErrors.(username := EMAIL_REQUIRED);
        isValid := false;
      } else if !IsEmail(username) {
        newErrors := newErrors.(username := EMAIL_INVALID);
        isValid := false;
      }
      if password == "" {
        newErrors := newErrors.(password := PASSWORD_REQUIRED);
        isValid := false;
      } else if Utf16Length(password) < MIN_PASSWORD_LENGTH {
        newErrors := newErrors.(password := PASSWORD_TOO_SHORT);
        isValid := false;
      }
      errors := newErrors;
    }

    /** `handleSubmit`: an invalid form never calls `signup`; otherwise the
        snackbar reports success, or the failure's message. */
    method HandleSubmit(signupThrew: Option<Thrown>) returns (signupCalled: bool)
      modifies this
      ensures errors == FormErrors(name, username, password)
      ensures signupCalled <==> errors == Errors("", "", "")
      ensures !signupCalled ==> snackbar == old(snackbar)
      ensures signupCalled && signupThrew.None? ==> snackbar == Snackbar(true, SIGNUP_SUCCEEDED, Success)
      ensures signupCalled && signupThrew.Some? ==>
        snackbar == Snackbar(true, FailureMessage(signupThrew.value, SIGNUP_FAILED), Failure)
      ensures name == old(name) && username == old(username) && password == old(password)
    {
      var valid := ValidateForm();
      if !valid {
        return false;
      }
      signupCalled := true;
      if signupThrew.None? {
        snackbar := Snackbar(true, SIGNUP_SUCCEEDED, Success);
      } else {
        snackbar := Snackbar(true, FailureMessage(signupThrew.value, SIGNUP_FAILED), Failure);
      }
    }
  }
}
