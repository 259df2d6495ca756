/** The admin login page: the form check, the login attempt against the
    session store, the error texts it leaves and where a success leads. */
module LoginPage {
  import opened Wrappers
  import opened Text
  import opened AuthContext

  const UsernameRequired: string := "Username is required"
  const PasswordRequired: string := "Password is required"
  const InvalidCredentials: string := "Invalid username or password"
  const DefaultTarget: string := "/admin"

  /** Where a successful login leads: the page the visitor came from, or the
      admin dashboard when no path, or an empty one, was handed over. */
  function RedirectTarget(fromPath: Option<string>): (r: string)
    ensures r != ""
    ensures fromPath.None? || fromPath.value == "" ==> r == DefaultTarget
    ensures fromPath.Some? && fromPath.value != "" ==> r == fromPath.value
  {
    match fromPath
    case Some(p) => if p != "" then p else DefaultTarget
    case None => DefaultTarget
  }

  /** The error text under each field; the empty string shows none. */
  datatype LoginErrors = LoginErrors(username: string, password: string)

  const NoErrors: LoginErrors := LoginErrors("", "")

  /** What a login attempt came to. */
  datatype LoginOutcome = Refused | Redirected(target: string) | Rejected

  /** The page's state: the two fields and their error texts. */
  class LoginPageState {
    var username: string
    var password: string
    var errors: LoginErrors

    constructor ()
      ensures username == "" && password == "" && errors == NoErrors
    {
      username, password := "", "";
      errors := NoErrors;
    }

    /** `validateForm`: the username is flagged exactly when it is blank, the
        password exactly when it is empty (spaces pass), and the form is
        valid exactly when neither is flagged. */
    method ValidateForm() returns (isValid: bool)
      modifies this
      ensures errors.username != "" <==> IsBlank(username)
      ensures errors.password != "" <==> password == ""
      ensures errors.username == "" || errors.username == UsernameRequired
      ensures errors.password == "" || errors.password == PasswordRequired
      ensures isValid <==> errors == NoErrors
      ensures username == old(username) && password == old(password)
    {
      var newErrors := NoErrors;
      isValid := true;
      if IsBlank(username) {
        newErrors := newErrors.(username := UsernameRequired);
        isValid := false;
      }
      if password == "" {
        newErrors := newErrors.(password := PasswordRequired);
        isValid := false;
      }
      errors := newErrors;
    }

    /** `handleSubmit`: an invalid form is refused without a login attempt;
        otherwise the session store decides, a success leads to the redirect
        target and a failure puts the same text under both fields. */
    method HandleSubmit(auth: AuthProvider, fromPath: Option<string>) returns (outcome: LoginOutcome)
      modifies this, auth
      ensures username == old(username) && password == old(password)
      ensures outcome.Refused? <==> IsBlank(username) || password == ""
      ensures outcome.Refused? ==> unchanged(auth) && errors != NoErrors
      ensures outcome.Refused? ==>
        && (errors.username != "" <==> IsBlank(username))
        && (errors.password != "" <==> password == "")
        && (errors.username == "" || errors.username == UsernameRequired)
        && (errors.password == "" || errors.password == PasswordRequired)
      ensures !outcome.Refused? ==> auth.State() == AfterLogin(old(auth.State()), username, password)
      ensures outcome.Redirected? <==> !outcome.Refused? && CredentialsMatch(username, password)
      ensures outcome.Redirected? ==> outcome.target == RedirectTarget(fromPath) && errors == NoErrors
      ensures outcome.Rejected? ==> errors == LoginErrors(InvalidCredentials, InvalidCredentials)
      ensures Consistent(old(auth.State())) ==> Consistent(auth.State())
    {
      var valid := ValidateForm();
      if !valid {
        return Refused;
      }
      var success := auth.Login(username, password);
      if success {
        outcome := Redirected(RedirectTarget(fromPath));
      } else {
        errors := LoginErrors(InvalidCredentials, InvalidCredentials);
        outcome := Rejected;
      }
    }

    /** Typing in the username field clears its error and nothing else. */
    method EditUsername(value: string)
      modifies this
      ensures username == value && password == old(password)
      ensures errors == old(errors).(username := "")
    {
      username := value;
      errors := errors.(username := "");
    }

    /** Typing in the password field clears its error and nothing else. */
    method EditPassword(value: string)
      modifies this
      ensures password == value && username == old(username)
      ensures errors == old(errors).(password := "")
    {
      password := value;
      errors := errors.(password := "");
    }
  }
}
