/**
 * The submit logic of the login and registration screens. Each screen keeps
 * its text fields and a `showErrors` flag that the submit button turns on;
 * a field is drawn in error only once that flag is set. The button sends an
 * intent to the auth view model only when the form is complete.
 */
module AuthScreens {
  import opened Wrappers
  import opened Text
  import opened AuthPresentation

  // ---------------------------------------------------------------- login

  /** The sign-in button's test: both fields hold something other than whitespace. */
  predicate LoginComplete(email: string, password: string) {
    !IsBlank(email) && !IsBlank(password)
  }

  /**
   * Which login fields are drawn in error: `(email, password)`; once the
   * button was pressed, none is exactly when the form can be sent.
   */
  function LoginErrors(showErrors: bool, email: string, password: string): (flags: (bool, bool))
    ensures flags.0 <==> showErrors && IsBlank(email)
    ensures flags.1 <==> showErrors && IsBlank(password)
    ensures !showErrors ==> flags == (false, false)
    ensures showErrors ==> (flags == (false, false) <==> LoginComplete(email, password))
  {
    (showErrors && IsBlank(email), showErrors && IsBlank(password))
  }

  class LoginForm {
    var email: string
    var password: string
    var rememberMe: bool
    var showErrors: bool

    constructor()
      ensures email == "" && password == "" && rememberMe && !showErrors
    {
      email := "";
      password := "";
      rememberMe := true;
      showErrors := false;
    }

    /** The sign-in button: errors are shown from now on, and a complete form is sent with the remember-me choice. */
    method PressSignIn() returns (intent: Option<AuthIntent>)
      modifies this`showErrors
      ensures showErrors
      ensures intent.Some? <==> LoginComplete(email, password)
      ensures intent.Some? ==> intent.value == SignIn(email, password, rememberMe)
    {
      showErrors := true;
      if !IsBlank(email) && !IsBlank(password) {
        intent := Some(SignIn(email, password, rememberMe));
      } else {
        intent := None;
      }
    }
  }

  // ---------------------------------------------------------------- register

  /** The register button's `when`: a blank name, email or password, a mismatch, or unticked terms stop it. */
  function RegisterDecision(fullName: string, email: string, password: string, confirmPassword: string, agreeTerms: bool)
    : (send: bool)
    ensures send <==>
      !IsBlank(fullName) && !IsBlank(email) && !IsBlank(password) && password == confirmPassword && agreeTerms
  {
    if IsBlank(fullName) || IsBlank(email) || IsBlank(password) then false
    else if password != confirmPassword then false
    else if !agreeTerms then false
    else true
  }

  /** The error marks of the registration form. */
  datatype RegisterErrors = RegisterErrors(
    fullName: bool, email: bool, password: bool, confirm: bool, mismatchText: bool, terms: bool)

  const NoRegisterErrors: RegisterErrors := RegisterErrors(false, false, false, false, false, false)

  /**
   * Which parts of the form are marked: blank fields, the confirm field when
   * blank or different, the "do not match" text only when different, and the
   * terms when unticked; nothing before the first press, and nothing after it
   * exactly when the button sends the form.
   */
  function RegisterFieldErrors(showErrors: bool, fullName: string, email: string, password: string,
                               confirmPassword: string, agreeTerms: bool): (marks: RegisterErrors)
    ensures !showErrors ==> marks == NoRegisterErrors
    ensures marks.fullName <==> showErrors && IsBlank(fullName)
    ensures marks.email <==> showErrors && IsBlank(email)
    ensures marks.password <==> showErrors && IsBlank(password)
    ensures marks.confirm <==> showErrors && (IsBlank(confirmPassword) || confirmPassword != password)
    ensures marks.terms <==> showErrors && !agreeTerms
    ensures marks.mismatchText ==> marks.confirm
    ensures marks.mismatchText <==> showErrors && confirmPassword != password
    ensures showErrors ==>
      (marks == NoRegisterErrors <==> RegisterDecision(fullName, email, password, confirmPassword, agreeTerms))
  {
    RegisterErrors(
      showErrors && IsBlank(fullName),
      showErrors && IsBlank(email),
      showErrors && IsBlank(password),
      showErrors && (IsBlank(confirmPassword) || confirmPassword != password),
      showErrors && confirmPassword != password,
      showErrors && !agreeTerms)
  }

  /** Matching blank passwords mark the confirm field without the "do not match" text. */
  lemma BlankConfirmWithoutMismatchText()
    ensures var marks := RegisterFieldErrors(true, "Ann", "ann@example.com", " ", " ", true);
      marks.confirm && !marks.mismatchText
  {
    assert IsWhitespace(' ');
  }

  class RegisterForm {
    var fullName: string
    var email: string
    var password: string
    var confirmPassword: string
    var agreeTerms: bool
    var showErrors: bool

    constructor()
      ensures fullName == "" && email == "" && password == "" && confirmPassword == ""
      ensures !agreeTerms && !showErrors
    {
      fullName := "";
      email := "";
      password := "";
      confirmPassword := "";
      agreeTerms := false;
      showErrors := false;
    }

    /** The register button: errors are shown from now on, and a complete form is sent as entered. */
    method PressRegister() returns (intent: Option<AuthIntent>)
      modifies this`showErrors
      ensures showErrors
      ensures intent.Some? <==> RegisterDecision(fullName, email, password, confirmPassword, agreeTerms)
      ensures intent.Some? ==> intent.value == SignUp(fullName, email, password)
    {
      showErrors := true;
      if IsBlank(fullName) || IsBlank(email) || IsBlank(password) {
        intent := None;
      } else if password != confirmPassword {
        intent := None;
      } else if !agreeTerms {
        intent := None;
      } else {
        intent := Some(SignUp(fullName, email, password));
      }
    }
  }
}
