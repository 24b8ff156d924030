/**
 * `AuthViewModel`: the login and registration state holder. Sign-in and
 * sign-up first validate the fields (a blank field only sets its error),
 * then start loading; the repository's answer arrives in a `Complete…` step.
 * Writes of the remember-me preference are recorded in order. The state
 * carries `userName`, which the view model sets on every successful
 * transition.
 */
module AuthPresentation {
  import opened Wrappers
  import opened Text
  import opened AuthUseCases

  datatype AuthState = AuthState(
    email: string,
    password: string,
    emailError: Option<string>,
    passwordError: Option<string>,
    isLoading: bool,
    isSignedIn: bool,
    userEmail: Option<string>,
    error: Option<string>,
    successMessage: Option<string>,
    userName: Option<string>)

  /** The intents the screens send; `ForgotPassword` has no handler. */
  datatype AuthIntent =
    | SignIn(email: string, password: string, rememberMe: bool)
    | SignUp(userName: string, email: string, password: string)
    | SignOut
    | CheckUser
    | ForgotPassword(email: string)

  const DefaultAuthState: AuthState := AuthState("", "", None, None, false, false, None, None, None, None)

  const EmailEmpty: string := "Email cannot be empty"
  const PasswordEmpty: string := "Password cannot be empty"
  const LoginSuccessful: string := "Login successful"
  const AccountCreatedMessage: string := "Account created successfully"

  /** A signed-in state always knows the user's email. */
  predicate SignedInHasEmail(s: AuthState) {
    s.isSignedIn ==> s.userEmail.Some?
  }

  /** The field errors set when the fields are not both filled in: each error names its own blank field. */
  function FieldErrors(s: AuthState, email: string, password: string): (t: AuthState)
    ensures t.emailError.Some? <==> IsBlank(email)
    ensures t.passwordError.Some? <==> IsBlank(password)
    ensures t.emailError.Some? ==> t.emailError.value == EmailEmpty
    ensures t.passwordError.Some? ==> t.passwordError.value == PasswordEmpty
    ensures t.(emailError := s.emailError, passwordError := s.passwordError) == s
  {
    s.(emailError := if IsBlank(email) then Some(EmailEmpty) else None,
       passwordError := if IsBlank(password) then Some(PasswordEmpty) else None)
  }

  /** The state after a failed sign-in or sign-up: only loading and the error change. */
  function FailedAuth(s: AuthState, message: Option<string>): (t: AuthState)
    ensures !t.isLoading && t.error == message
    ensures t.(isLoading := s.isLoading, error := s.error) == s
  {
    s.(isLoading := false, error := message)
  }

  class AuthViewModel {
    var state: AuthState
    /** The values written to the remember-me preference, oldest first. */
    var rememberMeWrites: seq<bool>

    /** The state invariant every handler keeps. */
    predicate Valid()
      reads this
    {
      SignedInHasEmail(state)
    }

    /** A fresh view model; its `init` block starts `checkUser`, whose emissions arrive in `CheckUserEmission`. */
    constructor()
      ensures state == DefaultAuthState && rememberMeWrites == []
      ensures Valid()
    {
      state := DefaultAuthState;
      rememberMeWrites := [];
    }

    /** The part of `signIn` before the repository answers. */
    method BeginSignIn(email: string, password: string) returns (launched: bool)
      requires Valid()
      modifies this`state
      ensures launched <==> !IsBlank(email) && !IsBlank(password)
      ensures !launched ==> state == FieldErrors(old(state), email, password)
      ensures launched ==> state == old(state).(isLoading := true, error := None)
      ensures Valid()
    {
      if IsBlank(email) || IsBlank(password) {
        state := FieldErrors(state, email, password);
        return false;
      }
      state := state.(isLoading := true, error := None);
      return true;
    }

    /**
     * The rest of `signIn`: on success the preference is set when asked to, and
     * the user is signed in with the name the repository currently knows.
     */
    method CompleteSignIn(email: string, rememberMe: bool, result: AuthResult, currentName: Option<string>)
      requires Valid()
      modifies this`state, this`rememberMeWrites
      ensures result.AuthSuccess? ==> state == old(state).(
        isLoading := false, successMessage := Some(LoginSuccessful), isSignedIn := true,
        userEmail := Some(email), userName := currentName)
      ensures result.AuthSuccess? ==> rememberMeWrites == old(rememberMeWrites) + if rememberMe then [true] else []
      ensures result.AuthFailure? ==> state == FailedAuth(old(state), result.message)
      ensures result.AuthFailure? ==> rememberMeWrites == old(rememberMeWrites)
      ensures Valid()
    {
      match result
      case AuthSuccess =>
        if rememberMe {
          rememberMeWrites := rememberMeWrites + [true];
        }
        state := state.(isLoading := false, successMessage := Some(LoginSuccessful), isSignedIn := true,
                        userEmail := Some(email), userName := currentName);
      case AuthFailure(message) =>
        state := FailedAuth(state, message);
    }

    /** The part of `signUp` before the repository answers; the name is not validated. */
    method BeginSignUp(email: string, password: string) returns (launched: bool)
      requires Valid()
      modifies this`state
      ensures launched <==> !IsBlank(email) && !IsBlank(password)
      ensures !launched ==> state == FieldErrors(old(state), email, password)
      ensures launched ==> state == old(state).(isLoading := true, error := None)
      ensures Valid()
    {
      if IsBlank(email) || IsBlank(password) {
        state := FieldErrors(state, email, password);
        return false;
      }
      state := state.(isLoading := true, error := None);
      return true;
    }

    /** The rest of `signUp`: success signs the new user in with the entered email and name. */
    method CompleteSignUp(userName: string, email: string, result: AuthResult)
      requires Valid()
      modifies this`state
      ensures result.AuthSuccess? ==> state == old(state).(
        isLoading := false, successMessage := Some(AccountCreatedMessage), isSignedIn := true,
        userEmail := Some(email), userName := Some(userName))
      ensures result.AuthFailure? ==> state == FailedAuth(old(state), result.message)
      ensures Valid()
    {
      match result
      case AuthSuccess =>
        state := state.(isLoading := false, successMessage := Some(AccountCreatedMessage), isSignedIn := true,
                        userEmail := Some(email), userName := Some(userName));
      case AuthFailure(message) =>
        state := FailedAuth(state, message);
    }

    /** `signOut`: whatever the repository answers, remember-me is cleared and the state starts over. */
    method SignOut()
      modifies this`state, this`rememberMeWrites
      ensures state == DefaultAuthState
      ensures rememberMeWrites == old(rememberMeWrites) + [false]
      ensures Valid()
    {
      rememberMeWrites := rememberMeWrites + [false];
      state := DefaultAuthState;
    }

    /** One value of the remember-me flow collected by `checkUser`, with the current email and name. */
    method CheckUserEmission(remember: bool, email: Option<string>, name: Option<string>)
      modifies this`state
      ensures state == old(state).(
        isSignedIn := remember && email.Some?,
        userEmail := if remember then email else None,
        userName := name)
      ensures state.isSignedIn <==> remember && email.Some?
      ensures Valid()
    {
      state := state.(isSignedIn := remember && email.Some?, userEmail := if remember then email else None, userName := name);
    }
  }
}
