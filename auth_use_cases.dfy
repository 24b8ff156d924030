/**
 * The sign-in, sign-up and sign-out use cases. The repository's answer is an
 * input: it either completes with a `Result<Unit>` (success, or failure with
 * an exception whose message may be null) or throws. Each use case turns it
 * into a `Result<String>` whose text is shown to the user; vendor error
 * messages are mapped to friendly text by ordered, case-insensitive rules.
 */
module AuthUseCases {
  import opened Wrappers
  import opened Text

  /** `Result<Unit>` returned by the auth repository. */
  datatype AuthResult = AuthSuccess | AuthFailure(message: Option<string>)

  /** The repository call either completes with a result or throws an exception. */
  datatype RepoCall = Completed(result: AuthResult) | Threw(message: Option<string>)

  /** `Result<String>` returned by a use case: the message of a failure is never null. */
  datatype UseCaseResult = Success(value: string) | Failure(message: string)

  const UnknownError: string := "Unknown error"

  /** `e.message ?: "Unknown error"`. */
  function MessageOrUnknown(message: Option<string>): (text: string)
    ensures message.Some? ==> text == message.value
    ensures message.None? ==> text == UnknownError
  {
    message.GetOr(UnknownError)
  }

  // ---------------------------------------------------------------- sign in

  const WelcomeBack: string := "Welcome back \U{2600}\U{FE0F}"

  const NoUserRecord: string := "no user record"
  const PasswordIsInvalid: string := "password is invalid"
  const BadlyFormatted: string := "badly formatted"

  const NoAccountText: string := "No account found with this email."
  const IncorrectPasswordText: string := "Incorrect password."
  const InvalidEmailText: string := "Invalid email format."

  /** `SignInUseCase.mapFirebaseError`: the first rule whose phrase occurs wins; otherwise the message itself. */
  function MapSignInError(message: Option<string>): (text: string)
    ensures var msg := MessageOrUnknown(message);
      text == msg || text == NoAccountText || text == IncorrectPasswordText || text == InvalidEmailText
    ensures var msg := MessageOrUnknown(message);
      ContainsIgnoreCase(msg, NoUserRecord) ==> text == NoAccountText
    ensures var msg := MessageOrUnknown(message);
      !ContainsIgnoreCase(msg, NoUserRecord) && ContainsIgnoreCase(msg, PasswordIsInvalid) ==> text == IncorrectPasswordText
    ensures var msg := MessageOrUnknown(message);
      (!ContainsIgnoreCase(msg, NoUserRecord) && !ContainsIgnoreCase(msg, PasswordIsInvalid)
       && ContainsIgnoreCase(msg, BadlyFormatted)) ==> text == InvalidEmailText
    ensures var msg := MessageOrUnknown(message);
      (!ContainsIgnoreCase(msg, NoUserRecord) && !ContainsIgnoreCase(msg, PasswordIsInvalid)
       && !ContainsIgnoreCase(msg, BadlyFormatted)) ==> text == msg
  {
    var msg := MessageOrUnknown(message);
    if ContainsIgnoreCase(msg, NoUserRecord) then NoAccountText
    else if ContainsIgnoreCase(msg, PasswordIsInvalid) then IncorrectPasswordText
    else if ContainsIgnoreCase(msg, BadlyFormatted) then InvalidEmailText
    else msg
  }

  /** "No account found with this email." has no 'r' and no 'b', so no sign-in rule matches it. */
  lemma NoAccountTextFixed()
    ensures MapSignInError(Some(NoAccountText)) == NoAccountText
  {
    AbsentLetterIgnoreCase(NoAccountText, NoUserRecord, 6);
    AbsentLetterIgnoreCase(NoAccountText, PasswordIsInvalid, 6);
    AbsentLetterIgnoreCase(NoAccountText, BadlyFormatted, 0);
  }

  /** "Incorrect password." has no 'u', 'v' or 'b', so no sign-in rule matches it. */
  lemma IncorrectPasswordTextFixed()
    ensures MapSignInError(Some(IncorrectPasswordText)) == IncorrectPasswordText
  {
    AbsentLetterIgnoreCase(IncorrectPasswordText, NoUserRecord, 3);
    AbsentLetterIgnoreCase(IncorrectPasswordText, PasswordIsInvalid, 14);
    AbsentLetterIgnoreCase(IncorrectPasswordText, BadlyFormatted, 0);
  }

  /** "Invalid email format." has no 'u', 'p' or 'b', so no sign-in rule matches it. */
  lemma InvalidEmailTextFixedForSignIn()
    ensures MapSignInError(Some(InvalidEmailText)) == InvalidEmailText
  {
    AbsentLetterIgnoreCase(InvalidEmailText, NoUserRecord, 3);
    AbsentLetterIgnoreCase(InvalidEmailText, PasswordIsInvalid, 0);
    AbsentLetterIgnoreCase(InvalidEmailText, BadlyFormatted, 0);
  }

  /** Mapping an already mapped message changes nothing. */
  lemma SignInMappingIdempotent(message: Option<string>)
    ensures MapSignInError(Some(MapSignInError(message))) == MapSignInError(message)
  {
    NoAccountTextFixed();
    IncorrectPasswordTextFixed();
    InvalidEmailTextFixedForSignIn();
  }

  /** A null message is mapped as the text "Unknown error", which no rule matches. */
  lemma SignInUnknownError()
    ensures MapSignInError(None) == UnknownError
  {
    // "Unknown error" has no 's', 'p' or 'b'
    AbsentLetterIgnoreCase(UnknownError, NoUserRecord, 4);
    AbsentLetterIgnoreCase(UnknownError, PasswordIsInvalid, 0);
    AbsentLetterIgnoreCase(UnknownError, BadlyFormatted, 0);
  }

  /**
   * `SignInUseCase.invoke`: a failed result is rethrown with the mapped text and
   * the catch maps that text again; an exception from the repository is mapped once.
   */
  function SignIn(call: RepoCall): (r: UseCaseResult)
    ensures r.Success? <==> call == Completed(AuthSuccess)
    ensures r.Success? ==> r.value == WelcomeBack
    ensures call.Completed? && call.result.AuthFailure? ==> r == Failure(MapSignInError(call.result.message))
    ensures call.Threw? ==> r == Failure(MapSignInError(call.message))
  {
    match call
    case Completed(AuthSuccess) => Success(WelcomeBack)
    case Completed(AuthFailure(message)) =>
      SignInMappingIdempotent(message);
      Failure(MapSignInError(Some(MapSignInError(message))))
    case Threw(message) => Failure(MapSignInError(message))
  }

  // ---------------------------------------------------------------- sign up

  const AccountCreated: string := "Account created successfully \U{1F324}"

  const AlreadyInUse: string := "already in use"
  const WeakPassword: string := "WEAK_PASSWORD"
  const PasswordShouldBe: string := "Password should be at least"

  const InUseText: string := "This email is already in use. Try logging in instead."
  const ShortPasswordText: string := "Password should be at least 6 characters."

  predicate IsWeakPasswordMessage(msg: string) {
    ContainsIgnoreCase(msg, WeakPassword) || ContainsIgnoreCase(msg, PasswordShouldBe)
  }

  /** `SignUpUseCase.mapFirebaseError`: the first rule whose phrase occurs wins; otherwise the message itself. */
  function MapSignUpError(message: Option<string>): (text: string)
    ensures var msg := MessageOrUnknown(message);
      text == msg || text == InUseText || text == InvalidEmailText || text == ShortPasswordText
    ensures var msg := MessageOrUnknown(message);
      ContainsIgnoreCase(msg, AlreadyInUse) ==> text == InUseText
    ensures var msg := MessageOrUnknown(message);
      !ContainsIgnoreCase(msg, AlreadyInUse) && ContainsIgnoreCase(msg, BadlyFormatted) ==> text == InvalidEmailText
    ensures var msg := MessageOrUnknown(message);
      (!ContainsIgnoreCase(msg, AlreadyInUse) && !ContainsIgnoreCase(msg, BadlyFormatted)
       && IsWeakPasswordMessage(msg)) ==> text == ShortPasswordText
    ensures var msg := MessageOrUnknown(message);
      (!ContainsIgnoreCase(msg, AlreadyInUse) && !ContainsIgnoreCase(msg, BadlyFormatted)
       && !IsWeakPasswordMessage(msg)) ==> text == msg
  {
    var msg := MessageOrUnknown(message);
    if ContainsIgnoreCase(msg, AlreadyInUse) then InUseText
    else if ContainsIgnoreCase(msg, BadlyFormatted) then InvalidEmailText
    else if IsWeakPasswordMessage(msg) then ShortPasswordText
    else msg
  }

  /** "This email is already in use. ..." holds its own phrase at index 14, so it maps to itself. */
  lemma InUseTextFixed()
    ensures MapSignUpError(Some(InUseText)) == InUseText
  {
    PresentIgnoreCase(InUseText, AlreadyInUse, 14);
  }

  /** "Invalid email format." has no 'u', 'b', 'k' or 'p', so no sign-up rule matches it. */
  lemma InvalidEmailTextFixedForSignUp()
    ensures MapSignUpError(Some(InvalidEmailText)) == InvalidEmailText
  {
    AbsentLetterIgnoreCase(InvalidEmailText, AlreadyInUse, 11);
    AbsentLetterIgnoreCase(InvalidEmailText, BadlyFormatted, 0);
    AbsentLetterIgnoreCase(InvalidEmailText, WeakPassword, 3);
    AbsentLetterIgnoreCase(InvalidEmailText, PasswordShouldBe, 0);
  }

  /** "Password should be at least 6 characters." has no 'y' and starts with the weak-password phrase. */
  lemma ShortPasswordTextFixed()
    ensures MapSignUpError(Some(ShortPasswordText)) == ShortPasswordText
  {
    AbsentLetterIgnoreCase(ShortPasswordText, AlreadyInUse, 6);
    AbsentLetterIgnoreCase(ShortPasswordText, BadlyFormatted, 4);
    PresentIgnoreCase(ShortPasswordText, PasswordShouldBe, 0);
  }

  /** Mapping an already mapped message changes nothing. */
  lemma SignUpMappingIdempotent(message: Option<string>)
    ensures MapSignUpError(Some(MapSignUpError(message))) == MapSignUpError(message)
  {
    InUseTextFixed();
    InvalidEmailTextFixedForSignUp();
    ShortPasswordTextFixed();
  }

  /** A null message is mapped as the text "Unknown error", which no rule matches. */
  lemma SignUpUnknownError()
    ensures MapSignUpError(None) == UnknownError
  {
    // "Unknown error" has no 'a', 'b' or 's'
    AbsentLetterIgnoreCase(UnknownError, AlreadyInUse, 0);
    AbsentLetterIgnoreCase(UnknownError, BadlyFormatted, 0);
    AbsentLetterIgnoreCase(UnknownError, WeakPassword, 2);
    AbsentLetterIgnoreCase(UnknownError, PasswordShouldBe, 1);
  }

  /** `SignUpUseCase.invoke`, with the same rethrow-and-catch shape as sign-in. */
  function SignUp(call: RepoCall): (r: UseCaseResult)
    ensures r.Success? <==> call == Completed(AuthSuccess)
    ensures r.Success? ==> r.value == AccountCreated
    ensures call.Completed? && call.result.AuthFailure? ==> r == Failure(MapSignUpError(call.result.message))
    ensures call.Threw? ==> r == Failure(MapSignUpError(call.message))
  {
    match call
    case Completed(AuthSuccess) => Success(AccountCreated)
    case Completed(AuthFailure(message)) =>
      SignUpMappingIdempotent(message);
      Failure(MapSignUpError(Some(MapSignUpError(message))))
    case Threw(message) => Failure(MapSignUpError(message))
  }

  // ---------------------------------------------------------------- sign out

  const SignedOut: string := "Signed out successfully \U{1F327}"
  const SignOutFailed: string := "Sign-out failed: "

  /**
   * `SignOutUseCase.invoke` as written: a failed result is rethrown with the
   * prefixed text, and the catch prefixes that text once more.
   */
  function SignOutAsWritten(call: RepoCall): (r: UseCaseResult)
    ensures r.Success? <==> call == Completed(AuthSuccess)
    ensures r.Success? ==> r.value == SignedOut
    ensures r.Failure? ==> StartsWith(r.message, SignOutFailed)
    ensures call.Threw? ==> r.message == SignOutFailed + MessageOrUnknown(call.message)
  {
    match call
    case Completed(AuthSuccess) => Success(SignedOut)
    case Completed(AuthFailure(message)) =>
      Failure(SignOutFailed + (SignOutFailed + MessageOrUnknown(message)))
    case Threw(message) => Failure(SignOutFailed + MessageOrUnknown(message))
  }

  /**
   * A failed sign-out result carries the prefix twice, whatever the message:
   * removing the prefix once does not give back the underlying message.
   */
  lemma SignOutPrefixDoubled(message: Option<string>)
    ensures var r := SignOutAsWritten(Completed(AuthFailure(message)));
      && r.Failure?
      && r.message == SignOutFailed + SignOutFailed + MessageOrUnknown(message)
      && r.message[|SignOutFailed|..] != MessageOrUnknown(message)
  {
    var r := SignOutAsWritten(Completed(AuthFailure(message)));
    assert |r.message[|SignOutFailed|..]| != |MessageOrUnknown(message)|;
  }

  /** Sign-out as intended: every failure carries the prefix once, before the underlying message. */
  function SignOut(call: RepoCall): (r: UseCaseResult)
    ensures r.Success? <==> call == Completed(AuthSuccess)
    ensures r.Success? ==> r.value == SignedOut
    ensures r.Failure? ==> StartsWith(r.message, SignOutFailed)
  {
    match call
    case Completed(AuthSuccess) => Success(SignedOut)
    case Completed(AuthFailure(message)) => Failure(SignOutFailed + MessageOrUnknown(message))
    case Threw(message) => Failure(SignOutFailed + MessageOrUnknown(message))
  }

  /** The underlying message is recovered by removing the prefix once, whichever way the call failed. */
  lemma SignOutMessageRecovered(call: RepoCall)
    requires call != Completed(AuthSuccess)
    ensures var r := SignOut(call);
      r.Failure? && r.message[|SignOutFailed|..] == MessageOrUnknown(if call.Threw? then call.message else call.result.message)
  {
    var r := SignOut(call);
    var underlying := MessageOrUnknown(if call.Threw? then call.message else call.result.message);
    assert r.message == SignOutFailed + underlying;
  }
}
