/** `SplashViewModel`: decides once, at start-up, whether a remembered user is signed in. */
module SplashPresentation {
  import opened Wrappers

  datatype SplashState = SplashState(isChecking: bool, isSignedIn: bool, userEmail: Option<string>)

  const InitialSplashState: SplashState := SplashState(true, false, None)

  class SplashViewModel {
    var state: SplashState

    /** A signed-in state always knows the user's email. */
    predicate Valid()
      reads this
    {
      state.isSignedIn ==> state.userEmail.Some?
    }

    constructor()
      ensures state == InitialSplashState
      ensures Valid()
    {
      state := InitialSplashState;
    }

    /**
     * `checkUser`, completed: `remember` is the first value of the remember-me
     * preference and `email` the current user's email, if any.
     */
    method CheckUser(remember: bool, email: Option<string>)
      modifies this
      ensures !state.isChecking
      ensures state.isSignedIn <==> remember && email.Some?
      ensures state.userEmail == if remember then email else None
      ensures Valid()
    {
      state := state.(isChecking := false, isSignedIn := remember && email.Some?, userEmail := if remember then email else None);
    }
  }
}
