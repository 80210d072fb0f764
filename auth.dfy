/** `FirebaseAuthDataSource`: the shared verification code, and the anonymous
    identity it establishes. `AuthRepositoryImpl` forwards each call unchanged, so the
    screens below call this data source directly. */
module Auth {
  import opened Common
  import opened ChatModel
  import opened Collaborators

  /** The one code that is accepted. */
  const VALID_CODE: string := "123456"

  const INVALID_CODE_MESSAGE: string := "Invalid verification code provided."
  const NO_UID_MESSAGE: string := "Failed to establish anonymous session or get UID."
  const NULL_USER_MESSAGE: string := "Firebase user is null after anonymous sign-in."
  const ESTABLISHMENT_ERROR_PREFIX: string := "Error during anonymous session establishment: "

  /** Whether `verifyCodeAndEstablishSession` signs in: only for the valid code
      while nobody is signed in. */
  predicate SignsIn(code: string, current: Option<User>)
  {
    code == VALID_CODE && current.None?
  }

  /** What `signInAnonymously` returns for the service's answer `response`. */
  function SignInResult(response: Completion<Option<User>>): (r: Result<User>)
    ensures r.Success? <==> response.Normal? && response.value.Some?
    ensures r.Success? ==> r.value == response.value.value
    ensures response.Normal? && response.value.None? ==> r == Failure(Raised(OtherException, NULL_USER_MESSAGE))
    ensures response.Threw? ==> r == Failure(response.e)
  {
    match response
    case Normal(Some(user)) => Success(user)
    case Normal(None) => Failure(Raised(OtherException, NULL_USER_MESSAGE))
    case Threw(e) => Failure(e)
  }

  /** What `verifyCodeAndEstablishSession(code)` returns, given the user signed in
      before the call and the service's answer to the sign-in it may make. */
  function VerifyCodeResult(code: string, current: Option<User>, signIn: Completion<Option<User>>): (r: Result<string>)
    ensures code != VALID_CODE ==> r == Failure(Raised(OtherException, INVALID_CODE_MESSAGE))
    ensures code == VALID_CODE && current.Some? ==> r == Success(current.value.uid)
    ensures SignsIn(code, current) ==>
      && (r.Success? <==> signIn.Normal? && signIn.value.Some?)
      && (r.Success? ==> r.value == signIn.value.value.uid)
      && (signIn == Normal(None) ==> r == Failure(Raised(OtherException, NO_UID_MESSAGE)))
      && (signIn.Threw? ==> r == Failure(Raised(OtherException, ESTABLISHMENT_ERROR_PREFIX + MessageText(signIn.e))))
  {
    if code != VALID_CODE then
      Failure(Raised(OtherException, INVALID_CODE_MESSAGE))
    else
      var answer: Completion<Option<User>> := if current.Some? then Normal(current) else signIn;
      match answer
      case Normal(Some(user)) => Success(user.uid)
      case Normal(None) => Failure(Raised(OtherException, NO_UID_MESSAGE))
      case Threw(e) => Failure(Raised(OtherException, ESTABLISHMENT_ERROR_PREFIX + MessageText(e)))
  }

  /** The user signed in after `verifyCodeAndEstablishSession`. */
  function UserAfterVerify(code: string, current: Option<User>, signIn: Completion<Option<User>>): (u: Option<User>)
    ensures !SignsIn(code, current) ==> u == current
    ensures SignsIn(code, current) && signIn.Normal? && signIn.value.Some? ==> u == signIn.value
    ensures SignsIn(code, current) && !(signIn.Normal? && signIn.value.Some?) ==> u.None?
  {
    if SignsIn(code, current) && signIn.Normal? && signIn.value.Some? then signIn.value else current
  }

  class FirebaseAuthDataSource {
    const auth: AuthService

    constructor (auth: AuthService)
      ensures this.auth == auth
    {
      this.auth := auth;
    }

    /** `getCurrentUser()`: the auth service's signed-in user, if any. */
    function CurrentUser(): (u: Option<User>)
      reads auth
      ensures u == auth.currentUser
    {
      auth.currentUser
    }

    method SignInAnonymously(response: Completion<Option<User>>) returns (r: Result<User>)
      modifies auth, auth.log
      ensures r == SignInResult(response)
      ensures auth.currentUser == (if r.Success? then Some(r.value) else old(auth.currentUser))
      ensures auth.log.calls == old(auth.log.calls) + [AuthSignInAnonymously]
    {
      var c := auth.SignInAnonymously(response);
      match c {
        case Normal(Some(user)) => r := Success(user);
        case Normal(None) => r := Failure(Raised(OtherException, NULL_USER_MESSAGE));
        case Threw(e) => r := Failure(e);
      }
    }

    /** `verifyCodeAndEstablishSession(code)`; `signIn` is the service's answer to a
        sign-in, used only when one is made. */
    method VerifyCodeAndEstablishSession(code: string, signIn: Completion<Option<User>>) returns (r: Result<string>)
      modifies auth, auth.log
      ensures r == VerifyCodeResult(code, old(auth.currentUser), signIn)
      ensures auth.currentUser == UserAfterVerify(code, old(auth.currentUser), signIn)
      ensures auth.log.calls == old(auth.log.calls) + (if SignsIn(code, old(auth.currentUser)) then [AuthSignInAnonymously] else [])
    {
      if code == VALID_CODE {
        var user := auth.currentUser;
        if user.None? {
          var c := auth.SignInAnonymously(signIn);
          if c.Threw? {
            return Failure(Raised(OtherException, ESTABLISHMENT_ERROR_PREFIX + MessageText(c.e)));
          }
          user := c.value;
        }
        if user.Some? {
          r := Success(user.value.uid);
        } else {
          r := Failure(Raised(OtherException, NO_UID_MESSAGE));
        }
      } else {
        r := Failure(Raised(OtherException, INVALID_CODE_MESSAGE));
      }
    }

    /** `signOut()`: any exception from the service is swallowed. */
    method SignOut(fault: Option<Exception>)
      modifies auth, auth.log
      ensures auth.currentUser == (if fault.None? then None else old(auth.currentUser))
      ensures auth.log.calls == old(auth.log.calls) + [AuthSignOut]
    {
      var _ := auth.SignOut(fault);
    }
  }

  /** The code is compared exactly: a success implies the caller typed the valid
      code character for character, so padding or any other variant is refused. */
  lemma OnlyTheExactCodeVerifies(code: string, current: Option<User>, signIn: Completion<Option<User>>)
    requires VerifyCodeResult(code, current, signIn).Success?
    ensures code == VALID_CODE
  {
  }

  /** A signed-in user is reused: its uid is the session id and no sign-in happens. */
  lemma ExistingUserIsReused(current: User, signIn: Completion<Option<User>>)
    ensures VerifyCodeResult(VALID_CODE, Some(current), signIn) == Success(current.uid)
    ensures UserAfterVerify(VALID_CODE, Some(current), signIn) == Some(current)
    ensures !SignsIn(VALID_CODE, Some(current))
  {
  }

  /** On success the session id is the uid of the user signed in afterwards. */
  lemma SessionIdIsCurrentUid(code: string, current: Option<User>, signIn: Completion<Option<User>>)
    requires VerifyCodeResult(code, current, signIn).Success?
    ensures UserAfterVerify(code, current, signIn).Some?
    ensures VerifyCodeResult(code, current, signIn).value == UserAfterVerify(code, current, signIn).value.uid
  {
  }
}
