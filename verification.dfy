/** `VerificationViewModel`: the verification screen's state machine
    Idle -> Loading -> Success | Error, and its auto-login on construction. Every
    value assigned to a LiveData is kept, in order: the last one is the current
    value, and each one was seen by the screen's observers. */
module Verification {
  import opened Common
  import opened ChatModel
  import opened Collaborators
  import opened Preferences
  import opened UserRepository
  import opened Auth

  datatype VerificationState =
    | Idle
    | Loading
    | Success(sessionId: string)
    | Error(message: string, cause: Option<Exception>)

  const EMPTY_CODE_MESSAGE: string := "Verification code cannot be empty."
  const SAVE_FAILED_MESSAGE: string := "Failed to save session."
  const VERIFICATION_FAILED_MESSAGE: string := "Verification failed."

  /** The session `checkIfAlreadyLoggedIn` resumes, given the stored session id read
      at start-up and the signed-in user: only a non-blank stored id with a signed-in
      user qualifies. A read that throws ends the check with nothing resumed. */
  function AutoLoginSession(stored: Completion<Option<string>>, user: Option<User>): (id: Option<string>)
    ensures id.Some? <==> stored.Normal? && !IsNullOrBlank(stored.value) && user.Some?
    ensures id.Some? ==> stored.value == id
  {
    if stored.Normal? && !IsNullOrBlank(stored.value) && user.Some? then stored.value else None
  }

  /** The state `verifyCode` settles in after Loading, given what the auth data
      source returned and what saving the session returned (consulted only when the
      code was verified). */
  function VerifyOutcome(verified: Result<string>, saved: Result<()>): (s: VerificationState)
    ensures s.Success? <==> verified.Success? && saved.Success?
    ensures s.Success? ==> s.sessionId == verified.value
    ensures verified.Failure? ==> s == Error(MessageOr(verified.error, VERIFICATION_FAILED_MESSAGE), Some(verified.error))
    ensures verified.Success? && saved.Failure? ==> s == Error(MessageOr(saved.error, SAVE_FAILED_MESSAGE), Some(saved.error))
  {
    match verified
    case Failure(e) => Error(MessageOr(e, VERIFICATION_FAILED_MESSAGE), Some(e))
    case Success(sessionId) =>
      match saved
      case Failure(e) => Error(MessageOr(e, SAVE_FAILED_MESSAGE), Some(e))
      case Success(_) => VerificationState.Success(sessionId)
  }

  class VerificationViewModel {
    /** `_verificationState`: every value assigned, oldest first. */
    var states: seq<VerificationState>
    /** `_navigateToMain`: the session id of every navigation event. */
    var navigateToMain: seq<string>

    const authSource: FirebaseAuthDataSource
    const userRepository: UserRepositoryImpl

    /** The auth service and the preference store record into the same call log. */
    predicate Wired()
    {
      authSource.auth.log == userRepository.source.dataStore.log
    }

    /** `init`: starts Idle, then runs `checkIfAlreadyLoggedIn`; `readFault` is what
        reading the stored session id throws, if anything. */
    constructor (authSource: FirebaseAuthDataSource, userRepository: UserRepositoryImpl, readFault: Option<Exception>)
      ensures this.authSource == authSource && this.userRepository == userRepository
      ensures var resumed := AutoLoginSession(
          SessionIdFlow(ReadOf(userRepository.source.dataStore.prefs, readFault)), authSource.auth.currentUser);
        && states == [Idle] + (if resumed.Some? then [VerificationState.Success(resumed.value)] else [])
        && navigateToMain == (if resumed.Some? then [resumed.value] else [])
    {
      this.authSource := authSource;
      this.userRepository := userRepository;
      states := [Idle];
      navigateToMain := [];
      new;
      var _ := CheckIfAlreadyLoggedIn(readFault);
    }

    /** `checkIfAlreadyLoggedIn()`: resume a stored session when a user is signed in.
        `escaped` is the exception of a throwing session read, which ends the coroutine. */
    method CheckIfAlreadyLoggedIn(readFault: Option<Exception>) returns (escaped: Option<Exception>)
      modifies this
      ensures var stored := SessionIdFlow(ReadOf(userRepository.source.dataStore.prefs, readFault));
        escaped == (if stored.Threw? then Some(stored.e) else None)
      ensures var resumed := AutoLoginSession(
          SessionIdFlow(ReadOf(userRepository.source.dataStore.prefs, readFault)), authSource.auth.currentUser);
        && states == old(states) + (if resumed.Some? then [VerificationState.Success(resumed.value)] else [])
        && navigateToMain == old(navigateToMain) + (if resumed.Some? then [resumed.value] else [])
    {
      var existing := userRepository.GetSessionIdOnce(readFault);
      if existing.Threw? {
        // The exception ends the coroutine: nothing more happens.
        return Some(existing.e);
      }
      escaped := None;
      if !IsNullOrBlank(existing.value) && authSource.CurrentUser().Some? {
        states := states + [VerificationState.Success(existing.value.value)];
        navigateToMain := navigateToMain + [existing.value.value];
      }
    }

    /** `verifyCode(code)`; `signIn` answers the sign-in the auth data source may
        make, `saveFault` is what saving the session throws, if anything. */
    method VerifyCode(code: string, signIn: Completion<Option<User>>, saveFault: Option<Exception>)
      requires Wired()
      modifies this, authSource.auth, authSource.auth.log, userRepository.source.dataStore
      ensures IsBlank(code) ==>
        && states == old(states) + [Error(EMPTY_CODE_MESSAGE, None)]
        && navigateToMain == old(navigateToMain)
        && authSource.auth.currentUser == old(authSource.auth.currentUser)
        && userRepository.source.dataStore.prefs == old(userRepository.source.dataStore.prefs)
        && authSource.auth.log.calls == old(authSource.auth.log.calls)
      ensures !IsBlank(code) ==>
        var verified := VerifyCodeResult(code, old(authSource.auth.currentUser), signIn);
        var outcome := VerifyOutcome(verified, WriteResult(saveFault));
        && states == old(states) + [Loading, outcome]
        && navigateToMain == old(navigateToMain) + (if outcome.Success? then [outcome.sessionId] else [])
        && authSource.auth.currentUser == UserAfterVerify(code, old(authSource.auth.currentUser), signIn)
        && userRepository.source.dataStore.prefs ==
             (if verified.Success? && saveFault.None?
              then WithSessionId(old(userRepository.source.dataStore.prefs), verified.value)
              else old(userRepository.source.dataStore.prefs))
        && authSource.auth.log.calls == old(authSource.auth.log.calls)
             + (if SignsIn(code, old(authSource.auth.currentUser)) then [AuthSignInAnonymously] else [])
             + (if verified.Success? then [PrefsEdit] else [])
    {
      if IsBlank(code) {
        states := states + [Error(EMPTY_CODE_MESSAGE, None)];
        return;
      }
      states := states + [Loading];
      var verified := authSource.VerifyCodeAndEstablishSession(code, signIn);
      match verified {
        case Success(sessionId) =>
          var saved := userRepository.SaveSessionId(sessionId, saveFault);
          match saved {
            case Success(_) =>
              states := states + [VerificationState.Success(sessionId)];
              navigateToMain := navigateToMain + [sessionId];
            case Failure(e) =>
              states := states + [Error(MessageOr(e, SAVE_FAILED_MESSAGE), Some(e))];
          }
        case Failure(e) =>
          states := states + [Error(MessageOr(e, VERIFICATION_FAILED_MESSAGE), Some(e))];
      }
    }
  }

  /** The screen reaches Success only with the exact valid code and a session
      write that did not report failure, and the id it shows is the uid of the user
      signed in afterwards. */
  lemma SuccessNeedsValidCodeAndSave(code: string, current: Option<User>, signIn: Completion<Option<User>>, saveFault: Option<Exception>)
    requires VerifyOutcome(VerifyCodeResult(code, current, signIn), WriteResult(saveFault)).Success?
    ensures code == VALID_CODE
    ensures saveFault.None? || saveFault.value.kind == IOException
    ensures UserAfterVerify(code, current, signIn).Some?
    ensures VerifyOutcome(VerifyCodeResult(code, current, signIn), WriteResult(saveFault)).sessionId
      == UserAfterVerify(code, current, signIn).value.uid
  {
    SessionIdIsCurrentUid(code, current, signIn);
  }

  /** A code that is not blank but is not the valid code ends in the
      invalid-code error, after Loading, whatever the signed-in user. */
  lemma WrongCodeShowsInvalidCode(code: string, current: Option<User>, signIn: Completion<Option<User>>, saveFault: Option<Exception>)
    requires code != VALID_CODE
    ensures VerifyOutcome(VerifyCodeResult(code, current, signIn), WriteResult(saveFault))
      == Error(INVALID_CODE_MESSAGE, Some(Raised(OtherException, INVALID_CODE_MESSAGE)))
  {
  }
}
