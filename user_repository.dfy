/** `UserRepositoryImpl`: the session id as `Result` values over the preference data
    source. `currentSessionId` is the data source's `sessionIdFlow` itself, so one
    emission of it is `Preferences.SessionIdFlow`. */
module UserRepository {
  import opened Common
  import opened ChatModel
  import opened Collaborators
  import opened Preferences

  /** The result `saveSessionId` and `clearSessionId` report when the store's edit
      throws `fault`, if anything: success unless a non-IO exception escaped the
      data source, and then that exception as the failure. */
  function WriteResult(fault: Option<Exception>): (r: Result<()>)
    ensures r.Failure? <==> fault.Some? && fault.value.kind != IOException
    ensures r.Failure? ==> r.error == fault.value
  {
    Catching(SwallowingIO(Outcome(fault, ())))
  }

  class UserRepositoryImpl {
    const source: UserPreferencesDataSource

    constructor (source: UserPreferencesDataSource)
      ensures this.source == source
    {
      this.source := source;
    }

    method SaveSessionId(sessionId: string, fault: Option<Exception>) returns (r: Result<()>)
      modifies source.dataStore, source.dataStore.log
      ensures r == WriteResult(fault)
      ensures source.dataStore.prefs == (if fault.None? then WithSessionId(old(source.dataStore.prefs), sessionId) else old(source.dataStore.prefs))
      ensures source.dataStore.log.calls == old(source.dataStore.log.calls) + [PrefsEdit]
    {
      var c := source.SaveSessionId(sessionId, fault);
      match c {
        case Normal(_) => r := Success(());
        case Threw(e) => r := Failure(e);
      }
    }

    method ClearSessionId(fault: Option<Exception>) returns (r: Result<()>)
      modifies source.dataStore, source.dataStore.log
      ensures r == WriteResult(fault)
      ensures source.dataStore.prefs == (if fault.None? then WithoutSessionId(old(source.dataStore.prefs)) else old(source.dataStore.prefs))
      ensures source.dataStore.log.calls == old(source.dataStore.log.calls) + [PrefsEdit]
    {
      var c := source.ClearSessionId(fault);
      match c {
        case Normal(_) => r := Success(());
        case Threw(e) => r := Failure(e);
      }
    }

    /** `sessionIdFlow.firstOrNull()`; not wrapped, so a non-IO read exception propagates. */
    method GetSessionIdOnce(readFault: Option<Exception>) returns (r: Completion<Option<string>>)
      ensures r == SessionIdFlow(ReadOf(source.dataStore.prefs, readFault))
    {
      r := source.FirstSessionId(readFault);
    }
  }

  /** `saveSessionId(s)` that reports success, then `getSessionIdOnce()` with a
      working read: `s` comes back, unless the save's failure was an `IOException`
      that was swallowed, in which case the old value comes back. */
  lemma SaveThenGetOnce(prefs: map<string, string>, sessionId: string, fault: Option<Exception>)
    requires WriteResult(fault).Success?
    ensures var after := if fault.None? then WithSessionId(prefs, sessionId) else prefs;
      SessionIdFlow(ReadOf(after, None)) == Normal(if fault.None? then Some(sessionId) else Lookup(prefs, SESSION_ID_KEY))
  {
  }

  /** `clearSessionId()` that reports success, then `getSessionIdOnce()` with a
      working read: null, unless an `IOException` was swallowed. */
  lemma ClearThenGetOnce(prefs: map<string, string>, fault: Option<Exception>)
    requires WriteResult(fault).Success?
    ensures var after := if fault.None? then WithoutSessionId(prefs) else prefs;
      SessionIdFlow(ReadOf(after, None)) == Normal(if fault.None? then None else Lookup(prefs, SESSION_ID_KEY))
  {
  }
}
