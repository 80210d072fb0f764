/** `UserPreferencesDataSource`: the session id kept under the single key
    `session_id` of the preferences store. Reads degrade an `IOException` to "no
    session"; writes swallow an `IOException`. */
module Preferences {
  import opened Common
  import opened ChatModel
  import opened Collaborators

  /** What one read of the store's `data` produced: the whole preference map, or an exception. */
  datatype StoreRead = Read(prefs: map<string, string>) | ReadThrew(e: Exception)

  /** The read of a store whose read throws `fault`, if any, and otherwise yields `prefs`. */
  function ReadOf(prefs: map<string, string>, fault: Option<Exception>): StoreRead
  {
    if fault.None? then Read(prefs) else ReadThrew(fault.value)
  }

  /** One emission of `sessionIdFlow`: an `IOException` is replaced by empty
      preferences, so it reads as no session; any other exception is rethrown; a
      successful read yields the value under `session_id`, or null. */
  function SessionIdFlow(read: StoreRead): (r: Completion<Option<string>>)
    ensures r.Threw? <==> read.ReadThrew? && read.e.kind != IOException
    ensures r.Threw? ==> r.e == read.e
    ensures read.ReadThrew? && read.e.kind == IOException ==> r == Normal(None)
    ensures read.Read? ==> r == Normal(Lookup(read.prefs, SESSION_ID_KEY))
  {
    match read
    case Read(prefs) => Normal(Lookup(prefs, SESSION_ID_KEY))
    case ReadThrew(e) => if e.kind == IOException then Normal(Lookup(map[], SESSION_ID_KEY)) else Threw(e)
  }

  /** `p` and `q` agree on every key other than `session_id`. */
  ghost predicate AgreeBesidesSession(p: map<string, string>, q: map<string, string>)
  {
    forall k :: k != SESSION_ID_KEY ==> Lookup(p, k) == Lookup(q, k)
  }

  /** The edit of `saveSessionId`: `session_id` is set, nothing else changes. */
  function WithSessionId(prefs: map<string, string>, sessionId: string): (p: map<string, string>)
    ensures Lookup(p, SESSION_ID_KEY) == Some(sessionId)
    ensures AgreeBesidesSession(prefs, p)
  {
    prefs[SESSION_ID_KEY := sessionId]
  }

  /** The edit of `clearSessionId`: `session_id` is removed, nothing else changes. */
  function WithoutSessionId(prefs: map<string, string>): (p: map<string, string>)
    ensures Lookup(p, SESSION_ID_KEY).None?
    ensures AgreeBesidesSession(prefs, p)
  {
    prefs - {SESSION_ID_KEY}
  }

  /** What leaves `try { edit } catch (e: IOException) { }`: an `IOException` is
      swallowed, the call then returns normally; any other exception escapes. */
  function SwallowingIO(edit: Completion<()>): (r: Completion<()>)
    ensures r.Threw? <==> edit.Threw? && edit.e.kind != IOException
    ensures r.Threw? ==> r == edit
  {
    if edit.Threw? && edit.e.kind == IOException then Normal(()) else edit
  }

  class UserPreferencesDataSource {
    const dataStore: PreferenceStore

    constructor (dataStore: PreferenceStore)
      ensures this.dataStore == dataStore
    {
      this.dataStore := dataStore;
    }

    /** The first value of `sessionIdFlow`, read now; `readFault` is what the store's read throws, if anything. */
    method FirstSessionId(readFault: Option<Exception>) returns (r: Completion<Option<string>>)
      ensures r == SessionIdFlow(ReadOf(dataStore.prefs, readFault))
    {
      r := SessionIdFlow(ReadOf(dataStore.prefs, readFault));
    }

    /** `saveSessionId`: `fault` is what the store's edit throws, if anything. */
    method SaveSessionId(sessionId: string, fault: Option<Exception>) returns (r: Completion<()>)
      modifies dataStore, dataStore.log
      ensures dataStore.prefs == (if fault.None? then WithSessionId(old(dataStore.prefs), sessionId) else old(dataStore.prefs))
      ensures r == SwallowingIO(Outcome(fault, ()))
      ensures dataStore.log.calls == old(dataStore.log.calls) + [PrefsEdit]
    {
      var edit := dataStore.Edit(WithSessionId(dataStore.prefs, sessionId), fault);
      if edit.Threw? && edit.e.kind == IOException {
        r := Normal(());
      } else {
        r := edit;
      }
    }

    /** `clearSessionId`: `fault` is what the store's edit throws, if anything. */
    method ClearSessionId(fault: Option<Exception>) returns (r: Completion<()>)
      modifies dataStore, dataStore.log
      ensures dataStore.prefs == (if fault.None? then WithoutSessionId(old(dataStore.prefs)) else old(dataStore.prefs))
      ensures r == SwallowingIO(Outcome(fault, ()))
      ensures dataStore.log.calls == old(dataStore.log.calls) + [PrefsEdit]
    {
      var edit := dataStore.Edit(WithoutSessionId(dataStore.prefs), fault);
      if edit.Threw? && edit.e.kind == IOException {
        r := Normal(());
      } else {
        r := edit;
      }
    }
  }

  /** A completed save is read back, whatever was stored before. */
  lemma SaveThenRead(prefs: map<string, string>, sessionId: string)
    ensures SessionIdFlow(Read(WithSessionId(prefs, sessionId))) == Normal(Some(sessionId))
  {
  }

  /** Saving twice keeps only the second value. */
  lemma SaveOverwrites(prefs: map<string, string>, first: string, second: string)
    ensures WithSessionId(WithSessionId(prefs, first), second) == WithSessionId(prefs, second)
  {
  }

  /** After a completed clear, no session is read; clearing twice is clearing once. */
  lemma ClearThenRead(prefs: map<string, string>)
    ensures SessionIdFlow(Read(WithoutSessionId(prefs))) == Normal(None)
    ensures WithoutSessionId(WithoutSessionId(prefs)) == WithoutSessionId(prefs)
  {
  }

  /** A swallowed write failure leaves the store exactly as it was while the call
      returns normally: a later read yields the old value, so the caller cannot tell
      that nothing was saved. `after` is the store `saveSessionId` leaves for `fault`. */
  lemma SwallowedSaveKeepsOldValue(prefs: map<string, string>, sessionId: string, fault: Option<Exception>)
    requires fault.Some? && fault.value.kind == IOException
    ensures SwallowingIO(Outcome(fault, ())) == Normal(())
    ensures var after := if fault.None? then WithSessionId(prefs, sessionId) else prefs;
      && after == prefs
      && SessionIdFlow(Read(after)) == Normal(Lookup(prefs, SESSION_ID_KEY))
      && (Lookup(prefs, SESSION_ID_KEY) != Some(sessionId) ==>
            SessionIdFlow(Read(after)) != SessionIdFlow(Read(WithSessionId(prefs, sessionId))))
  {
  }
}
