/** `ChannelListViewModel`: the channel list screen. It checks that a user is signed
    in, shows the channels as the listener delivers them, creates channels and signs
    out. Every value assigned to a LiveData is kept, in order: the last one is the
    current value. */
module ChannelList {
  import opened Common
  import opened ChatModel
  import opened Collaborators
  import opened Preferences
  import opened UserRepository
  import opened Auth
  import opened ChatData
  import opened ChatRepository

  datatype ChannelListUiState =
    | Loading
    | Success(channels: seq<Channel>)
    | Empty
    | Error(message: string, cause: Option<Exception>)

  const LOAD_FAILED_MESSAGE: string := "Failed to load channels."
  const CREATE_FAILED_MESSAGE: string := "Failed to create channel."

  /** The state shown for one emission of the channel flow: an empty list is Empty,
      never Success([]); a failure shows its message, or the fallback when it has none. */
  function StateFor(r: Result<seq<Channel>>): (s: ChannelListUiState)
    ensures s.Empty? <==> r.Success? && r.value == []
    ensures s.Success? <==> r.Success? && r.value != []
    ensures s.Success? ==> s.channels == r.value
    ensures s.Error? <==> r.Failure?
    ensures r.Failure? ==> s == Error(MessageOr(r.error, LOAD_FAILED_MESSAGE), Some(r.error))
  {
    match r
    case Success(channels) => if channels == [] then Empty else ChannelListUiState.Success(channels)
    case Failure(e) => Error(MessageOr(e, LOAD_FAILED_MESSAGE), Some(e))
  }

  /** The states shown for a sequence of emissions, one per emission, in order. */
  function StatesFor(rs: seq<Result<seq<Channel>>>): (ss: seq<ChannelListUiState>)
    ensures |ss| == |rs|
    ensures forall i :: 0 <= i < |rs| ==> ss[i] == StateFor(rs[i])
  {
    if rs == [] then [] else StatesFor(rs[..|rs| - 1]) + [StateFor(rs[|rs| - 1])]
  }

  /** The guard of `fetchCurrentUserAndChannels`: no signed-in user, or a null or
      blank current user id. Since a signed-in user's uid is never null, the session
      is lost exactly when there is no user or its uid is blank. */
  function SessionLost(user: Option<User>): (lost: bool)
    ensures lost <==> user.None? || IsBlank(user.value.uid)
  {
    user.None? || IsNullOrBlank(if user.Some? then Some(user.value.uid) else None)
  }

  /** What the list settles on after `loadChannels` with listener `events`. */
  function ShownAfterLoad(events: seq<ListenerEvent<Channel>>): ChannelListUiState
  {
    var shown := [Loading] + StatesFor(Emissions(events));
    shown[|shown| - 1]
  }

  class ChannelListViewModel {
    /** `_uiState`: every value assigned, oldest first; it starts at Loading. */
    var uiStates: seq<ChannelListUiState>
    /** `_navigateToChat`: the channel of every navigation event. */
    var navigateToChat: seq<Channel>
    /** `_navigateToVerification`: how many navigation events were posted. */
    var navigateToVerification: nat
    var currentUserId: Option<string>

    const authSource: FirebaseAuthDataSource
    const chatRepository: ChatRepositoryImpl
    const userRepository: UserRepositoryImpl

    /** The auth service and the preference store record into the same call log. */
    predicate Wired()
    {
      authSource.auth.log == userRepository.source.dataStore.log
    }

    /** `init`: starts at Loading, then runs `fetchCurrentUserAndChannels`. */
    constructor (authSource: FirebaseAuthDataSource, chatRepository: ChatRepositoryImpl,
                 userRepository: UserRepositoryImpl, clearFault: Option<Exception>,
                 events: seq<ListenerEvent<Channel>>)
      modifies userRepository.source.dataStore, userRepository.source.dataStore.log
      ensures this.authSource == authSource && this.chatRepository == chatRepository
      ensures this.userRepository == userRepository
      ensures navigateToChat == []
      ensures var user := authSource.auth.currentUser;
        && currentUserId == (if user.Some? then Some(user.value.uid) else None)
        && (SessionLost(user) ==>
              && uiStates == [Loading]
              && navigateToVerification == 1
              && userRepository.source.dataStore.prefs ==
                   (if clearFault.None? then WithoutSessionId(old(userRepository.source.dataStore.prefs))
                    else old(userRepository.source.dataStore.prefs))
              && userRepository.source.dataStore.log.calls == old(userRepository.source.dataStore.log.calls) + [PrefsEdit])
        && (!SessionLost(user) ==>
              && uiStates == [Loading, Loading] + StatesFor(Emissions(events))
              && navigateToVerification == 0
              && userRepository.source.dataStore.prefs == old(userRepository.source.dataStore.prefs)
              && userRepository.source.dataStore.log.calls == old(userRepository.source.dataStore.log.calls))
    {
      this.authSource := authSource;
      this.chatRepository := chatRepository;
      this.userRepository := userRepository;
      uiStates := [Loading];
      navigateToChat := [];
      navigateToVerification := 0;
      currentUserId := None;
      new;
      var _ := FetchCurrentUserAndChannels(clearFault, events);
    }

    /** `fetchCurrentUserAndChannels()`: with the session lost, clear the stored
        session id (its result is ignored) and navigate to verification; otherwise
        load the channels. `clearFault` is what clearing the id throws, if anything;
        `escaped` is the listener error that ends the loading coroutine, if any. */
    method FetchCurrentUserAndChannels(clearFault: Option<Exception>, events: seq<ListenerEvent<Channel>>)
        returns (escaped: Option<Exception>)
      modifies this, userRepository.source.dataStore, userRepository.source.dataStore.log
      ensures navigateToChat == old(navigateToChat)
      ensures escaped == (if SessionLost(authSource.auth.currentUser) then None else CloseCause(Emissions(events)))
      ensures var user := authSource.auth.currentUser;
        && currentUserId == (if user.Some? then Some(user.value.uid) else None)
        && (SessionLost(user) ==>
              && uiStates == old(uiStates)
              && navigateToVerification == old(navigateToVerification) + 1
              && userRepository.source.dataStore.prefs ==
                   (if clearFault.None? then WithoutSessionId(old(userRepository.source.dataStore.prefs))
                    else old(userRepository.source.dataStore.prefs))
              && userRepository.source.dataStore.log.calls == old(userRepository.source.dataStore.log.calls) + [PrefsEdit])
        && (!SessionLost(user) ==>
              && uiStates == old(uiStates) + [Loading] + StatesFor(Emissions(events))
              && navigateToVerification == old(navigateToVerification)
              && userRepository.source.dataStore.prefs == old(userRepository.source.dataStore.prefs)
              && userRepository.source.dataStore.log.calls == old(userRepository.source.dataStore.log.calls))
    {
      var user := authSource.CurrentUser();
      currentUserId := if user.Some? then Some(user.value.uid) else None;
      if user.None? || IsNullOrBlank(currentUserId) {
        var _ := userRepository.ClearSessionId(clearFault);
        navigateToVerification := navigateToVerification + 1;
        return None;
      }
      escaped := LoadChannels(events);
    }

    /** `loadChannels()`: Loading, then one state per emission of the channel flow,
        which closes after its first failure. `collectLatest` then rethrows that
        failure: it escapes the coroutine as `escaped`, after its Error is shown. */
    method LoadChannels(events: seq<ListenerEvent<Channel>>) returns (escaped: Option<Exception>)
      modifies this
      ensures uiStates == old(uiStates) + [Loading] + StatesFor(Emissions(events))
      ensures escaped == CloseCause(Emissions(events))
      ensures escaped.Some? ==>
        uiStates[|uiStates| - 1] == Error(MessageOr(escaped.value, LOAD_FAILED_MESSAGE), escaped)
      ensures navigateToChat == old(navigateToChat) && navigateToVerification == old(navigateToVerification)
      ensures currentUserId == old(currentUserId)
    {
      uiStates := uiStates + [Loading];
      var emissions := chatRepository.GetChannels(events);
      var i := 0;
      while i < |emissions|
        invariant 0 <= i <= |emissions|
        invariant uiStates == old(uiStates) + [Loading] + StatesFor(emissions[..i])
        invariant navigateToChat == old(navigateToChat) && navigateToVerification == old(navigateToVerification)
        invariant currentUserId == old(currentUserId)
      {
        match emissions[i] {
          case Success(channels) =>
            if channels == [] {
              uiStates := uiStates + [Empty];
            } else {
              uiStates := uiStates + [ChannelListUiState.Success(channels)];
            }
          case Failure(e) =>
            uiStates := uiStates + [Error(MessageOr(e, LOAD_FAILED_MESSAGE), Some(e))];
        }
        assert emissions[..i + 1][..i] == emissions[..i];
        i := i + 1;
      }
      assert emissions[..i] == emissions;
      escaped := CloseCause(emissions);
    }

    /** `onChannelClicked(channel)`: one navigation event carrying the channel. */
    method OnChannelClicked(channel: Channel)
      modifies this
      ensures navigateToChat == old(navigateToChat) + [channel]
      ensures uiStates == old(uiStates) && navigateToVerification == old(navigateToVerification)
      ensures currentUserId == old(currentUserId)
    {
      navigateToChat := navigateToChat + [channel];
    }

    /** `createNewChannel(name, description)`: a blank name is ignored; otherwise the
        channel is created by the current user id, and only a failure changes the
        screen. `now`, `newId` and `fault` are the clock, the generated key and what
        the store's add throws, if anything. */
    method CreateNewChannel(name: string, description: Option<string>, now: Timestamp,
                            newId: string, fault: Option<Exception>)
      modifies this, chatRepository.source.store, chatRepository.source.store.log
      ensures navigateToChat == old(navigateToChat) && navigateToVerification == old(navigateToVerification)
      ensures currentUserId == old(currentUserId)
      ensures chatRepository.source.store.messages == old(chatRepository.source.store.messages)
      ensures IsBlank(name) ==>
        && uiStates == old(uiStates)
        && chatRepository.source.store.channels == old(chatRepository.source.store.channels)
        && chatRepository.source.store.log.calls == old(chatRepository.source.store.log.calls)
      ensures !IsBlank(name) ==>
        && uiStates == old(uiStates) + (if fault.Some? then [Error(MessageOr(fault.value, CREATE_FAILED_MESSAGE), fault)] else [])
        && chatRepository.source.store.channels ==
             (if fault.None? then old(chatRepository.source.store.channels)[newId := NewChannel(name, description, currentUserId, now)]
              else old(chatRepository.source.store.channels))
        && chatRepository.source.store.log.calls == old(chatRepository.source.store.log.calls) + [StoreAddChannel]
    {
      if IsBlank(name) {
        return;
      }
      var r := chatRepository.CreateChannel(name, description, currentUserId, now, newId, fault);
      if r.Failure? {
        uiStates := uiStates + [Error(MessageOr(r.error, CREATE_FAILED_MESSAGE), Some(r.error))];
      }
    }

    /** `refreshChannels()`: the user check and the load again. */
    method RefreshChannels(clearFault: Option<Exception>, events: seq<ListenerEvent<Channel>>)
        returns (escaped: Option<Exception>)
      modifies this, userRepository.source.dataStore, userRepository.source.dataStore.log
      ensures navigateToChat == old(navigateToChat)
      ensures escaped == (if SessionLost(authSource.auth.currentUser) then None else CloseCause(Emissions(events)))
      ensures var user := authSource.auth.currentUser;
        && currentUserId == (if user.Some? then Some(user.value.uid) else None)
        && (SessionLost(user) ==>
              && uiStates == old(uiStates)
              && navigateToVerification == old(navigateToVerification) + 1
              && userRepository.source.dataStore.prefs ==
                   (if clearFault.None? then WithoutSessionId(old(userRepository.source.dataStore.prefs))
                    else old(userRepository.source.dataStore.prefs))
              && userRepository.source.dataStore.log.calls == old(userRepository.source.dataStore.log.calls) + [PrefsEdit])
        && (!SessionLost(user) ==>
              && uiStates == old(uiStates) + [Loading] + StatesFor(Emissions(events))
              && navigateToVerification == old(navigateToVerification)
              && userRepository.source.dataStore.prefs == old(userRepository.source.dataStore.prefs)
              && userRepository.source.dataStore.log.calls == old(userRepository.source.dataStore.log.calls))
    {
      escaped := FetchCurrentUserAndChannels(clearFault, events);
    }

    /** `signOut()`: sign out, clear the stored session id, navigate to verification.
        Both calls report failure through their results, so the navigation always
        happens. */
    method SignOut(signOutFault: Option<Exception>, clearFault: Option<Exception>)
      requires Wired()
      modifies this, authSource.auth, authSource.auth.log, userRepository.source.dataStore
      ensures navigateToVerification == old(navigateToVerification) + 1
      ensures uiStates == old(uiStates) && navigateToChat == old(navigateToChat)
      ensures currentUserId == old(currentUserId)
      ensures authSource.auth.currentUser == (if signOutFault.None? then None else old(authSource.auth.currentUser))
      ensures userRepository.source.dataStore.prefs ==
        (if clearFault.None? then WithoutSessionId(old(userRepository.source.dataStore.prefs))
         else old(userRepository.source.dataStore.prefs))
      ensures authSource.auth.log.calls == old(authSource.auth.log.calls) + [AuthSignOut, PrefsEdit]
    {
      authSource.SignOut(signOutFault);
      var _ := userRepository.ClearSessionId(clearFault);
      navigateToVerification := navigateToVerification + 1;
    }
  }

  /** A listener error is final: whatever the listener would deliver after its first
      error, the list settles on that error. */
  lemma ListenerErrorIsFinal(events: seq<ListenerEvent<Channel>>, k: nat)
    requires k < |events| && events[k].ListenerError?
    requires forall j :: 0 <= j < k ==> events[j].Snapshot?
    ensures ShownAfterLoad(events) == Error(MessageOr(events[k].e, LOAD_FAILED_MESSAGE), Some(events[k].e))
  {
    FirstErrorClosesFlow(events, k);
  }

  /** Without listener errors the list settles on the latest snapshot: Empty when it
      holds no channel, otherwise exactly its channels. */
  lemma LatestSnapshotWins(events: seq<ListenerEvent<Channel>>)
    requires events != []
    requires forall j :: 0 <= j < |events| ==> events[j].Snapshot?
    ensures var docs := events[|events| - 1].docs;
      var channels := if docs.Some? then docs.value else [];
      ShownAfterLoad(events) == (if channels == [] then Empty else ChannelListUiState.Success(channels))
  {
    NoErrorEmitsAll(events);
  }

  /** A failed create is not sticky: its Error stays current only until the next
      load. When `refreshChannels` follows with the session kept and its listener
      delivers snapshots without error, the list settles on Empty or Success again. */
  lemma CreateErrorIsNotSticky(before: seq<ChannelListUiState>, e: Exception,
                               events: seq<ListenerEvent<Channel>>)
    requires events != []
    requires forall j :: 0 <= j < |events| ==> events[j].Snapshot?
    ensures var afterCreate := before + [Error(MessageOr(e, CREATE_FAILED_MESSAGE), Some(e))];
      var afterRefresh := afterCreate + [Loading] + StatesFor(Emissions(events));
      && afterCreate[|afterCreate| - 1].Error?
      && (afterRefresh[|afterRefresh| - 1].Empty? || afterRefresh[|afterRefresh| - 1].Success?)
  {
    NoErrorEmitsAll(events);
  }

  /** `createNewChannel` failing and then `refreshChannels` with the session kept,
      run on one view model: the create's Error is shown, and a listener that
      delivers only snapshots then settles the list on Empty or Success. */
  method CreateFailureThenRefresh(vm: ChannelListViewModel, name: string, description: Option<string>,
                                  now: Timestamp, newId: string, e: Exception,
                                  clearFault: Option<Exception>, events: seq<ListenerEvent<Channel>>)
    requires !IsBlank(name) && !SessionLost(vm.authSource.auth.currentUser)
    requires events != []
    requires forall j :: 0 <= j < |events| ==> events[j].Snapshot?
    modifies vm, vm.chatRepository.source.store, vm.chatRepository.source.store.log
    modifies vm.userRepository.source.dataStore, vm.userRepository.source.dataStore.log
    ensures var afterCreate := old(vm.uiStates) + [Error(MessageOr(e, CREATE_FAILED_MESSAGE), Some(e))];
      vm.uiStates == afterCreate + [Loading] + StatesFor(Emissions(events))
    ensures vm.uiStates[|vm.uiStates| - 1].Empty? || vm.uiStates[|vm.uiStates| - 1].Success?
  {
    vm.CreateNewChannel(name, description, now, newId, Some(e));
    var escaped := vm.RefreshChannels(clearFault, events);
    CreateErrorIsNotSticky(old(vm.uiStates), e, events);
  }
}
