/** `ChatViewModel`: one channel's conversation. It loads the channel's messages
    as the listener delivers them and sends text messages as the stored session's
    user. Every value assigned to a LiveData is kept, in order: the last one is the
    current value, and `uiState` starts with no value at all. */
module Chat {
  import opened Common
  import opened ChatModel
  import opened Collaborators
  import opened Preferences
  import opened UserRepository
  import opened Auth
  import opened ChatData
  import opened ChatRepository

  datatype ChatUiState =
    | Loading
    | Success(messages: seq<Message>)
    | Empty
    | Error(message: string, cause: Option<Exception>)

  const LOAD_FAILED_MESSAGE: string := "Failed to load messages."
  const SEND_FAILED_MESSAGE: string := "Failed to send message."
  const NO_SESSION_MESSAGE: string := "User session not found. Cannot load messages."

  /** The state shown for one emission of the message flow: an empty list is Empty,
      never Success([]); a failure shows its message, or the fallback when it has none. */
  function StateFor(r: Result<seq<Message>>): (s: ChatUiState)
    ensures s.Empty? <==> r.Success? && r.value == []
    ensures s.Success? <==> r.Success? && r.value != []
    ensures s.Success? ==> s.messages == r.value
    ensures s.Error? <==> r.Failure?
    ensures r.Failure? ==> s == Error(MessageOr(r.error, LOAD_FAILED_MESSAGE), Some(r.error))
  {
    match r
    case Success(messages) => if messages == [] then Empty else ChatUiState.Success(messages)
    case Failure(e) => Error(MessageOr(e, LOAD_FAILED_MESSAGE), Some(e))
  }

  /** The states shown for a sequence of emissions, one per emission, in order. */
  function StatesFor(rs: seq<Result<seq<Message>>>): (ss: seq<ChatUiState>)
    ensures |ss| == |rs|
    ensures forall i :: 0 <= i < |rs| ==> ss[i] == StateFor(rs[i])
  {
    if rs == [] then [] else StatesFor(rs[..|rs| - 1]) + [StateFor(rs[|rs| - 1])]
  }

  /** The state shown when sending fails with `e`. */
  function SendFailedState(e: Exception): (s: ChatUiState)
    ensures s.Error? && s.cause == Some(e)
    ensures e.message.Some? ==> s.message == e.message.value
    ensures e.message.None? ==> s.message == SEND_FAILED_MESSAGE
  {
    Error(MessageOr(e, SEND_FAILED_MESSAGE), Some(e))
  }

  /** The id `init` leaves in `currentUserId`: the stored session id, or nothing
      when the read throws and ends the coroutine. */
  function InitialUserId(stored: Completion<Option<string>>): (id: Option<string>)
    ensures stored.Normal? ==> id == stored.value
    ensures stored.Threw? ==> id.None?
  {
    match stored
    case Normal(v) => v
    case Threw(_) => None
  }

  class ChatViewModel {
    /** `_uiState`: every value assigned, oldest first; empty before the first one. */
    var uiStates: seq<ChatUiState>
    /** `_messageSentStatus`: the flag of every status event. */
    var messageSentStatus: seq<bool>
    var currentChannelId: Option<string>
    var currentUserId: Option<string>
    var currentUserName: Option<string>

    const authSource: FirebaseAuthDataSource
    const chatRepository: ChatRepositoryImpl
    const userRepository: UserRepositoryImpl

    /** Whether the current value of `uiState` is a Success. */
    predicate ShowsMessages()
      reads this
    {
      uiStates != [] && uiStates[|uiStates| - 1].Success?
    }

    /** `init`: reads the stored session id once; `readFault` is what the read
        throws, if anything. The signed-in user is looked up but not used. */
    constructor (authSource: FirebaseAuthDataSource, chatRepository: ChatRepositoryImpl,
                 userRepository: UserRepositoryImpl, readFault: Option<Exception>)
      ensures this.authSource == authSource && this.chatRepository == chatRepository
      ensures this.userRepository == userRepository
      ensures uiStates == [] && messageSentStatus == []
      ensures currentChannelId.None?
      ensures currentUserName == Some(DEFAULT_ANONYMOUS_DISPLAY_NAME)
      ensures currentUserId == InitialUserId(SessionIdFlow(ReadOf(userRepository.source.dataStore.prefs, readFault)))
    {
      this.authSource := authSource;
      this.chatRepository := chatRepository;
      this.userRepository := userRepository;
      uiStates := [];
      messageSentStatus := [];
      currentChannelId := None;
      currentUserId := None;
      currentUserName := Some(DEFAULT_ANONYMOUS_DISPLAY_NAME);
      new;
      var stored := userRepository.GetSessionIdOnce(readFault);
      if stored.Normal? {
        currentUserId := stored.value;
      }
    }

    /** `loadMessages(channelId)`: nothing to do when this channel is already shown
        with messages. Otherwise the channel becomes current and the screen shows
        Loading; a missing or blank user id is re-read once, and if it is still
        missing or blank the load ends in the no-session error; otherwise one state
        per emission of the channel's message flow follows. `readFault` is what the
        re-read throws, if anything; a throw ends the load after Loading. `escaped`
        is the exception that ends the coroutine, if any: the re-read's, or the
        listener error that `collectLatest` rethrows after showing it. */
    method LoadMessages(channelId: string, readFault: Option<Exception>, events: seq<ListenerEvent<Message>>)
        returns (escaped: Option<Exception>)
      modifies this
      ensures messageSentStatus == old(messageSentStatus) && currentUserName == old(currentUserName)
      ensures old(currentChannelId) == Some(channelId) && old(ShowsMessages()) ==>
        && escaped.None?
        && uiStates == old(uiStates)
        && currentChannelId == old(currentChannelId)
        && currentUserId == old(currentUserId)
      ensures !(old(currentChannelId) == Some(channelId) && old(ShowsMessages())) ==>
        && currentChannelId == Some(channelId)
        && (!IsNullOrBlank(old(currentUserId)) ==>
              && escaped == CloseCause(Emissions(events))
              && currentUserId == old(currentUserId)
              && uiStates == old(uiStates) + [Loading] + StatesFor(Emissions(events)))
        && (IsNullOrBlank(old(currentUserId)) ==>
              var reread := SessionIdFlow(ReadOf(userRepository.source.dataStore.prefs, readFault));
              && (reread.Threw? ==>
                    && escaped == Some(reread.e)
                    && currentUserId == old(currentUserId) && uiStates == old(uiStates) + [Loading])
              && (reread.Normal? && IsNullOrBlank(reread.value) ==>
                    && escaped.None?
                    && currentUserId == reread.value
                    && uiStates == old(uiStates) + [Loading, Error(NO_SESSION_MESSAGE, None)])
              && (reread.Normal? && !IsNullOrBlank(reread.value) ==>
                    && escaped == CloseCause(Emissions(events))
                    && currentUserId == reread.value
                    && uiStates == old(uiStates) + [Loading] + StatesFor(Emissions(events))))
    {
      if currentChannelId == Some(channelId) && ShowsMessages() {
        return None;
      }
      currentChannelId := Some(channelId);
      uiStates := uiStates + [Loading];
      if IsNullOrBlank(currentUserId) {
        var stored := userRepository.GetSessionIdOnce(readFault);
        if stored.Threw? {
          // The exception ends the coroutine: nothing more happens.
          return Some(stored.e);
        }
        currentUserId := stored.value;
        if IsNullOrBlank(currentUserId) {
          uiStates := uiStates + [Error(NO_SESSION_MESSAGE, None)];
          return None;
        }
      }
      escaped := CollectMessages(channelId, events);
    }

    /** The collecting part of `loadMessages`: one state per emission of the
        channel's message flow, which closes after its first failure. `collectLatest`
        then rethrows that failure: it escapes the coroutine as `escaped`, after its
        Error is shown. */
    method CollectMessages(channelId: string, events: seq<ListenerEvent<Message>>)
        returns (escaped: Option<Exception>)
      modifies this
      ensures uiStates == old(uiStates) + StatesFor(Emissions(events))
      ensures escaped == CloseCause(Emissions(events))
      ensures escaped.Some? ==>
        uiStates[|uiStates| - 1] == Error(MessageOr(escaped.value, LOAD_FAILED_MESSAGE), escaped)
      ensures messageSentStatus == old(messageSentStatus) && currentUserName == old(currentUserName)
      ensures currentChannelId == old(currentChannelId) && currentUserId == old(currentUserId)
    {
      var emissions := chatRepository.GetMessages(channelId, events);
      var i := 0;
      while i < |emissions|
        invariant 0 <= i <= |emissions|
        invariant uiStates == old(uiStates) + StatesFor(emissions[..i])
        invariant messageSentStatus == old(messageSentStatus) && currentUserName == old(currentUserName)
        invariant currentChannelId == old(currentChannelId) && currentUserId == old(currentUserId)
      {
        match emissions[i] {
          case Success(messages) =>
            if messages == [] {
              uiStates := uiStates + [Empty];
            } else {
              uiStates := uiStates + [ChatUiState.Success(messages)];
            }
          case Failure(e) =>
            uiStates := uiStates + [Error(MessageOr(e, LOAD_FAILED_MESSAGE), Some(e))];
        }
        assert emissions[..i + 1][..i] == emissions[..i];
        i := i + 1;
      }
      assert emissions[..i] == emissions;
      escaped := CloseCause(emissions);
    }

    /** `sendMessage(text)`: nothing happens without a current channel or user id
        (a blank id is not caught here); blank text posts a failed status; otherwise
        the text is sent as the current user, and the status reports the repository's
        result, with a failure also shown on screen. `now`, `newId`, `insertFault` and
        `mergeFault` are the clock, the generated key and what the store's two writes
        throw, if anything. */
    method SendMessage(text: string, now: Timestamp, newId: string,
                       insertFault: Option<Exception>, mergeFault: Option<Exception>)
      modifies this, chatRepository.source.store, chatRepository.source.store.log
      ensures currentChannelId == old(currentChannelId) && currentUserId == old(currentUserId)
      ensures currentUserName == old(currentUserName)
      ensures old(currentChannelId).None? || old(currentUserId).None? || IsBlank(text) ==>
        && uiStates == old(uiStates)
        && chatRepository.source.store.messages == old(chatRepository.source.store.messages)
        && chatRepository.source.store.channels == old(chatRepository.source.store.channels)
        && chatRepository.source.store.log.calls == old(chatRepository.source.store.log.calls)
      ensures old(currentChannelId).None? || old(currentUserId).None? ==>
        messageSentStatus == old(messageSentStatus)
      ensures old(currentChannelId).Some? && old(currentUserId).Some? && IsBlank(text) ==>
        messageSentStatus == old(messageSentStatus) + [false]
      ensures old(currentChannelId).Some? && old(currentUserId).Some? && !IsBlank(text) ==>
        var channelId := old(currentChannelId).value;
        var senderId := old(currentUserId).value;
        var built := BuildMessage(channelId, Some(text), None, senderId, currentUserName, now);
        var r := SendMessageResult(channelId, Some(text), None, senderId, currentUserName, now, newId, insertFault, mergeFault);
        && messageSentStatus == old(messageSentStatus) + [r.Success?]
        && uiStates == old(uiStates) + (if r.Failure? then [SendFailedState(r.error)] else [])
        && chatRepository.source.store.messages ==
             (if built.Success? then MessagesAfterSend(old(chatRepository.source.store.messages), built.value, newId, insertFault)
              else old(chatRepository.source.store.messages))
        && chatRepository.source.store.channels ==
             (if built.Success? then ChannelsAfterSend(old(chatRepository.source.store.channels), built.value, insertFault, mergeFault)
              else old(chatRepository.source.store.channels))
        && chatRepository.source.store.log.calls ==
             old(chatRepository.source.store.log.calls) + (if built.Success? then SendCalls(built.value, insertFault) else [])
    {
      if currentChannelId.None? || currentUserId.None? {
        return;
      }
      if IsBlank(text) {
        messageSentStatus := messageSentStatus + [false];
        return;
      }
      var r := chatRepository.SendMessage(currentChannelId.value, Some(text), None, currentUserId.value,
                                          currentUserName, now, newId, insertFault, mergeFault);
      match r {
        case Success(_) =>
          messageSentStatus := messageSentStatus + [true];
        case Failure(e) =>
          messageSentStatus := messageSentStatus + [false];
          uiStates := uiStates + [SendFailedState(e)];
      }
    }

    /** `getCurrentUserId()`. */
    function CurrentUserId(): Option<string>
      reads this
    {
      currentUserId
    }
  }

  /** What the screen settles on after a load that reached the listener. */
  function ShownAfterLoad(events: seq<ListenerEvent<Message>>): ChatUiState
  {
    var shown := [Loading] + StatesFor(Emissions(events));
    shown[|shown| - 1]
  }

  /** A listener error is final: whatever the listener would deliver after its first
      error, the screen settles on that error. */
  lemma ListenerErrorIsFinal(events: seq<ListenerEvent<Message>>, k: nat)
    requires k < |events| && events[k].ListenerError?
    requires forall j :: 0 <= j < k ==> events[j].Snapshot?
    ensures ShownAfterLoad(events) == Error(MessageOr(events[k].e, LOAD_FAILED_MESSAGE), Some(events[k].e))
  {
    FirstErrorClosesFlow(events, k);
  }

  /** Without listener errors the screen settles on the latest snapshot's messages,
      or Empty when it holds none. */
  lemma LatestSnapshotWins(events: seq<ListenerEvent<Message>>)
    requires events != []
    requires forall j :: 0 <= j < |events| ==> events[j].Snapshot?
    ensures var docs := events[|events| - 1].docs;
      var messages := if docs.Some? then docs.value else [];
      ShownAfterLoad(events) == (if messages == [] then Empty else ChatUiState.Success(messages))
  {
    NoErrorEmitsAll(events);
  }

  /** A message sent from the chat screen is a TEXT message with no image, from the
      current user under the default display name, stamped with the client clock. */
  lemma SentMessageIsPlainText(channelId: string, senderId: string, text: string, now: Timestamp)
    requires !IsBlank(text) && !IsBlank(senderId)
    ensures BuildMessage(channelId, Some(text), None, senderId, Some(DEFAULT_ANONYMOUS_DISPLAY_NAME), now)
      == Result.Success(Message("", channelId, senderId, DEFAULT_ANONYMOUS_DISPLAY_NAME, Some(text), None, now, TextMessage))
  {
  }

  /** A blank but non-null user id passes the screen's own check and is refused by
      the repository: the status is false and the screen shows the sender error. */
  lemma BlankUserIdFailsInRepository(channelId: string, senderId: string, text: string, now: Timestamp,
                                     newId: string, insertFault: Option<Exception>, mergeFault: Option<Exception>)
    requires IsBlank(senderId) && !IsBlank(text)
    ensures var r := SendMessageResult(channelId, Some(text), None, senderId, Some(DEFAULT_ANONYMOUS_DISPLAY_NAME),
                                       now, newId, insertFault, mergeFault);
      && r.Failure?
      && SendFailedState(r.error) == Error(BLANK_SENDER_MESSAGE, Some(Raised(IllegalArgumentException, BLANK_SENDER_MESSAGE)))
  {
  }

  /** A send that reports success stored the message under the generated key in
      its channel; a failed status can still follow a stored message when only the
      summary merge failed. */
  lemma SentStatusAndStoredMessage(messages: map<string, seq<MessageDoc>>, channelId: string, senderId: string,
                                   text: string, now: Timestamp, newId: string,
                                   insertFault: Option<Exception>, mergeFault: Option<Exception>)
    requires SendMessageResult(channelId, Some(text), None, senderId, Some(DEFAULT_ANONYMOUS_DISPLAY_NAME),
                               now, newId, insertFault, mergeFault).Success?
    ensures var m := BuildMessage(channelId, Some(text), None, senderId, Some(DEFAULT_ANONYMOUS_DISPLAY_NAME), now).value;
      && channelId in MessagesAfterSend(messages, m, newId, insertFault)
      && MessageDoc(newId, m) in MessagesAfterSend(messages, m, newId, insertFault)[channelId]
  {
  }
}
