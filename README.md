# Synapse chat client: session, verification and chat core in Dafny

Synapse is an Android chat client. A user types a shared verification code, gets an
anonymous identity whose uid serves as the session id, and then browses channels and
exchanges messages in them. This project models the part of the app that decides
what happens:

- the single-slot `session_id` store (`UserPreferencesDataSource`) and its `Result`
  wrapper (`UserRepositoryImpl`);
- the exact-match code check that reuses the signed-in anonymous user or signs one
  in (`FirebaseAuthDataSource`), and the Idle/Loading/Success/Error verification
  screen with its auto-login (`VerificationViewModel`);
- the message and channel write path: validation in a fixed order and record
  construction (`ChatRepositoryImpl`); the blank-channel guard, the message insert
  followed by the channel-summary merge, and the mapping of listener snapshots to
  `Result` values with the flow closing at the first error (`FirebaseChatDataSource`);
- the channel-list and chat screens (`ChannelListViewModel`, `ChatViewModel`): user
  checks, the Loading/Empty/Success/Error reducer, the guards on creating channels
  and sending messages, sign-out, and the send-status events.

How the model is built:

- **Collaborators.** The Firebase auth service, the Firestore document store and the
  DataStore preference file are three small classes (`Collaborators`). Each holds its
  abstract state: the current user; channels and per-channel message lists; a string
  map. All three record their calls in one shared ordered `CallLog`, so "no call was
  made", "insert before merge" and "sign-out before clear" can be stated.
- **Environment answers are parameters.** Every answer the environment gives is an
  argument of the operation that receives it. This covers exceptions a call throws
  (`Option<Exception>`), the sign-in answer, generated document keys, the client
  clock and the events a snapshot listener delivers.
- **Results and throws.** A Kotlin `Result` that is returned is `Result<T>`. A call
  that either returns or throws is `Completion<T>`.
- **LiveData.** Each `LiveData` is the sequence of every value assigned to it, oldest
  first; the last one is the current value. Navigation and status events are
  append-only sequences (a counter where the event carries `Unit`).
- **Coroutines** run to completion, one after the other, in the order they are
  launched. An exception that escapes a coroutine stops it, and nothing after that
  point happens. The loading operations return that exception as `escaped`.
- **Listener streams.** A listener subscription is the finite sequence of events it
  delivers. `ChatData.Emissions` is what the flow emits from them; a screen's states
  follow from the emissions, one state per emission. A flow closed by a listener
  error makes `collectLatest` rethrow that error once its Error state is shown
  (`ChatData.CloseCause`), so the collecting coroutine ends with it uncaught.

Three behaviours of the code shape many contracts:

- **Listener errors end the stream.** The data source reports the first listener
  error and then closes its flow, so a screen never recovers from a listener error
  within one subscription; only a new load subscribes again.
- **A failed summary update fails the send.** The message insert and the channel
  summary merge are two separate writes. When the merge throws after the insert
  succeeded, the message stays stored and the send is still reported as failed.
- **IO write failures are hidden.** An `IOException` while saving or clearing the
  session id is swallowed by the data source, so the repository reports success
  and the stored value is unchanged.

## Model

| member | source | states |
|---|---|---|
| Common.MessageOr | app/src/main/java/com/app/synapse/ui/main/ChannelListViewModel.kt:70-73 | an error's text is its message when it has one, otherwise the screen's fallback string |
| Common.Catching | app/src/main/java/com/app/synapse/data/source/remote/FirebaseChatDataSource.kt:50-55 | a call wrapped in try/catch succeeds with the call's value exactly when it returns, and fails with the thrown exception otherwise |
| Preferences.SessionIdFlow | app/src/main/java/com/app/synapse/data/source/local/UserPreferencesDataSource.kt:28-40 | a read yields the `session_id` entry or null; an IOException degrades to null; any other exception is rethrown unchanged |
| Preferences.WithSessionId | app/src/main/java/com/app/synapse/data/source/local/UserPreferencesDataSource.kt:44-46 | after the edit the key holds exactly the new id, and every other key is untouched |
| Preferences.WithoutSessionId | app/src/main/java/com/app/synapse/data/source/local/UserPreferencesDataSource.kt:55-57 | after the edit the key is absent, and every other key is untouched |
| Preferences.SwallowingIO | app/src/main/java/com/app/synapse/data/source/local/UserPreferencesDataSource.kt:47-50 | an edit still throws exactly when it threw a non-IO exception; an IOException becomes a normal return |
| Preferences.UserPreferencesDataSource.FirstSessionId | app/src/main/java/com/app/synapse/data/source/local/UserPreferencesDataSource.kt:28-40 | the first value of the session flow is the read mapping applied to the stored preferences |
| Preferences.UserPreferencesDataSource.SaveSessionId | app/src/main/java/com/app/synapse/data/source/local/UserPreferencesDataSource.kt:42-51 | one edit is made; on success the slot holds the id, on failure the store is unchanged; only non-IO exceptions escape |
| Preferences.UserPreferencesDataSource.ClearSessionId | app/src/main/java/com/app/synapse/data/source/local/UserPreferencesDataSource.kt:53-61 | one edit is made; on success the slot is empty, on failure the store is unchanged; only non-IO exceptions escape |
| Preferences.SaveThenRead | app/src/main/java/com/app/synapse/data/source/local/UserPreferencesDataSource.kt:38-46 | after a save, a read yields the saved id |
| Preferences.SaveOverwrites | app/src/main/java/com/app/synapse/data/source/local/UserPreferencesDataSource.kt:44-46 | a second save replaces the first: two saves equal the last save alone |
| Preferences.ClearThenRead | app/src/main/java/com/app/synapse/data/source/local/UserPreferencesDataSource.kt:53-57 | after a clear, a read yields null, and clearing twice equals clearing once |
| Preferences.SwallowedSaveKeepsOldValue | app/src/main/java/com/app/synapse/data/source/local/UserPreferencesDataSource.kt:42-51 | for every IOException fault, the save returns normally, the store it leaves is the old one, and a later read yields the old value rather than the new id |
| UserRepository.WriteResult | app/src/main/java/com/app/synapse/data/repository/UserRepositoryImpl.kt:16-32 | save and clear report failure exactly when a non-IO exception escaped the data source, and then carry that exception |
| UserRepository.UserRepositoryImpl.SaveSessionId | app/src/main/java/com/app/synapse/data/repository/UserRepositoryImpl.kt:16-23 | the data source's save, its outcome turned into a `Result` that is never thrown |
| UserRepository.UserRepositoryImpl.ClearSessionId | app/src/main/java/com/app/synapse/data/repository/UserRepositoryImpl.kt:25-32 | the data source's clear, its outcome turned into a `Result` that is never thrown |
| UserRepository.UserRepositoryImpl.GetSessionIdOnce | app/src/main/java/com/app/synapse/data/repository/UserRepositoryImpl.kt:34-36 | the first value of the data source's session flow, not wrapped: a non-IO read exception propagates |
| UserRepository.SaveThenGetOnce | app/src/main/java/com/app/synapse/data/repository/UserRepositoryImpl.kt:16-36 | a save reported as success followed by a read returns the saved id, or the old value when an IOException was swallowed |
| UserRepository.ClearThenGetOnce | app/src/main/java/com/app/synapse/data/repository/UserRepositoryImpl.kt:25-36 | a clear reported as success followed by a read returns null, or the old value when an IOException was swallowed |
| Collaborators.AuthService.SignInAnonymously | app/src/main/java/com/app/synapse/data/source/remote/FirebaseAuthDataSource.kt:27 | the service's answer is returned; a returned user becomes the current user; the call is logged |
| Collaborators.AuthService.SignOut | app/src/main/java/com/app/synapse/data/source/remote/FirebaseAuthDataSource.kt:57 | a sign-out that returns leaves no current user; the call is logged |
| Collaborators.PreferenceStore.Edit | app/src/main/java/com/app/synapse/data/source/local/UserPreferencesDataSource.kt:44-46 | an edit that returns installs the edited preferences, one that throws changes nothing; the call is logged |
| Collaborators.MergedSummary | app/src/main/java/com/app/synapse/data/source/remote/FirebaseChatDataSource.kt:105-111 | a merge sets the two summary fields and keeps every other field of an existing channel; a missing channel gets only those fields |
| Collaborators.DocumentStore.AddChannel | app/src/main/java/com/app/synapse/data/source/remote/FirebaseChatDataSource.kt:51 | an add that returns stores the channel under the generated key; the call is logged |
| Collaborators.DocumentStore.GetChannel | app/src/main/java/com/app/synapse/data/source/remote/FirebaseChatDataSource.kt:60-64 | a fetch returns the stored channel or null, and changes no data |
| Collaborators.DocumentStore.AddMessage | app/src/main/java/com/app/synapse/data/source/remote/FirebaseChatDataSource.kt:99-103 | an add that returns appends the message to its channel's list under the generated key; the call is logged |
| Collaborators.DocumentStore.MergeChannel | app/src/main/java/com/app/synapse/data/source/remote/FirebaseChatDataSource.kt:109-112 | a merge that returns replaces only the channel's summary, creating the document if it is missing; the call is logged |
| Auth.SignInResult | app/src/main/java/com/app/synapse/data/source/remote/FirebaseAuthDataSource.kt:23-35 | success exactly when the service returns a user; a missing user and a thrown exception are failures |
| Auth.VerifyCodeResult | app/src/main/java/com/app/synapse/data/source/remote/FirebaseAuthDataSource.kt:37-52 | a wrong code fails with the invalid-code message; a signed-in user's uid is returned; otherwise the signed-in uid, the no-UID failure or the wrapped exception |
| Auth.UserAfterVerify | app/src/main/java/com/app/synapse/data/source/remote/FirebaseAuthDataSource.kt:41 | the current user changes only when the valid code triggers a sign-in that returns a user |
| Auth.FirebaseAuthDataSource.CurrentUser | app/src/main/java/com/app/synapse/data/source/remote/FirebaseAuthDataSource.kt:17-21 | the auth service's signed-in user, or none, read without a service call |
| Auth.FirebaseAuthDataSource.SignInAnonymously | app/src/main/java/com/app/synapse/data/source/remote/FirebaseAuthDataSource.kt:23-35 | returns `SignInResult` of the service's answer and makes exactly one sign-in call |
| Auth.FirebaseAuthDataSource.VerifyCodeAndEstablishSession | app/src/main/java/com/app/synapse/data/source/remote/FirebaseAuthDataSource.kt:37-52 | returns `VerifyCodeResult`; signs in at most once, and only for the valid code while nobody is signed in |
| Auth.FirebaseAuthDataSource.SignOut | app/src/main/java/com/app/synapse/data/source/remote/FirebaseAuthDataSource.kt:54-62 | one sign-out call; a thrown exception is swallowed and leaves the user signed in |
| Auth.OnlyTheExactCodeVerifies | app/src/main/java/com/app/synapse/data/source/remote/FirebaseAuthDataSource.kt:39 | any success implies the code equals "123456" exactly |
| Auth.ExistingUserIsReused | app/src/main/java/com/app/synapse/data/source/remote/FirebaseAuthDataSource.kt:41-44 | with a signed-in user the valid code returns that user's uid, makes no sign-in and keeps the user |
| Auth.SessionIdIsCurrentUid | app/src/main/java/com/app/synapse/data/source/remote/FirebaseAuthDataSource.kt:41-44 | on success the returned id is the uid of the user signed in afterwards |
| Verification.AutoLoginSession | app/src/main/java/com/app/synapse/ui/verification/VerificationViewModel.kt:31-40 | a session is resumed exactly when the stored id reads as non-blank and a user is signed in, and it is the stored id |
| Verification.VerifyOutcome | app/src/main/java/com/app/synapse/ui/verification/VerificationViewModel.kt:52-76 | Success(id) exactly when verification and save both succeed; otherwise the failing step's error with its fallback message |
| Verification.VerificationViewModel.constructor | app/src/main/java/com/app/synapse/ui/verification/VerificationViewModel.kt:20-29 | the state starts Idle and gains Success(id) plus one navigation event only on auto-login; a throwing session read adds nothing |
| Verification.VerificationViewModel.CheckIfAlreadyLoggedIn | app/src/main/java/com/app/synapse/ui/verification/VerificationViewModel.kt:31-40 | appends Success(id) and one navigation event carrying id when `AutoLoginSession` resumes id; otherwise changes nothing. A non-IO exception from the session read escapes the coroutine as `escaped` |
| Verification.VerificationViewModel.VerifyCode | app/src/main/java/com/app/synapse/ui/verification/VerificationViewModel.kt:42-78 | a blank code: the empty-code error only, with no call. Otherwise Loading, then `VerifyOutcome`; navigation only on Success; the session is written only after a verified code; the exact call sequence |
| Verification.SuccessNeedsValidCodeAndSave | app/src/main/java/com/app/synapse/ui/verification/VerificationViewModel.kt:54-61 | Success needs the exact code and a save that reported success, and shows the signed-in user's uid |
| Verification.WrongCodeShowsInvalidCode | app/src/main/java/com/app/synapse/ui/verification/VerificationViewModel.kt:70-75 | a wrong code ends in the invalid-code error whatever the signed-in user or the save |
| ChatData.Emission | app/src/main/java/com/app/synapse/data/source/remote/FirebaseChatDataSource.kt:32-44 | an error becomes a failure with that error; a null snapshot becomes an empty success; a snapshot becomes a success with its records in order |
| ChatData.Emissions | app/src/main/java/com/app/synapse/data/source/remote/FirebaseChatDataSource.kt:32-46 | never more emissions than callbacks, and at least one emission once any callback arrived |
| ChatData.EmissionsShape | app/src/main/java/com/app/synapse/data/source/remote/FirebaseChatDataSource.kt:32-46 | one emission per callback, in order, up to and including the first error; only the last emission can come from an error |
| ChatData.EmissionsSnoc | app/src/main/java/com/app/synapse/data/source/remote/FirebaseChatDataSource.kt:32-46 | one more event adds its emission while the flow is open and nothing once it is closed |
| ChatData.FirstErrorClosesFlow | app/src/main/java/com/app/synapse/data/source/remote/FirebaseChatDataSource.kt:33-36 | after the first error at position k there are exactly k+1 emissions, the last being that error, and that error is the close cause |
| ChatData.NoErrorEmitsAll | app/src/main/java/com/app/synapse/data/source/remote/FirebaseChatDataSource.kt:39-44 | without errors every event yields one successful emission, and the flow has no close cause |
| ChatData.CloseCause | app/src/main/java/com/app/synapse/data/source/remote/FirebaseChatDataSource.kt:33-36 | a flow's close cause exists exactly when it is closed, and is the error of its last emission |
| ChatData.Listen | app/src/main/java/com/app/synapse/data/source/remote/FirebaseChatDataSource.kt:32-46 | the listener callback run event by event, sending and closing, emits exactly `Emissions` |
| ChatData.SummaryText | app/src/main/java/com/app/synapse/data/source/remote/FirebaseChatDataSource.kt:105-106 | the summary text is the message text when there is one; otherwise "Image" when it has an image URL; otherwise the empty string |
| ChatData.SendResult | app/src/main/java/com/app/synapse/data/source/remote/FirebaseChatDataSource.kt:94-118 | success, with the inserted key, exactly when the channel id is not blank and both writes succeed; otherwise the guard's or the failing write's error |
| ChatData.SendCalls | app/src/main/java/com/app/synapse/data/source/remote/FirebaseChatDataSource.kt:98-112 | a blank channel makes no call; otherwise the insert comes first, and the merge follows only a successful insert |
| ChatData.ChannelsAfterSend | app/src/main/java/com/app/synapse/data/source/remote/FirebaseChatDataSource.kt:105-112 | only the message's channel can change, and only after both writes; its summary is then the message's summary text and timestamp |
| ChatData.MessagesAfterSend | app/src/main/java/com/app/synapse/data/source/remote/FirebaseChatDataSource.kt:99-103 | only the message's channel can change; after a successful insert its list gains the message under the new key at the end |
| ChatData.FirebaseChatDataSource.GetChannelsFlow | app/src/main/java/com/app/synapse/data/source/remote/FirebaseChatDataSource.kt:28-47 | the channel flow emits exactly `Emissions` of the listener's events |
| ChatData.FirebaseChatDataSource.GetMessagesFlow | app/src/main/java/com/app/synapse/data/source/remote/FirebaseChatDataSource.kt:71-92 | the message flow emits exactly `Emissions` of the listener's events |
| ChatData.FirebaseChatDataSource.CreateChannel | app/src/main/java/com/app/synapse/data/source/remote/FirebaseChatDataSource.kt:49-56 | the new key on success, the exception as failure; the channel is stored only on success |
| ChatData.FirebaseChatDataSource.GetChannelDetails | app/src/main/java/com/app/synapse/data/source/remote/FirebaseChatDataSource.kt:58-69 | the stored channel or null as success, the exception as failure; no data changes |
| ChatData.FirebaseChatDataSource.SendMessage | app/src/main/java/com/app/synapse/data/source/remote/FirebaseChatDataSource.kt:94-118 | returns `SendResult`; the store and the call log change as `MessagesAfterSend`, `ChannelsAfterSend` and `SendCalls` say |
| ChatData.MergeFailureAfterInsert | app/src/main/java/com/app/synapse/data/source/remote/FirebaseChatDataSource.kt:98-117 | a merge failure is reported as a failed send although the message is already stored |
| ChatData.EmittedChannelsStayOrdered | app/src/main/java/com/app/synapse/data/source/remote/FirebaseChatDataSource.kt:29-44 | when every snapshot is ordered by descending summary timestamp, channels without one last, so is every list the flow emits |
| ChatData.EmittedMessagesStayOrdered | app/src/main/java/com/app/synapse/data/source/remote/FirebaseChatDataSource.kt:75-89 | when every snapshot is in ascending timestamp order, so is every list the flow emits |
| ChatRepository.BuildMessage | app/src/main/java/com/app/synapse/data/repository/ChatRepositoryImpl.kt:47-64 | fails exactly when content is missing or the sender is blank, content error first; the type is IMAGE exactly when the image URL is non-null; a missing sender name becomes "Anonymous"; other fields pass through |
| ChatRepository.NewChannel | app/src/main/java/com/app/synapse/data/repository/ChatRepositoryImpl.kt:22-28 | the record carries the caller's name, description and creator unchecked, is created now, and has no summary yet |
| ChatRepository.SendMessageResult | app/src/main/java/com/app/synapse/data/repository/ChatRepositoryImpl.kt:40-66 | success, with the new key, exactly when validation passes, the channel is not blank and both writes succeed |
| ChatRepository.ChatRepositoryImpl.GetChannels | app/src/main/java/com/app/synapse/data/repository/ChatRepositoryImpl.kt:18-20 | the data source's channel flow unchanged |
| ChatRepository.ChatRepositoryImpl.GetMessages | app/src/main/java/com/app/synapse/data/repository/ChatRepositoryImpl.kt:36-38 | the data source's message flow unchanged |
| ChatRepository.ChatRepositoryImpl.CreateChannel | app/src/main/java/com/app/synapse/data/repository/ChatRepositoryImpl.kt:22-30 | the data source's result for `NewChannel`, with no validation |
| ChatRepository.ChatRepositoryImpl.GetChannelDetails | app/src/main/java/com/app/synapse/data/repository/ChatRepositoryImpl.kt:32-34 | the data source's result unchanged |
| ChatRepository.ChatRepositoryImpl.SendMessage | app/src/main/java/com/app/synapse/data/repository/ChatRepositoryImpl.kt:40-66 | an invalid message returns its validation failure with no store call; a valid one is sent as built, with the data source's effects |
| ChatRepository.ContentCheckedBeforeSender | app/src/main/java/com/app/synapse/data/repository/ChatRepositoryImpl.kt:47-52 | any text and image URL that are each null or blank, with any blank sender, report the content error, not the sender error |
| ChatRepository.BlankImageUrlStillMakesImage | app/src/main/java/com/app/synapse/data/repository/ChatRepositoryImpl.kt:47-54 | any blank but non-null image URL next to non-blank text still makes an IMAGE message, whatever the sender name; without text the same URL counts as no content |
| ChatRepository.SentSummaryText | app/src/main/java/com/app/synapse/data/source/remote/FirebaseChatDataSource.kt:106 | a built message summarises as its text when it has one, otherwise as "Image" |
| ChannelList.StateFor | app/src/main/java/com/app/synapse/ui/main/ChannelListViewModel.kt:61-75 | an empty list is Empty, a non-empty list is Success with exactly those channels, a failure is Error with its message or "Failed to load channels." |
| ChannelList.StatesFor | app/src/main/java/com/app/synapse/ui/main/ChannelListViewModel.kt:60-76 | one state per emission, in order, each `StateFor` of its emission |
| ChannelList.SessionLost | app/src/main/java/com/app/synapse/ui/main/ChannelListViewModel.kt:44-46 | the guard (no user, or a null or blank current user id) holds exactly when there is no user or its uid is blank |
| ChannelList.ChannelListViewModel.constructor | app/src/main/java/com/app/synapse/ui/main/ChannelListViewModel.kt:24-39 | starts at Loading, then behaves as `FetchCurrentUserAndChannels` |
| ChannelList.ChannelListViewModel.FetchCurrentUserAndChannels | app/src/main/java/com/app/synapse/ui/main/ChannelListViewModel.kt:41-54 | a missing user or blank uid: the session is cleared, one verification event follows, and nothing loads. Otherwise Loading and one state per emission, with no preference write, and the flow's close cause escapes |
| ChannelList.ChannelListViewModel.LoadChannels | app/src/main/java/com/app/synapse/ui/main/ChannelListViewModel.kt:57-78 | appends Loading and then `StatesFor` of the channel flow's emissions; the listener error that closed the flow escapes the coroutine after its Error is shown |
| ChannelList.ChannelListViewModel.OnChannelClicked | app/src/main/java/com/app/synapse/ui/main/ChannelListViewModel.kt:80-82 | one navigation event carrying exactly the clicked channel; nothing else changes |
| ChannelList.ChannelListViewModel.CreateNewChannel | app/src/main/java/com/app/synapse/ui/main/ChannelListViewModel.kt:84-108 | a blank name changes nothing and calls nothing. Otherwise one add call, created by the current user id; the state is unchanged on success and gains Error on failure |
| ChannelList.ChannelListViewModel.RefreshChannels | app/src/main/java/com/app/synapse/ui/main/ChannelListViewModel.kt:110-112 | the same effect as `FetchCurrentUserAndChannels` |
| ChannelList.ChannelListViewModel.SignOut | app/src/main/java/com/app/synapse/ui/main/ChannelListViewModel.kt:114-120 | sign-out, then the session clear, in that order in the call log; one verification event always follows |
| ChannelList.ListenerErrorIsFinal | app/src/main/java/com/app/synapse/ui/main/ChannelListViewModel.kt:60-76 | after the listener's first error the list settles on that error, whatever events would follow |
| ChannelList.LatestSnapshotWins | app/src/main/java/com/app/synapse/ui/main/ChannelListViewModel.kt:62-68 | without errors the list settles on the latest snapshot: Empty or Success with its channels |
| ChannelList.CreateFailureThenRefresh | app/src/main/java/com/app/synapse/ui/main/ChannelListViewModel.kt:84-112 | a failed `CreateNewChannel` followed by `RefreshChannels` with the session kept shows the create's Error, then Loading and one state per emission, ending on Empty or Success when the listener delivers only snapshots |
| ChannelList.CreateErrorIsNotSticky | app/src/main/java/com/app/synapse/ui/main/ChannelListViewModel.kt:98-112 | a failed create shows its Error, and a following refresh whose listener delivers only snapshots settles on Empty or Success again |
| Chat.StateFor | app/src/main/java/com/app/synapse/ui/chat/ChatViewModel.kt:65-79 | an empty list is Empty, a non-empty list is Success with exactly those messages, a failure is Error with its message or "Failed to load messages." |
| Chat.StatesFor | app/src/main/java/com/app/synapse/ui/chat/ChatViewModel.kt:64-80 | one state per emission, in order, each `StateFor` of its emission |
| Chat.SendFailedState | app/src/main/java/com/app/synapse/ui/chat/ChatViewModel.kt:112-118 | a failed send shows Error with the exception's message or "Failed to send message.", and the exception as its cause |
| Chat.InitialUserId | app/src/main/java/com/app/synapse/ui/chat/ChatViewModel.kt:35-37 | the stored id becomes the user id; a read that throws leaves none |
| Chat.ChatViewModel.constructor | app/src/main/java/com/app/synapse/ui/chat/ChatViewModel.kt:25-44 | no state value, no events, no channel, the default display name, and the user id read once at start |
| Chat.ChatViewModel.LoadMessages | app/src/main/java/com/app/synapse/ui/chat/ChatViewModel.kt:46-82 | the same channel already showing Success: nothing changes. Otherwise the channel is set and Loading is shown; a missing or blank id is re-read, and if still blank the no-session error follows with no subscription; otherwise one state per emission. A throwing re-read, or the listener error that closed the flow, escapes the coroutine |
| Chat.ChatViewModel.CollectMessages | app/src/main/java/com/app/synapse/ui/chat/ChatViewModel.kt:64-80 | appends `StatesFor` of the message flow's emissions and changes nothing else; the listener error that closed the flow escapes after its Error is shown |
| Chat.ChatViewModel.SendMessage | app/src/main/java/com/app/synapse/ui/chat/ChatViewModel.kt:84-122 | no channel or no user id: nothing. Blank text: status false with no call. Otherwise one send of the text; the status is the result's success; a failure also shows `SendFailedState` |
| Chat.ListenerErrorIsFinal | app/src/main/java/com/app/synapse/ui/chat/ChatViewModel.kt:64-80 | after the listener's first error the screen settles on that error, whatever events would follow |
| Chat.LatestSnapshotWins | app/src/main/java/com/app/synapse/ui/chat/ChatViewModel.kt:66-71 | without errors the screen settles on the latest snapshot: Empty or Success with its messages |
| Chat.SentMessageIsPlainText | app/src/main/java/com/app/synapse/ui/chat/ChatViewModel.kt:99-105 | the message sent is TEXT with no image, in the current channel, from the current user id as "Anonymous User", stamped now |
| Chat.BlankUserIdFailsInRepository | app/src/main/java/com/app/synapse/ui/chat/ChatViewModel.kt:85-86 | a blank but non-null user id passes the screen's null check and ends in the repository's sender error |
| Chat.SentStatusAndStoredMessage | app/src/main/java/com/app/synapse/ui/chat/ChatViewModel.kt:107-110 | a send reported as success stored the message under the new key in its channel |

## Left out

- `uploadImage` (Firebase Storage upload with file names built from the system clock) is not part of this model: it is storage I/O with no logic beyond wrapping an exception.
- Concurrency and `collectLatest` cancellation are not modelled. Every launched coroutine runs to completion in launch order, and a flow is consumed to its end. In particular, `refreshChannels` starting a second listener next to the first is not captured.
- A non-IO exception from a session read, or a listener error rethrown by `collectLatest`, ends its coroutine with no further state change. The operations that run such a coroutine return the exception as `escaped`; the app process crash that follows an uncaught exception is not modelled.
- `ChannelList.ChannelListViewModel.constructor`: a constructor returns nothing, so an exception escaping its first load is not reported; `RefreshChannels` reports it.
- `Chat.ChatViewModel.constructor`: a constructor returns nothing, so a non-IO exception escaping its session read is not reported (its id stays unset); `LoadMessages` reports the re-read's.
- `Verification.VerificationViewModel.constructor`: a constructor returns nothing, so a non-IO exception escaping its session read is not reported; `CheckIfAlreadyLoggedIn` reports it.
- A document that `toObjects` cannot convert makes the listener callback throw; that failure is not modelled, and every snapshot converts.
- Every `trySend` is taken to succeed: a callback dropped because the flow's buffer is full is not modelled.
- Generated document keys are taken as given: `Collaborators.DocumentStore.AddChannel` and `Collaborators.DocumentStore.AddMessage` store under whatever key they receive, so a colliding key replaces the channel record or appends a second message document with the same key. The store's random keys make such a collision practically impossible, and nothing about it is stated.
- `AuthRepositoryImpl` forwards every call unchanged, so the view models call `Auth.FirebaseAuthDataSource` directly. Chat calls go through `ChatRepository.ChatRepositoryImpl` and session calls through `UserRepository.UserRepositoryImpl`. `currentSessionId` is the data source's `sessionIdFlow` itself.
- Server-side ordering (channels by descending summary timestamp, messages by ascending timestamp) is done by the store's queries. It is taken as given in snapshots, and only its preservation through the flow is proved (`ChatData.EmittedChannelsStayOrdered`, `ChatData.EmittedMessagesStayOrdered`).
- `MAX_MESSAGE_LENGTH` is declared but never checked by the code, so no length rule is modelled.
- `Event` single consumption is not modelled: events are append-only sequences.
- Date formatting is not modelled, and timestamps are opaque integers.
- The `Channel` and `Message` model classes are not part of this model. Their fields are those the code reads and writes, with the defaults the code relies on (an empty id, no summary).
- `IsBlank` approximates Kotlin's `isBlank` by a fixed list of Unicode whitespace characters. There is no case folding or normalisation.
- Verification, channel-list and chat view model contracts: the order between a view-model field update and a collaborator call in the same operation is not stated (for instance, Loading before the sign-in call in `VerifyCode`, or clear-session before the navigation event in `SignOut`). Only the order among collaborator calls is recorded in the call log.
- `ChatViewModel.getCurrentUserId` is a plain field read (`Chat.ChatViewModel.CurrentUserId`) with nothing to state.
- `getSessionIdOnce`'s `firstOrNull`: a DataStore flow always emits, so the null-on-empty-flow case is not modelled.
