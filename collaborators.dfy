/** The three services the core talks to, each reduced to the abstract state the core
    can observe: the Firebase auth service (a current user or none), the Firestore
    document store (channel documents, and per channel an ordered message collection)
    and the preferences DataStore (a string-to-string map). Every call that reaches
    one of them is appended to one shared `CallLog`, so that contracts can say which
    calls happened and in which order. Each call's outcome (whether it throws, which
    user or document id it yields) comes from the environment, as a parameter. */
module Collaborators {
  import opened Common
  import opened ChatModel

  datatype Call =
    | AuthSignInAnonymously
    | AuthSignOut
    | PrefsEdit
    | StoreAddChannel
    | StoreGetChannel(channelId: string)
    | StoreAddMessage(channelId: string)
    | StoreMergeChannel(channelId: string)

  /** A message document: the key the store generated for it, and its data. */
  datatype MessageDoc = MessageDoc(docId: string, message: Message)

  /** Calls made to the services, oldest first. */
  class CallLog {
    var calls: seq<Call>

    constructor ()
      ensures calls == []
    {
      calls := [];
    }

    method Record(c: Call)
      modifies this
      ensures calls == old(calls) + [c]
    {
      calls := calls + [c];
    }
  }

  /** Firebase Auth. */
  class AuthService {
    var currentUser: Option<User>
    const log: CallLog

    constructor (user: Option<User>, log: CallLog)
      ensures currentUser == user && this.log == log
    {
      currentUser := user;
      this.log := log;
    }

    /** `signInAnonymously().await()`: `response` is what the service answers; a
        returned user becomes the current user. */
    method SignInAnonymously(response: Completion<Option<User>>) returns (r: Completion<Option<User>>)
      modifies this, log
      ensures r == response
      ensures currentUser == (if response.Normal? && response.value.Some? then response.value else old(currentUser))
      ensures log.calls == old(log.calls) + [AuthSignInAnonymously]
    {
      log.Record(AuthSignInAnonymously);
      if response.Normal? && response.value.Some? {
        currentUser := response.value;
      }
      r := response;
    }

    /** `signOut()`: forgets the current user unless it throws `fault`. */
    method SignOut(fault: Option<Exception>) returns (r: Completion<()>)
      modifies this, log
      ensures r == Outcome(fault, ())
      ensures currentUser == (if fault.None? then None else old(currentUser))
      ensures log.calls == old(log.calls) + [AuthSignOut]
    {
      log.Record(AuthSignOut);
      if fault.None? {
        currentUser := None;
        r := Normal(());
      } else {
        r := Threw(fault.value);
      }
    }
  }

  /** The preferences DataStore: `edit` replaces the whole map atomically, or throws
      and leaves it as it was. */
  class PreferenceStore {
    var prefs: map<string, string>
    const log: CallLog

    constructor (prefs: map<string, string>, log: CallLog)
      ensures this.prefs == prefs && this.log == log
    {
      this.prefs := prefs;
      this.log := log;
    }

    method Edit(edited: map<string, string>, fault: Option<Exception>) returns (r: Completion<()>)
      modifies this, log
      ensures r == Outcome(fault, ())
      ensures prefs == (if fault.None? then edited else old(prefs))
      ensures log.calls == old(log.calls) + [PrefsEdit]
    {
      log.Record(PrefsEdit);
      if fault.None? {
        prefs := edited;
        r := Normal(());
      } else {
        r := Threw(fault.value);
      }
    }
  }

  /** What a merge-write of the two summary fields leaves in a channel document:
      those two fields are set, every other field of an existing document is kept,
      and a document that did not exist is created holding only the two fields. */
  function MergedSummary(existing: Option<Channel>, text: string, at: Timestamp): (c: Channel)
    ensures c.lastMessageText == Some(text) && c.lastMessageTimestamp == Some(at)
    ensures existing.Some? ==>
      && c.id == existing.value.id
      && c.name == existing.value.name
      && c.description == existing.value.description
      && c.createdBy == existing.value.createdBy
      && c.createdAt == existing.value.createdAt
    ensures existing.None? ==>
      c.id == "" && c.name == "" && c.description.None? && c.createdBy.None? && c.createdAt.None?
  {
    match existing
    case Some(doc) => doc.(lastMessageText := Some(text), lastMessageTimestamp := Some(at))
    case None => Channel("", "", None, None, None, Some(text), Some(at))
  }

  /** Firestore: the `channels` collection, keyed by document id, and each channel's
      `messages` sub-collection in insertion order. */
  class DocumentStore {
    var channels: map<string, Channel>
    var messages: map<string, seq<MessageDoc>>
    const log: CallLog

    constructor (channels: map<string, Channel>, messages: map<string, seq<MessageDoc>>, log: CallLog)
      ensures this.channels == channels && this.messages == messages && this.log == log
    {
      this.channels := channels;
      this.messages := messages;
      this.log := log;
    }

    /** The message collection of one channel (empty when it has none yet). */
    function MessagesOf(channelId: string): seq<MessageDoc>
      reads this
    {
      if channelId in messages then messages[channelId] else []
    }

    /** `collection("channels").add(channel)`: stores `channel` under the generated key `newId`. */
    method AddChannel(channel: Channel, newId: string, fault: Option<Exception>) returns (r: Completion<string>)
      modifies this, log
      ensures r == Outcome(fault, newId)
      ensures channels == (if fault.None? then old(channels)[newId := channel] else old(channels))
      ensures messages == old(messages)
      ensures log.calls == old(log.calls) + [StoreAddChannel]
    {
      log.Record(StoreAddChannel);
      if fault.None? {
        channels := channels[newId := channel];
        r := Normal(newId);
      } else {
        r := Threw(fault.value);
      }
    }

    /** `document(id).get()`: the document, or null when there is none. */
    method GetChannel(channelId: string, fault: Option<Exception>) returns (r: Completion<Option<Channel>>)
      modifies log
      ensures r == Outcome(fault, Lookup(channels, channelId))
      ensures log.calls == old(log.calls) + [StoreGetChannel(channelId)]
    {
      log.Record(StoreGetChannel(channelId));
      r := Outcome(fault, Lookup(channels, channelId));
    }

    /** `document(channelId).collection("messages").add(message)`. */
    method AddMessage(channelId: string, message: Message, newId: string, fault: Option<Exception>)
      returns (r: Completion<string>)
      modifies this, log
      ensures r == Outcome(fault, newId)
      ensures messages == (if fault.None?
        then old(messages)[channelId := old(MessagesOf(channelId)) + [MessageDoc(newId, message)]]
        else old(messages))
      ensures channels == old(channels)
      ensures log.calls == old(log.calls) + [StoreAddMessage(channelId)]
    {
      log.Record(StoreAddMessage(channelId));
      if fault.None? {
        messages := messages[channelId := MessagesOf(channelId) + [MessageDoc(newId, message)]];
        r := Normal(newId);
      } else {
        r := Threw(fault.value);
      }
    }

    /** `document(channelId).set(summary, SetOptions.merge())` for the two summary fields. */
    method MergeChannel(channelId: string, text: string, at: Timestamp, fault: Option<Exception>)
      returns (r: Completion<()>)
      modifies this, log
      ensures r == Outcome(fault, ())
      ensures channels == (if fault.None?
        then old(channels)[channelId := MergedSummary(Lookup(old(channels), channelId), text, at)]
        else old(channels))
      ensures messages == old(messages)
      ensures log.calls == old(log.calls) + [StoreMergeChannel(channelId)]
    {
      log.Record(StoreMergeChannel(channelId));
      if fault.None? {
        channels := channels[channelId := MergedSummary(Lookup(channels, channelId), text, at)];
        r := Normal(());
      } else {
        r := Threw(fault.value);
      }
    }
  }
}
