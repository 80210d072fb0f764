/** `ChatRepositoryImpl`: validates a message and builds its record, builds a new
    channel's record, and otherwise hands the data source's results back unchanged. */
module ChatRepository {
  import opened Common
  import opened ChatModel
  import opened Collaborators
  import opened ChatData

  const NO_CONTENT_MESSAGE: string := "Message must have text or an image URL."
  const BLANK_SENDER_MESSAGE: string := "Sender ID cannot be blank."
  /** The sender name used when the caller gives none. */
  const DEFAULT_SENDER_NAME: string := "Anonymous"

  /** The message `sendMessage` would hand to the data source, or the validation
      failure that stops it first. The content check runs before the sender check;
      the type is IMAGE whenever an image URL is present, even a blank one. `now` is
      the client clock at the call. */
  function BuildMessage(channelId: string, text: Option<string>, imageUrl: Option<string>,
                        senderId: string, senderName: Option<string>, now: Timestamp)
    : (r: Result<Message>)
    ensures r.Failure? <==> (IsNullOrBlank(text) && IsNullOrBlank(imageUrl)) || IsBlank(senderId)
    ensures IsNullOrBlank(text) && IsNullOrBlank(imageUrl) ==>
      r == Failure(Raised(IllegalArgumentException, NO_CONTENT_MESSAGE))
    ensures !(IsNullOrBlank(text) && IsNullOrBlank(imageUrl)) && IsBlank(senderId) ==>
      r == Failure(Raised(IllegalArgumentException, BLANK_SENDER_MESSAGE))
    ensures r.Success? ==>
      && r.value.channelId == channelId
      && r.value.senderId == senderId
      && r.value.text == text
      && r.value.imageUrl == imageUrl
      && r.value.timestamp == now
      && r.value.id == ""
      && (r.value.messageType == ImageMessage <==> imageUrl.Some?)
      && r.value.senderName == (if senderName.Some? then senderName.value else DEFAULT_SENDER_NAME)
  {
    if IsNullOrBlank(text) && IsNullOrBlank(imageUrl) then
      Failure(Raised(IllegalArgumentException, NO_CONTENT_MESSAGE))
    else if IsBlank(senderId) then
      Failure(Raised(IllegalArgumentException, BLANK_SENDER_MESSAGE))
    else
      var messageType := if imageUrl.Some? then ImageMessage else TextMessage;
      var name := match senderName case Some(n) => n case None => DEFAULT_SENDER_NAME;
      Success(Message("", channelId, senderId, name, text, imageUrl, now, messageType))
  }

  /** The record `createChannel` hands to the data source: the caller's name,
      description and creator, unchecked, created now, with no message yet. */
  function NewChannel(name: string, description: Option<string>, createdBy: Option<string>, now: Timestamp)
    : (c: Channel)
    ensures c.name == name && c.description == description && c.createdBy == createdBy
    ensures c.createdAt == Some(now)
    ensures c.lastMessageText.None? && c.lastMessageTimestamp.None?
  {
    Channel("", name, description, createdBy, Some(now), None, None)
  }

  /** What `sendMessage` returns: the validation failure, or what the data source
      returns for the built message. Success means a valid message whose two writes
      both went through, and carries the inserted message's key. */
  function SendMessageResult(channelId: string, text: Option<string>, imageUrl: Option<string>,
                             senderId: string, senderName: Option<string>, now: Timestamp,
                             newId: string, insertFault: Option<Exception>, mergeFault: Option<Exception>)
    : (r: Result<string>)
    ensures r.Success? <==>
      && BuildMessage(channelId, text, imageUrl, senderId, senderName, now).Success?
      && !IsBlank(channelId) && insertFault.None? && mergeFault.None?
    ensures r.Success? ==> r.value == newId
  {
    var built := BuildMessage(channelId, text, imageUrl, senderId, senderName, now);
    if built.Failure? then Failure(built.error) else SendResult(built.value, newId, insertFault, mergeFault)
  }

  class ChatRepositoryImpl {
    const source: FirebaseChatDataSource

    constructor (source: FirebaseChatDataSource)
      ensures this.source == source
    {
      this.source := source;
    }

    /** `getChannels()`: the data source's flow. */
    method GetChannels(events: seq<ListenerEvent<Channel>>) returns (out: seq<Result<seq<Channel>>>)
      ensures out == Emissions(events)
    {
      out := source.GetChannelsFlow(events);
    }

    /** `getMessages(channelId)`: the data source's flow. */
    method GetMessages(channelId: string, events: seq<ListenerEvent<Message>>) returns (out: seq<Result<seq<Message>>>)
      ensures out == Emissions(events)
    {
      out := source.GetMessagesFlow(channelId, events);
    }

    /** `createChannel(name, description, createdBy)`: no validation here. */
    method CreateChannel(name: string, description: Option<string>, createdBy: Option<string>,
                         now: Timestamp, newId: string, fault: Option<Exception>)
      returns (r: Result<string>)
      modifies source.store, source.store.log
      ensures r == Catching(Outcome(fault, newId))
      ensures source.store.channels ==
        (if fault.None? then old(source.store.channels)[newId := NewChannel(name, description, createdBy, now)]
         else old(source.store.channels))
      ensures source.store.messages == old(source.store.messages)
      ensures source.store.log.calls == old(source.store.log.calls) + [StoreAddChannel]
    {
      r := source.CreateChannel(NewChannel(name, description, createdBy, now), newId, fault);
    }

    /** `getChannelDetails(channelId)`: the data source's result. */
    method GetChannelDetails(channelId: string, fault: Option<Exception>) returns (r: Result<Option<Channel>>)
      modifies source.store.log
      ensures r == Catching(Outcome(fault, Lookup(source.store.channels, channelId)))
      ensures source.store.log.calls == old(source.store.log.calls) + [StoreGetChannel(channelId)]
    {
      r := source.GetChannelDetails(channelId, fault);
    }

    /** `sendMessage(...)`: a message that fails validation never reaches the data
        source; a valid one is sent as built. */
    method SendMessage(channelId: string, text: Option<string>, imageUrl: Option<string>,
                       senderId: string, senderName: Option<string>, now: Timestamp,
                       newId: string, insertFault: Option<Exception>, mergeFault: Option<Exception>)
      returns (r: Result<string>)
      modifies source.store, source.store.log
      ensures var built := BuildMessage(channelId, text, imageUrl, senderId, senderName, now);
        built.Failure? ==>
          && r == SendMessageResult(channelId, text, imageUrl, senderId, senderName, now, newId, insertFault, mergeFault)
          && r == Failure(built.error)
          && source.store.channels == old(source.store.channels)
          && source.store.messages == old(source.store.messages)
          && source.store.log.calls == old(source.store.log.calls)
      ensures var built := BuildMessage(channelId, text, imageUrl, senderId, senderName, now);
        built.Success? ==>
          && r == SendMessageResult(channelId, text, imageUrl, senderId, senderName, now, newId, insertFault, mergeFault)
          && source.store.messages == MessagesAfterSend(old(source.store.messages), built.value, newId, insertFault)
          && source.store.channels == ChannelsAfterSend(old(source.store.channels), built.value, insertFault, mergeFault)
          && source.store.log.calls == old(source.store.log.calls) + SendCalls(built.value, insertFault)
    {
      var built := BuildMessage(channelId, text, imageUrl, senderId, senderName, now);
      if built.Failure? {
        return Failure(built.error);
      }
      r := source.SendMessage(built.value, newId, insertFault, mergeFault);
    }
  }

  /** A message with neither text nor image (null or blank) and a blank sender
      reports the missing content, because that check runs first. */
  lemma ContentCheckedBeforeSender(channelId: string, text: Option<string>, imageUrl: Option<string>,
                                   senderId: string, senderName: Option<string>, now: Timestamp)
    requires IsNullOrBlank(text) && IsNullOrBlank(imageUrl) && IsBlank(senderId)
    ensures BuildMessage(channelId, text, imageUrl, senderId, senderName, now)
      == Failure(Raised(IllegalArgumentException, NO_CONTENT_MESSAGE))
  {
  }

  /** A non-null but blank image URL passes the content check when the text is
      present, and still makes the message an IMAGE message; without text it counts
      as no content. */
  lemma BlankImageUrlStillMakesImage(channelId: string, text: string, url: string, senderId: string,
                                     senderName: Option<string>, now: Timestamp)
    requires IsBlank(url) && !IsBlank(text) && !IsBlank(senderId)
    ensures BuildMessage(channelId, Some(text), Some(url), senderId, senderName, now).Success?
    ensures BuildMessage(channelId, Some(text), Some(url), senderId, senderName, now).value.messageType == ImageMessage
    ensures BuildMessage(channelId, None, Some(url), senderId, senderName, now)
      == Failure(Raised(IllegalArgumentException, NO_CONTENT_MESSAGE))
  {
  }

  /** Summary text seen end to end: a text message summarises as its text; a
      message with only an image URL as "Image". */
  lemma SentSummaryText(channelId: string, text: Option<string>, imageUrl: Option<string>,
                        senderId: string, now: Timestamp)
    requires BuildMessage(channelId, text, imageUrl, senderId, None, now).Success?
    ensures var m := BuildMessage(channelId, text, imageUrl, senderId, None, now).value;
      SummaryText(m) == (if text.Some? then text.value else "Image")
  {
  }
}
