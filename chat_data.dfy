/** `FirebaseChatDataSource`: the snapshot listeners that feed the channel list and
    a channel's messages, and the writes that create a channel and send a message. */
module ChatData {
  import opened Common
  import opened ChatModel
  import opened Collaborators

  /** One callback of a snapshot listener: a snapshot (possibly null), or an error. */
  datatype ListenerEvent<T> = Snapshot(docs: Option<seq<T>>) | ListenerError(e: Exception)

  const BLANK_CHANNEL_MESSAGE: string := "Channel ID cannot be blank for sending a message."

  /** What the listener sends for one callback: a snapshot's records, in the order
      the query returned them (none for a null snapshot), or the error. */
  function Emission<T>(event: ListenerEvent<T>): (r: Result<seq<T>>)
    ensures r.Failure? <==> event.ListenerError?
    ensures r.Failure? ==> r.error == event.e
    ensures event.Snapshot? && event.docs.Some? ==> r == Success(event.docs.value)
    ensures event == Snapshot(None) ==> r == Success([])
  {
    match event
    case Snapshot(Some(docs)) => Success(docs)
    case Snapshot(None) => Success([])
    case ListenerError(e) => Failure(e)
  }

  /** Whether a flow that emitted `out` is closed: its last emission was a failure. */
  predicate Closed<T>(out: seq<Result<seq<T>>>)
  {
    out != [] && out[|out| - 1].Failure?
  }

  /** The error a closed flow rethrows to its collector once the emissions before
      it are delivered; nothing for a flow that is not closed. */
  function CloseCause<T>(out: seq<Result<seq<T>>>): (cause: Option<Exception>)
    ensures cause.Some? <==> Closed(out)
    ensures cause.Some? ==> out[|out| - 1] == Failure(cause.value)
  {
    if Closed(out) then Some(out[|out| - 1].error) else None
  }

  /** Everything a listener's flow emits for the callbacks `events`: one emission per
      callback, in order, until the first error, which is emitted and closes the flow. */
  function Emissions<T>(events: seq<ListenerEvent<T>>): (out: seq<Result<seq<T>>>)
    ensures |out| <= |events|
    ensures out == [] <==> events == []
  {
    if events == [] then []
    else if events[0].ListenerError? then [Emission(events[0])]
    else [Emission(events[0])] + Emissions(events[1..])
  }

  /** One more callback adds one emission, unless the flow was already closed. */
  lemma {:induction false} EmissionsSnoc<T>(events: seq<ListenerEvent<T>>, event: ListenerEvent<T>)
    ensures Emissions(events + [event]) ==
      if Closed(Emissions(events)) then Emissions(events) else Emissions(events) + [Emission(event)]
    decreases |events|
  {
    if events != [] {
      var tail := events[1..];
      assert (events + [event])[1..] == tail + [event];
      if events[0].Snapshot? {
        EmissionsSnoc(tail, event);
        assert Emissions(events) == [Emission(events[0])] + Emissions(tail);
        if Emissions(tail) == [] {
          assert tail == [];
        }
      }
    }
  }

  /** The shape of a flow's emissions: each emission is the emission of the callback
      at the same position; every callback before the last emitted one was a snapshot;
      and either every callback was emitted or the last one emitted was an error. */
  lemma {:induction false} EmissionsShape<T>(events: seq<ListenerEvent<T>>)
    ensures forall i :: 0 <= i < |Emissions(events)| ==> Emissions(events)[i] == Emission(events[i])
    ensures forall i :: 0 <= i < |Emissions(events)| - 1 ==> events[i].Snapshot?
    ensures |Emissions(events)| == |events| || events[|Emissions(events)| - 1].ListenerError?
    decreases |events|
  {
    if events != [] && events[0].Snapshot? {
      var tail := events[1..];
      EmissionsShape(tail);
      var out := Emissions(events);
      var rest := Emissions(tail);
      assert out == [Emission(events[0])] + rest;
      forall i | 1 <= i < |out|
        ensures out[i] == Emission(events[i])
      {
        assert out[i] == rest[i - 1] && tail[i - 1] == events[i];
      }
      forall i | 1 <= i < |out| - 1
        ensures events[i].Snapshot?
      {
        assert tail[i - 1] == events[i];
      }
      if |rest| != |tail| {
        assert tail[|rest| - 1] == events[|out| - 1];
      }
    }
  }

  /** The first error is the last thing emitted: everything before it is emitted. */
  lemma FirstErrorClosesFlow<T>(events: seq<ListenerEvent<T>>, k: nat)
    requires k < |events| && events[k].ListenerError?
    requires forall j :: 0 <= j < k ==> events[j].Snapshot?
    ensures |Emissions(events)| == k + 1
    ensures Emissions(events)[k] == Failure(events[k].e)
    ensures CloseCause(Emissions(events)) == Some(events[k].e)
  {
    EmissionsShape(events);
  }

  /** Without an error every callback is emitted, as a success. */
  lemma NoErrorEmitsAll<T>(events: seq<ListenerEvent<T>>)
    requires forall j :: 0 <= j < |events| ==> events[j].Snapshot?
    ensures |Emissions(events)| == |events|
    ensures forall j :: 0 <= j < |events| ==> Emissions(events)[j] == Emission(events[j])
    ensures forall j :: 0 <= j < |events| ==> Emissions(events)[j].Success?
    ensures CloseCause(Emissions(events)).None?
  {
    EmissionsShape(events);
  }

  /** The callback flow: each listener callback is pushed into the flow's channel;
      an error is pushed and then closes the channel, after which callbacks are
      dropped. */
  method Listen<T>(events: seq<ListenerEvent<T>>) returns (out: seq<Result<seq<T>>>)
    ensures out == Emissions(events)
  {
    out := [];
    var closed := false;
    var i := 0;
    while i < |events|
      invariant 0 <= i <= |events|
      invariant closed == Closed(out)
      invariant out == Emissions(events[..i])
    {
      assert events[..i + 1] == events[..i] + [events[i]];
      EmissionsSnoc(events[..i], events[i]);
      if !closed {
        match events[i] {
          case ListenerError(e) =>
            out := out + [Failure(e)];
            closed := true;
          case Snapshot(docs) =>
            out := out + [Success(if docs.Some? then docs.value else [])];
        }
      }
      i := i + 1;
    }
    assert events[..i] == events;
  }

  /** The `lastMessageText` written with a message: its text, else "Image" when it
      has an image URL, else the empty string. */
  function SummaryText(message: Message): (s: string)
    ensures message.text.Some? ==> s == message.text.value
    ensures message.text.None? && message.imageUrl.Some? ==> s == "Image"
    ensures message.text.None? && message.imageUrl.None? ==> s == ""
  {
    match message.text
    case Some(text) => text
    case None => if message.imageUrl.Some? then "Image" else ""
  }

  /** What `sendMessage` returns for `message`, given the key the store generates
      and what the insert and the summary merge throw, if anything. */
  function SendResult(message: Message, newId: string, insertFault: Option<Exception>, mergeFault: Option<Exception>)
    : (r: Result<string>)
    ensures r.Success? <==> !IsBlank(message.channelId) && insertFault.None? && mergeFault.None?
    ensures r.Success? ==> r.value == newId
    ensures IsBlank(message.channelId) ==> r == Failure(Raised(IllegalArgumentException, BLANK_CHANNEL_MESSAGE))
    ensures !IsBlank(message.channelId) && insertFault.Some? ==> r == Failure(insertFault.value)
    ensures !IsBlank(message.channelId) && insertFault.None? && mergeFault.Some? ==> r == Failure(mergeFault.value)
  {
    if IsBlank(message.channelId) then Failure(Raised(IllegalArgumentException, BLANK_CHANNEL_MESSAGE))
    else if insertFault.Some? then Failure(insertFault.value)
    else if mergeFault.Some? then Failure(mergeFault.value)
    else Success(newId)
  }

  /** The store calls `sendMessage` makes: none for a blank channel id, else the
      insert, followed by the summary merge only when the insert went through. */
  function SendCalls(message: Message, insertFault: Option<Exception>): (calls: seq<Call>)
    ensures IsBlank(message.channelId) ==> calls == []
    ensures !IsBlank(message.channelId) ==>
      && 1 <= |calls| <= 2
      && calls[0] == StoreAddMessage(message.channelId)
      && (|calls| == 2 <==> insertFault.None?)
      && (|calls| == 2 ==> calls[1] == StoreMergeChannel(message.channelId))
  {
    if IsBlank(message.channelId) then []
    else [StoreAddMessage(message.channelId)] + (if insertFault.None? then [StoreMergeChannel(message.channelId)] else [])
  }

  /** The channel documents after `sendMessage`: only the message's channel can
      change, and only when both writes went through; it then carries the
      message's summary text and the message's own timestamp, every other field
      kept. */
  function ChannelsAfterSend(channels: map<string, Channel>, message: Message,
                             insertFault: Option<Exception>, mergeFault: Option<Exception>)
    : (after: map<string, Channel>)
    ensures forall id :: id != message.channelId ==> Lookup(after, id) == Lookup(channels, id)
    ensures IsBlank(message.channelId) || insertFault.Some? || mergeFault.Some? ==> after == channels
    ensures !IsBlank(message.channelId) && insertFault.None? && mergeFault.None? ==>
      && message.channelId in after
      && after[message.channelId].lastMessageText == Some(SummaryText(message))
      && after[message.channelId].lastMessageTimestamp == Some(message.timestamp)
      && after[message.channelId] == MergedSummary(Lookup(channels, message.channelId), SummaryText(message), message.timestamp)
  {
    if IsBlank(message.channelId) || insertFault.Some? || mergeFault.Some? then channels
    else channels[message.channelId := MergedSummary(Lookup(channels, message.channelId), SummaryText(message), message.timestamp)]
  }

  /** The message collections after `sendMessage`: the message is appended, under
      the generated key, to its channel's collection when the insert went through,
      whatever the merge does afterwards. */
  function MessagesAfterSend(messages: map<string, seq<MessageDoc>>, message: Message,
                             newId: string, insertFault: Option<Exception>)
    : (after: map<string, seq<MessageDoc>>)
    ensures forall id :: id != message.channelId ==> Lookup(after, id) == Lookup(messages, id)
    ensures IsBlank(message.channelId) || insertFault.Some? ==> after == messages
    ensures !IsBlank(message.channelId) && insertFault.None? ==>
      message.channelId in after &&
      after[message.channelId] == (if message.channelId in messages then messages[message.channelId] else [])
                                  + [MessageDoc(newId, message)]
  {
    if IsBlank(message.channelId) || insertFault.Some? then messages
    else messages[message.channelId :=
      (if message.channelId in messages then messages[message.channelId] else []) + [MessageDoc(newId, message)]]
  }

  class FirebaseChatDataSource {
    const store: DocumentStore

    constructor (store: DocumentStore)
      ensures this.store == store
    {
      this.store := store;
    }

    /** `getChannelsFlow()`; `events` are the callbacks of the listener on the
        channels query (ordered by the store, most recent message first). */
    method GetChannelsFlow(events: seq<ListenerEvent<Channel>>) returns (out: seq<Result<seq<Channel>>>)
      ensures out == Emissions(events)
    {
      out := Listen(events);
    }

    /** `getMessagesFlow(channelId)`; `events` are the callbacks of the listener on
        that channel's messages query (ordered by the store, oldest first). */
    method GetMessagesFlow(channelId: string, events: seq<ListenerEvent<Message>>) returns (out: seq<Result<seq<Message>>>)
      ensures out == Emissions(events)
    {
      out := Listen(events);
    }

    /** `createChannel(channel)`: the generated key `newId` on success. */
    method CreateChannel(channel: Channel, newId: string, fault: Option<Exception>) returns (r: Result<string>)
      modifies store, store.log
      ensures r == Catching(Outcome(fault, newId))
      ensures store.channels == (if fault.None? then old(store.channels)[newId := channel] else old(store.channels))
      ensures store.messages == old(store.messages)
      ensures store.log.calls == old(store.log.calls) + [StoreAddChannel]
    {
      var c := store.AddChannel(channel, newId, fault);
      r := if c.Normal? then Success(c.value) else Failure(c.e);
    }

    /** `getChannelDetails(channelId)`: the document, or null when there is none. */
    method GetChannelDetails(channelId: string, fault: Option<Exception>) returns (r: Result<Option<Channel>>)
      modifies store.log
      ensures r == Catching(Outcome(fault, Lookup(store.channels, channelId)))
      ensures store.log.calls == old(store.log.calls) + [StoreGetChannel(channelId)]
    {
      var c := store.GetChannel(channelId, fault);
      r := if c.Normal? then Success(c.value) else Failure(c.e);
    }

    /** `sendMessage(message)`: the channel-id guard, then the insert, then the
        merge of the channel summary. */
    method SendMessage(message: Message, newId: string, insertFault: Option<Exception>, mergeFault: Option<Exception>)
      returns (r: Result<string>)
      modifies store, store.log
      ensures r == SendResult(message, newId, insertFault, mergeFault)
      ensures store.messages == MessagesAfterSend(old(store.messages), message, newId, insertFault)
      ensures store.channels == ChannelsAfterSend(old(store.channels), message, insertFault, mergeFault)
      ensures store.log.calls == old(store.log.calls) + SendCalls(message, insertFault)
    {
      if IsBlank(message.channelId) {
        return Failure(Raised(IllegalArgumentException, BLANK_CHANNEL_MESSAGE));
      }
      var inserted := store.AddMessage(message.channelId, message, newId, insertFault);
      if inserted.Threw? {
        return Failure(inserted.e);
      }
      var merged := store.MergeChannel(message.channelId, SummaryText(message), message.timestamp, mergeFault);
      if merged.Threw? {
        return Failure(merged.e);
      }
      r := Success(inserted.value);
    }
  }

  /** A failed summary merge is reported as a failed send although the message was
      stored: the two writes are not one transaction. */
  lemma MergeFailureAfterInsert(messages: map<string, seq<MessageDoc>>, message: Message, newId: string, e: Exception)
    requires !IsBlank(message.channelId)
    ensures SendResult(message, newId, None, Some(e)) == Failure(e)
    ensures MessageDoc(newId, message) in MessagesAfterSend(messages, message, newId, None)[message.channelId]
  {
  }

  predicate AscendingByTime(messages: seq<Message>)
  {
    forall i, j :: 0 <= i < j < |messages| ==> messages[i].timestamp <= messages[j].timestamp
  }

  /** The flow keeps each snapshot's order: when the store returns every snapshot in
      ascending timestamp order, every list emitted is in that order. */
  lemma EmittedMessagesStayOrdered(events: seq<ListenerEvent<Message>>)
    requires forall i :: 0 <= i < |events| && events[i].Snapshot? && events[i].docs.Some? ==>
      AscendingByTime(events[i].docs.value)
    ensures forall i :: 0 <= i < |Emissions(events)| && Emissions(events)[i].Success? ==>
      AscendingByTime(Emissions(events)[i].value)
  {
    EmissionsShape(events);
  }

  /** Descending summary time, as the channel query orders it: a channel without a
      summary timestamp comes after every channel that has one. */
  predicate DescendingBySummaryTime(channels: seq<Channel>)
  {
    forall i, j :: 0 <= i < j < |channels| ==>
      channels[j].lastMessageTimestamp.None? ||
      (channels[i].lastMessageTimestamp.Some? &&
       channels[i].lastMessageTimestamp.value >= channels[j].lastMessageTimestamp.value)
  }

  /** The channel flow keeps each snapshot's order: when the store returns every
      snapshot newest summary first, every list emitted is in that order. */
  lemma EmittedChannelsStayOrdered(events: seq<ListenerEvent<Channel>>)
    requires forall i :: 0 <= i < |events| && events[i].Snapshot? && events[i].docs.Some? ==>
      DescendingBySummaryTime(events[i].docs.value)
    ensures forall i :: 0 <= i < |Emissions(events)| && Emissions(events)[i].Success? ==>
      DescendingBySummaryTime(Emissions(events)[i].value)
  {
    EmissionsShape(events);
  }
}
