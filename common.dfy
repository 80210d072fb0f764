/** Values shared by every layer of the chat client: optional values, the two ways a
    call can end (a Kotlin `Result` return, or a normal return versus a throw), the
    exceptions the core distinguishes, and Kotlin's notion of a blank string. */
module Common {

  datatype Option<+T> = None | Some(value: T)

  /** The exception classes the core tells apart: `IOException` is caught by the
      preference data source; `IllegalArgumentException` is what the validation
      guards build; every other exception is `OtherException`. */
  datatype ExceptionKind = IOException | IllegalArgumentException | OtherException

  /** A thrown exception; its message may be null, as `Throwable.message` may. */
  datatype Exception = Exception(kind: ExceptionKind, message: Option<string>)

  /** Kotlin's `Result<T>`, returned (never thrown) by repositories and data sources. */
  datatype Result<+T> = Success(value: T) | Failure(error: Exception)

  /** How a suspending call ended: it returned a value, or it threw. */
  datatype Completion<+T> = Normal(value: T) | Threw(e: Exception)

  /** Kotlin's `Char.isWhitespace()` on the JVM: `Character.isWhitespace` or
      `Character.isSpaceChar`. */
  predicate IsWhitespace(c: char)
  {
    || ('\t' <= c <= '\r')
    || ('\U{1C}' <= c <= ' ')
    || c == '\U{A0}'
    || c == '\U{1680}'
    || ('\U{2000}' <= c <= '\U{200A}')
    || c == '\U{2028}' || c == '\U{2029}'
    || c == '\U{202F}' || c == '\U{205F}' || c == '\U{3000}'
  }

  /** Kotlin's `CharSequence.isBlank()`: empty, or whitespace only. */
  predicate IsBlank(s: string)
  {
    forall i :: 0 <= i < |s| ==> IsWhitespace(s[i])
  }

  /** Kotlin's `String?.isNullOrBlank()`. */
  predicate IsNullOrBlank(s: Option<string>)
  {
    s.None? || IsBlank(s.value)
  }

  /** `error.message ?: default`, the fallback every screen uses for an error text. */
  function MessageOr(e: Exception, default: string): (m: string)
    ensures e.message.Some? ==> m == e.message.value
    ensures e.message.None? ==> m == default
  {
    match e.message
    case Some(text) => text
    case None => default
  }

  /** The completion of a call that throws `fault` when there is one. */
  function Outcome<T>(fault: Option<Exception>, value: T): (c: Completion<T>)
    ensures c.Normal? <==> fault.None?
    ensures c.Normal? ==> c.value == value
    ensures c.Threw? ==> c.e == fault.value
  {
    if fault.None? then Normal(value) else Threw(fault.value)
  }

  /** `try { Result.success(call()) } catch (e: Exception) { Result.failure(e) }`:
      the value of a normal return, or the caught exception, is handed back. */
  function Catching<T>(c: Completion<T>): (r: Result<T>)
    ensures r.Success? <==> c.Normal?
    ensures r.Success? ==> r.value == c.value
    ensures r.Failure? ==> r.error == c.e
  {
    match c
    case Normal(v) => Success(v)
    case Threw(e) => Failure(e)
  }

  /** `m[k]` on a Kotlin map: the value under `k`, or null. */
  function Lookup<K, V>(m: map<K, V>, k: K): (r: Option<V>)
    ensures r.Some? <==> k in m
    ensures r.Some? ==> r.value == m[k]
  {
    if k in m then Some(m[k]) else None
  }

  /** Kotlin renders a null inside a string template as the four letters "null". */
  function MessageText(e: Exception): string
  {
    match e.message
    case Some(text) => text
    case None => "null"
  }

  /** An exception built by the core itself, with a fixed message. */
  function Raised(kind: ExceptionKind, text: string): (e: Exception)
  {
    Exception(kind, Some(text))
  }
}

/** The two records the chat screens work with. Timestamps are opaque integers
    (`java.util.Date` in the source); the model classes themselves are not part of this
    model, so the fields are those the core reads and writes. */
module ChatModel {
  import opened Common

  type Timestamp = int

  /** `Message.MESSAGE_TYPE_TEXT` and `Message.MESSAGE_TYPE_IMAGE`. */
  datatype MessageType = TextMessage | ImageMessage

  datatype Message = Message(
    id: string,
    channelId: string,
    senderId: string,
    senderName: string,
    text: Option<string>,
    imageUrl: Option<string>,
    timestamp: Timestamp,
    messageType: MessageType)

  /** `createdAt` is absent on a channel document that only a summary merge created. */
  datatype Channel = Channel(
    id: string,
    name: string,
    description: Option<string>,
    createdBy: Option<string>,
    createdAt: Option<Timestamp>,
    lastMessageText: Option<string>,
    lastMessageTimestamp: Option<Timestamp>)

  /** A Firebase user; only its uid is used. */
  datatype User = User(uid: string)

  /** `Constants.KEY_SESSION_ID`. */
  const SESSION_ID_KEY: string := "session_id"

  /** `Constants.DEFAULT_ANONYMOUS_DISPLAY_NAME`. */
  const DEFAULT_ANONYMOUS_DISPLAY_NAME: string := "Anonymous User"
}
