/** Inbound messages (models/message.py): a Gmail or Slack message with its sender,
    optional subject and text snippet. */
module MessageModel {
  import opened Wrappers
  import opened Basics

  datatype Channel = Gmail | Slack

  /** The enum's string value. */
  function ChannelValue(c: Channel): string
  {
    match c
    case Gmail => "gmail"
    case Slack => "slack"
  }

  /** Validation of a channel given as a string: only the two enum values are accepted. */
  function ParseChannel(s: string): (r: Option<Channel>)
    ensures r.Some? <==> s == "gmail" || s == "slack"
    ensures r.Some? ==> ChannelValue(r.value) == s
  {
    if s == "gmail" then Some(Gmail) else if s == "slack" then Some(Slack) else None
  }

  lemma ChannelRoundTrip(c: Channel)
    ensures ParseChannel(ChannelValue(c)) == Some(c)
  {
  }

  /** The fields every message carries (`MessageBase`). `priority` has no range
      constraint, whatever its description says. */
  datatype MessageBase = MessageBase(
    externalId: string,
    channel: Channel,
    sender: string,
    subject: Option<string>,
    snippet: string,
    receivedAt: Timestamp,
    rawRef: Option<string>,
    priority: Option<int>)

  /** A stored message (`MessageRead`). */
  datatype Message = Message(
    msgId: Uuid,
    accountId: Uuid,
    externalId: string,
    channel: Channel,
    sender: string,
    subject: Option<string>,
    snippet: string,
    receivedAt: Timestamp,
    rawRef: Option<string>,
    priority: Option<int>,
    createdAt: Timestamp)

  /** `message.subject` is truthy: present and non-empty. */
  predicate HasSubject(m: Message)
  {
    m.subject.Some? && m.subject.value != ""
  }

  /** `message.subject or ''`. */
  function SubjectText(m: Message): (r: string)
    ensures HasSubject(m) ==> r == m.subject.value
    ensures !HasSubject(m) ==> r == ""
  {
    if m.subject.Some? then m.subject.value else ""
  }

  function Assemble(b: MessageBase, msgId: Uuid, accountId: Uuid, createdAt: Timestamp): Message
  {
    Message(msgId, accountId, b.externalId, b.channel, b.sender, b.subject, b.snippet,
            b.receivedAt, b.rawRef, b.priority, createdAt)
  }

  /** `MessageRead(...)` as declared: an omitted `msg_id` is produced by the
      default factory `UUID`, and calling `UUID()` without arguments raises, so
      construction fails; an omitted `created_at` takes the current time. */
  function MessageReadAsDeclared(b: MessageBase, accountId: Uuid, msgId: Option<Uuid>,
                                 createdAt: Option<Timestamp>, now: Timestamp): (r: Result<Message, string>)
    ensures r.Ok? <==> msgId.Some?
    ensures r.Ok? ==> r.value.msgId == msgId.value && r.value.accountId == accountId
  {
    if msgId.None? then Err("UUID() requires one of hex, bytes, bytes_le, fields or int")
    else Ok(Assemble(b, msgId.value, accountId, if createdAt.Some? then createdAt.value else now))
  }

  /** The discrepancy: a message built without an explicit id never gets one. */
  lemma OmittedMessageIdFails(b: MessageBase, accountId: Uuid, now: Timestamp)
    ensures MessageReadAsDeclared(b, accountId, None, None, now).Err?
  {
  }

  /** `MessageRead(...)` as intended: an omitted `msg_id` is a fresh UUID (`uuid4()`,
      handed in as `freshId`); an omitted `created_at` is the current time. Every
      base record is accepted: `priority` is not range-checked. */
  function NewMessageRead(b: MessageBase, accountId: Uuid, msgId: Option<Uuid>, freshId: Uuid,
                          createdAt: Option<Timestamp>, now: Timestamp): (r: Result<Message, string>)
    ensures r.Ok?
    ensures r.value.msgId == (if msgId.Some? then msgId.value else freshId)
    ensures r.value.createdAt == (if createdAt.Some? then createdAt.value else now)
    ensures r.value.accountId == accountId && r.value.priority == b.priority
    ensures r.value.sender == b.sender && r.value.subject == b.subject && r.value.snippet == b.snippet
    ensures r.value.externalId == b.externalId && r.value.channel == b.channel
    ensures r.value.receivedAt == b.receivedAt && r.value.rawRef == b.rawRef
  {
    Ok(Assemble(b, if msgId.Some? then msgId.value else freshId, accountId,
                if createdAt.Some? then createdAt.value else now))
  }

  /** Whenever the declared constructor succeeds, the intended one builds the same message. */
  lemma IntendedAgreesWhenIdGiven(b: MessageBase, accountId: Uuid, msgId: Uuid, freshId: Uuid,
                                  createdAt: Option<Timestamp>, now: Timestamp)
    ensures MessageReadAsDeclared(b, accountId, Some(msgId), createdAt, now)
         == NewMessageRead(b, accountId, Some(msgId), freshId, createdAt, now)
  {
  }
}
