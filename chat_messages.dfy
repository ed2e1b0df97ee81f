/** Shapes of the messages handled by the conversation screen
    (src/containers/ConversationChat.js) and the two translations between the
    socket wire format and the records kept in the message store: inbound
    normalisation and the outbound send with its local echo. */
module ChatMessages {

  datatype Option<T> = None | Some(value: T)

  /** A `createdAt` value, otherwise opaque. A payload that crossed the socket
      carries it as text; the chat widget stamps a message composed on this
      device with a Date object, which is not a string. */
  datatype Timestamp = IsoText(text: string) | DateObject(ticks: int)

  /** A record of the message store: `{createdAt, text, userId, _id}`, with its
      keys in that order. */
  datatype Record = Record(createdAt: Timestamp, text: string, userId: string, id: string)

  /** Payload of an inbound socket `message` event. */
  datatype InboundWire = InboundWire(
    conversationId: string, text: string, senderId: string, createdAt: Timestamp, msgId: string)

  /** Payload of an outbound socket `message` event. */
  datatype OutboundWire = OutboundWire(
    conversationId: string, text: string, senderId: string, receiverId: string,
    createdAt: Timestamp, msgId: string)

  /** One call of the store's `onSendMessage(conversationId, record)`. */
  datatype Filing = Filing(conversationId: string, record: Record)

  /** The signed-in user as the screen sees it. */
  datatype User = User(myId: string, fullName: string)

  /** The conversation on screen (from the navigation parameters). */
  datatype Conversation = Conversation(id: string, friendId: string)

  /** A message as the chat widget hands it to `onSend`. */
  datatype Composed = Composed(id: string, text: string, createdAt: Timestamp, user: Author)
  datatype Author = Author(id: string)

  /** The inbound `message` handler's translation: the record is filed under
      the conversation the payload names. */
  function Normalize(w: InboundWire): Filing
  {
    Filing(w.conversationId, Record(w.createdAt, w.text, w.senderId, w.msgId))
  }

  /** Normalisation loses nothing: the filing determines the payload, and every
      field of the payload lands in the field of the filing with its meaning. */
  lemma NormalizeLossless(a: InboundWire, b: InboundWire)
    ensures Normalize(a).conversationId == a.conversationId
    ensures Normalize(a).record.id == a.msgId && Normalize(a).record.userId == a.senderId
    ensures Normalize(a).record.text == a.text && Normalize(a).record.createdAt == a.createdAt
    ensures Normalize(a) == Normalize(b) ==> a == b
  {
  }

  /** The wire event `_onSend` emits for the first composed message. The
      emission time is the device clock, passed in as `now`. */
  function OutboundEvent(conversation: Conversation, user: User, m: Composed, now: Timestamp): OutboundWire
  {
    OutboundWire(conversation.id, m.text, user.myId, conversation.friendId, now, m.id)
  }

  /** The record `_onSend` files for the first composed message. */
  function LocalEcho(m: Composed): Record
  {
    Record(m.createdAt, m.text, m.user.id, m.id)
  }

  /** The wire event and the local echo of one send describe the same message:
      one id, one text, sent by the signed-in user to the conversation's friend. */
  lemma SendPairAgrees(conversation: Conversation, user: User, m: Composed, now: Timestamp)
    ensures OutboundEvent(conversation, user, m, now).msgId == LocalEcho(m).id == m.id
    ensures OutboundEvent(conversation, user, m, now).text == LocalEcho(m).text == m.text
    ensures OutboundEvent(conversation, user, m, now).senderId == user.myId
    ensures OutboundEvent(conversation, user, m, now).receiverId == conversation.friendId
    ensures OutboundEvent(conversation, user, m, now).conversationId == conversation.id
  {
  }

  /** A timestamp as it reads after JSON serialisation: a Date becomes its
      ISO text, given by `iso`; text stays as it is. */
  function Serialized(t: Timestamp, iso: int -> string): Timestamp
  {
    match t
    case IsoText(x) => IsoText(x)
    case DateObject(n) => IsoText(iso(n))
  }

  /** The inbound payload carrying the same message as an outbound one once
      it has crossed the socket: the receiver is dropped, the time is
      serialised to text, every other field is kept. */
  function Relay(w: OutboundWire, iso: int -> string): InboundWire
  {
    InboundWire(w.conversationId, w.text, w.senderId, Serialized(w.createdAt, iso), w.msgId)
  }

  /** Round trip: when a sent message comes back over the socket, normalising
      it yields a record filed under the same conversation as the echo, with the
      echo's id and text; its sender agrees with the echo's exactly when the
      widget stamped the message with the signed-in user's id, and its time is
      the serialised emission time (always text) rather than the widget's. */
  lemma EchoRoundTrip(conversation: Conversation, user: User, m: Composed, now: Timestamp, iso: int -> string)
    ensures Normalize(Relay(OutboundEvent(conversation, user, m, now), iso)).conversationId == conversation.id
    ensures Normalize(Relay(OutboundEvent(conversation, user, m, now), iso)).record.id == LocalEcho(m).id
    ensures Normalize(Relay(OutboundEvent(conversation, user, m, now), iso)).record.text == LocalEcho(m).text
    ensures Normalize(Relay(OutboundEvent(conversation, user, m, now), iso)).record.createdAt.IsoText?
    ensures now.IsoText? ==> Normalize(Relay(OutboundEvent(conversation, user, m, now), iso)).record.createdAt == now
    ensures now.DateObject? ==>
              Normalize(Relay(OutboundEvent(conversation, user, m, now), iso)).record.createdAt == IsoText(iso(now.ticks))
    ensures Normalize(Relay(OutboundEvent(conversation, user, m, now), iso)).record.userId == LocalEcho(m).userId
            <==> m.user.id == user.myId
  {
  }
}
