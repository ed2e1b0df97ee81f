/** The stateful side of the conversation screen
    (src/containers/ConversationChat.js): the session's socket emits, the
    inbound `message` handler, `_onSend`, unmounting and the search text.

    Every side effect the screen performs is appended, in order, to one log:
    an event emitted on the socket, or a record handed to the message store
    through `onSendMessage`. */
module ChatScreen {
  import opened ChatMessages
  import opened Timeline

  /** Events the screen emits on its socket. */
  datatype Event = Init(senderId: string) | Message(payload: OutboundWire) | Disconnect(senderId: string)

  datatype Effect = Emit(event: Event) | Store(filing: Filing)

  function SenderOf(e: Event): string
  {
    match e
    case Init(id) => id
    case Message(w) => w.senderId
    case Disconnect(id) => id
  }

  predicate IsInit(e: Effect)
  {
    e.Emit? && e.event.Init?
  }

  /** Every event this screen emits carries the signed-in user's id. */
  predicate EmittedBy(e: Effect, myId: string)
  {
    e.Emit? ==> SenderOf(e.event) == myId
  }

  class ConversationChat {
    const user: User
    const conversation: Conversation
    var message: string
    var searchContent: string
    var effects: seq<Effect>

    /** The log opens with exactly one `init` for the signed-in user, and
        every emitted event carries that user's id. */
    ghost predicate Valid()
      reads this
    {
      |effects| > 0 && effects[0] == Emit(Init(user.myId)) &&
      (forall i :: 0 < i < |effects| ==> !IsInit(effects[i])) &&
      (forall i :: 0 <= i < |effects| ==> EmittedBy(effects[i], user.myId))
    }

    /** Construction: the socket's first emit is `init` with the user's id. */
    constructor (user: User, conversation: Conversation)
      ensures Valid()
      ensures this.user == user && this.conversation == conversation
      ensures effects == [Emit(Init(user.myId))]
      ensures message == "" && searchContent == ""
    {
      this.user := user;
      this.conversation := conversation;
      message := "";
      searchContent := "";
      effects := [Emit(Init(user.myId))];
    }

    /** The inbound `message` handler: the normalised record goes to the store
        under the conversation the payload names, whichever one is on screen. */
    method OnMessage(w: InboundWire)
      requires Valid()
      modifies this`effects
      ensures Valid()
      ensures effects == old(effects) + [Store(Normalize(w))]
      ensures effects[|effects| - 1].filing.conversationId == w.conversationId
    {
      effects := effects + [Store(Normalize(w))];
    }

    /** `_onSend`: only the first message of the batch is used; its wire event
        is emitted, then its local echo is stored under the conversation on
        screen. An empty batch makes the source throw before any effect; `ok`
        is false then and nothing happens. */
    method OnSend(batch: seq<Composed>, now: Timestamp) returns (ok: bool)
      requires Valid()
      modifies this`effects
      ensures Valid()
      ensures ok <==> |batch| > 0
      ensures ok ==> effects == old(effects) + [Emit(Message(OutboundEvent(conversation, user, batch[0], now))),
                                                Store(Filing(conversation.id, LocalEcho(batch[0])))]
      ensures !ok ==> effects == old(effects)
    {
      if |batch| == 0 {
        return false;
      }
      var m := batch[0];
      var w := OutboundEvent(conversation, user, m, now);
      effects := effects + [Emit(Message(w))];
      effects := effects + [Store(Filing(conversation.id, LocalEcho(m)))];
      ok := true;
    }

    /** `componentWillUnmount`: emits `disconnect` with the user's id. */
    method WillUnmount()
      requires Valid()
      modifies this`effects
      ensures Valid()
      ensures effects == old(effects) + [Emit(Disconnect(user.myId))]
    {
      effects := effects + [Emit(Disconnect(user.myId))];
    }

    /** `setStateSearchContent`, the target of the debounced search input. */
    method SetSearchContent(text: string)
      modifies this`searchContent
      ensures searchContent == text
    {
      searchContent := text;
    }

    /** What `render` hands to the chat widget: the plain timeline for an
        empty search text, the search projection otherwise, which in both
        cases is the search projection for the current text. */
    function Rendered(messages: Option<seq<Record>>, friends: map<string, Friend>): (r: Option<seq<DisplayMessage>>)
      reads this
      ensures searchContent == "" ==> r == MappedMessages(messages, user, friends)
      ensures searchContent != "" ==> r == MappedSearchMessages(messages, searchContent, user, friends)
      ensures r == MappedSearchMessages(messages, searchContent, user, friends)
    {
      ViewIsSearch(searchContent, messages, user, friends);
      SelectView(searchContent, messages, user, friends)
    }
  }
}
