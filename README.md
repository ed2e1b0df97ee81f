# ChatApp client: conversation pipeline and sign-in validation

A Dafny model of the two pieces of logic inside the React Native screens of
the ChatApp mobile client.

- **Conversation screen** (`src/containers/ConversationChat.js`). A wire
  message from the socket is normalised into a store record
  (`msgId → _id`, `senderId → userId`, text and time kept) and filed under the
  conversation the payload names. Sending emits a wire event and files a local
  echo that share one id. The store's records are projected for display:
  each record is mapped to a widget message with its sender's name resolved,
  and the list is reversed so the newest comes first. A search narrows the
  records to those with a string field that contains the search text,
  ignoring case, before the same mapping and reversal. `render` picks the
  plain timeline for an empty search text and the search projection
  otherwise. The socket emits `init` at construction and `disconnect` at
  unmount, both with the user's id.
- **Sign-in form** (`src/containers/SignIn.js`). Two validation steps each
  set their own error field to `''` or to a fixed message. Both steps always
  run. The sign-in request is sent only when both pass.

Layout:

- `chat_messages.dfy`, module `ChatMessages`: wire payloads, store records,
  inbound normalisation, the outbound event and local echo of a send.
- `timeline.dfy`, module `Timeline`: sender names, the timeline projection,
  the case-insensitive search filter, the view choice.
- `chat_screen.dfy`, module `ChatScreen`: class `ConversationChat`. Every
  side effect goes into one ordered log `effects`: socket emits and records
  handed to the store. The class also holds the `searchContent` field.
- `sign_in.dfy`, module `SignIn`: class `SignInForm`. It holds the form's
  state fields and the log of `onSignIn` requests.

Modelling choices:

- A JavaScript `TypeError` becomes an explicit error outcome. A sender id
  that is neither the user's own nor in the roster has no name
  (`SenderName` is `None`). A projection that meets such a sender is `None`
  as a whole. `_onSend` on an empty batch returns `ok == false` and has no
  effect.
- `createdAt` is opaque. A payload that crossed the socket carries it as
  text (`IsoText`): a Date sent by `_onSend` is serialised to its ISO text.
  The chat widget stamps a locally composed message with a Date object
  (`DateObject`). Only strings have a `match` method, so a Date
  never matches a search.
- `validateEmail` and `isEmpty` are abstract predicates given to the form's
  constructor. The form accepts the password when `isEmpty(password)` is
  true, exactly as the code passes `isEmpty` as the validator. Whether that
  helper returns true for non-empty text cannot be decided here, because its
  definition is not part of this model.
- The device clock (`new Date()` in `_onSend`) is the parameter `now`.

The code does not deduplicate records by id: both the inbound handler and
`_onSend` hand every record to the store. Unmounting twice emits
`disconnect` twice. No operation checks a session state. The timeline is the
stored order reversed, not a sort by time. A malformed search pattern is not
caught. The empty search text reaches the unfiltered timeline through the
branch in `render`. The lemma `Timeline.ViewIsSearch` also shows that the
filter with an empty pattern would keep every record anyway.

## Model

| member | source | states |
|---|---|---|
| `ChatMessages.NormalizeLossless` | src/containers/ConversationChat.js:53-60 | The filing keeps the payload's conversation id. `_id` is `msgId`, `userId` is `senderId`, and text and `createdAt` are kept. Two payloads with the same filing are equal, so nothing is lost. |
| `ChatMessages.SendPairAgrees` | src/containers/ConversationChat.js:147-160 | The wire event and the local echo of one send share the message's id and text. The wire sender is `user.myId`, the receiver is `conversation.friendId`, and the conversation is the one on screen. |
| `ChatMessages.EchoRoundTrip` | src/containers/ConversationChat.js:147-160 | Normalising the sent event when it comes back over the socket gives the echo's conversation, id and text. Its time is the emission time serialised to text (`new Date()` becomes its ISO string), so it is always a string. Its sender equals the echo's exactly when the widget stamped the message with the user's id. |
| `Timeline.SenderName` | src/containers/ConversationChat.js:98-101 | A name exists exactly for the user's own id or a roster id. The own id gets `user.fullName` even if the roster lists it. Any other id gets `friends[id].fullName`. |
| `Timeline.ReverseAt` | src/containers/ConversationChat.js:118 | Reversal keeps the length, and element k is element n-1-k of the input. |
| `Timeline.MapAllSpec` | src/containers/ConversationChat.js:106-117 | The mapping succeeds exactly when every sender has a name. It then keeps the length, and element i shows record i: `_id`, `key == _id`, text, time, `user._id == userId` and the resolved name. |
| `Timeline.MappedMessagesSpec` | src/containers/ConversationChat.js:103-120 | Absent messages give `[]`. Otherwise the result exists exactly when every sender has a name. It then has the input's length, and element i shows record n-1-i. |
| `Timeline.ContainsFoldSpec` | src/containers/ConversationChat.js:127 | The case-insensitive scan finds the pattern exactly when it occurs at some position, letters compared without case. |
| `Timeline.RecordMatchesFields` | src/containers/ConversationChat.js:125-127 | A record matches exactly when its text, `userId`, `_id` or a text `createdAt` contains the pattern. A Date `createdAt` never matches. |
| `Timeline.FilterKeepsExactlyMatches` | src/containers/ConversationChat.js:125-127 | The filter's output is the input at strictly ascending positions, and those positions are exactly the matching records. It is an order-preserving subsequence that drops no match. |
| `Timeline.MappedSearchSpec` | src/containers/ConversationChat.js:122-142 | Absent messages give `[]`. Otherwise the result fails only when a matching record's sender has no name. It then has one element per matching record, and element k shows the k-th match counted from the newest. |
| `Timeline.EmptyPatternKeepsAll` | src/containers/ConversationChat.js:125-127 | Filtering with the empty pattern returns the records unchanged. |
| `Timeline.ViewIsSearch` | src/containers/ConversationChat.js:164-180 | An empty search text renders the unfiltered timeline, and any other text renders the search projection. Both cases equal the search projection for the current text. |
| `ChatScreen.ConversationChat.constructor` | src/containers/ConversationChat.js:44-67 | The log is exactly one `init` carrying `user.myId`. `message` and `searchContent` are `''`. The session invariant holds: one leading `init`, and every emit carries the user's id. |
| `ChatScreen.ConversationChat.OnMessage` | src/containers/ConversationChat.js:53-61 | Appends one store filing of the normalised payload, under the payload's conversation id. The invariant is kept. |
| `ChatScreen.ConversationChat.OnSend` | src/containers/ConversationChat.js:144-162 | On a non-empty batch, appends the wire event for `batch[0]` and then the echo of `batch[0]`, filed under the conversation on screen. Other elements are ignored. An empty batch changes nothing. |
| `ChatScreen.ConversationChat.WillUnmount` | src/containers/ConversationChat.js:88-92 | Appends `disconnect` carrying `user.myId`, and keeps the invariant. |
| `ChatScreen.ConversationChat.SetSearchContent` | src/containers/ConversationChat.js:94-96 | The search text becomes the given text. Nothing else changes. |
| `ChatScreen.ConversationChat.Rendered` | src/containers/ConversationChat.js:164-180 | An empty `searchContent` renders the plain timeline and any other text the search projection; in both cases the result equals the search projection for the current text. |
| `SignIn.SignInForm.constructor` | src/containers/SignIn.js:49-55 | Email, password, `emailError` and `passwordError` are `''`, `focusInput` is false, and no request has been sent. |
| `SignIn.SignInForm.ChangeEmail` | src/containers/SignIn.js:112 | Only the email field changes, to the typed text. |
| `SignIn.SignInForm.ChangePassword` | src/containers/SignIn.js:119 | Only the password field changes, to the typed text. |
| `SignIn.SignInForm.Validation` | src/containers/SignIn.js:57-73 | Returns whether the predicate accepts `data`. The named error field becomes `''` on success and `errorMessage` otherwise. The other error field, email, password and requests do not change. |
| `SignIn.SignInForm.ValidateData` | src/containers/SignIn.js:75-89 | Both error fields are refreshed: `'Wrong type of email'` or `''`, and `'This field cannot be empty'` or `''`. The result is the conjunction of both checks. |
| `SignIn.SignInForm.SignIn` | src/containers/SignIn.js:91-100 | Exactly one request `{email, password}` from the current state is appended when both checks pass, and none otherwise. Both error fields are refreshed either way. |

## Left out

- React and navigation: `navigationOptions`, `componentDidMount`'s header wiring, the chat widget, and the `render` markup other than the view choice.
- The socket.io transport: connection, reachability and delivery. Emits are log entries, and inbound messages are calls of `OnMessage`.
- The 3000 ms lodash debounce in front of `setStateSearchContent`. It is timer behaviour; only the field assignment it ends in is modelled.
- `componentWillMount`'s `onLoadMessages` call, and the Redux actions and reducers behind `onLoadMessages`, `onSendMessage` and `onSignIn`. They are not part of this model, so whether the store deduplicates by id is not modelled.
- `Timeline.ContainsFold`: the search text is a literal pattern. Regular-expression syntax in it is not interpreted. A malformed pattern, which makes `new RegExp` throw, is not modelled.
- `Timeline.Lower`: case folding covers ASCII letters only. The `i` flag's folding of other characters is not modelled.
- `Timeline.FieldValues`: a record has exactly the four fields `createdAt`, `text`, `userId` and `_id`, all strings except possibly `createdAt`. Records loaded by actions outside this model may carry other fields.
- `Timeline.SenderName`: the roster is a map. Keys that a plain JavaScript object inherits from its prototype are not modelled.
- React's batching of `setState` is modelled as immediate assignment. Validation never writes email or password, so `_signIn` sees the same values either way.
- `SignIn.js` `componentWillUnmount` (`onClearError`) and the lower-casing of the displayed email are UI and are not modelled.
- `validateEmail` and `isEmpty` are abstract. Their definitions are not part of this model.
- `ChatScreen.ConversationChat`: `user` and `conversation` are fixed for the screen's lifetime. The source re-reads `this.props.user` and the navigation parameters at every emit and send, so a change of those props while the screen is mounted is not modelled; the invariant that every emit carries the user's id relies on this.
- `ChatMessages.Serialized`: the ISO text of a Date is an abstract function `iso`; its format is not modelled.
