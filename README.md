# Conversation state of the chat client

This project models the client-side conversation state of the chat UI. It has two parts.

- **The `convs` slice reducer** (`ConversationsSlice`, in `conversations_slice.dfy`). It handles three actions:
  - `convsAdded` bulk-loads the conversation list.
  - `convMessageAdded` appends one message to a conversation.
  - `convAdded` inserts or overwrites one conversation.

  Every other action returns the state unchanged. The model reproduces the code as written:
  - the bulk load first sets `message = []` on every payload conversation in place;
  - it then stores each conversation as the one-field object `{ id: conv }`, keyed by its array position "0" to "n-1";
  - the message case reads the entry's `message` list and writes `messages`.

  The lemmas make these quirks explicit. A message added right after a bulk load always throws. Successive message additions never accumulate.
- **The chat component's event and send logic** (`ChatComponent`, in `chat.dfy`). The class `Chat` holds:
  - the selected conversation;
  - the messages on screen;
  - the input text;
  - the store's pending draft (`newConv`) and conversation list;
  - a log of the actions dispatched to the store and a log of the messages sent on the socket.

  Its methods are the socket `onmessage` handler, `sendMessage`, `handleSend`, `handleChange`, `changeConversation`, the mount effect and the load effect that runs after a selection change. Results from the network come in as method inputs:
  - the conversation the server created, or `None` when the request rejects. The code never checks `resp.ok`: any reply body that parses as JSON, an HTTP error body included, comes in as `Some` of that object, and a reply without an `id` then promotes a conversation whose id is `undefined`. Only a network failure or a body that is not JSON gives `None`;
  - the fetched message history, or `None` when the fetch fails.

  Each method is specified by a pure function on a `View` of the component's state. Lemmas about those functions cover runs of events and sends.

`values.dfy` (`Values`) holds the shared value types:
- `JsStr`, an id-like property that may be `undefined` (a draft conversation has no `id`);
- the property key JavaScript derives from such a value (`undefined` becomes "undefined");
- the decimal key of an array position;
- `Message` and `Conv`.

The code is simpler than a full synchronisation design would be, and the model follows the code:
- A `New Conv` socket event dispatches `convAdded`. That action overwrites any entry with the same id. It is not a no-op for a known conversation, and it does not mark the conversation unread.
- A `New Msg` event for a conversation that is not selected only dispatches `updateHasNewMessage`. Nothing in this code moves that conversation to the head of the list.
- Inbound events are not buffered while a draft is being promoted.
- Selecting a conversation does not discard a pending draft. `changeConversation` only clears `hasNewMessage` and sets the selection.
- The handlers do not check for self-messaging, an empty body or an orphan message. Sending with nothing selected and no draft throws on `selectedConversation.id`; the model returns `Rejected(NoSelectedConversation)` with no state change.
- The draft's create request carries only `starterId` and `targetId`. The first message is then sent on the socket like any other message.

## Model

| member | source | states |
|---|---|---|
| Values.IndexKey | ui/src/slices/conversationsSlice.js:54-56 | the key an array position gets when the array is spread into an object is a non-empty decimal numeral, at least two digits long from 10 on |
| Values.IndexKeyInjective | ui/src/slices/conversationsSlice.js:54-56 | distinct array positions get distinct keys |
| ConversationsSlice.TypeOf | ui/src/slices/conversationsSlice.js:22-39 | an action has one of the three handled types exactly when one of the three action creators built it |
| ConversationsSlice.InitialState | ui/src/slices/conversationsSlice.js:1-20 | the slice starts with no conversation entries |
| ConversationsSlice.Wrap | ui/src/slices/conversationsSlice.js:48-51 | the bulk load maps each payload conversation, in order, to the one-field object `{ id: conv }` |
| ConversationsSlice.SpreadArray | ui/src/slices/conversationsSlice.js:54-56 | spreading the wrapped array into an object keys the elements by exactly the positions "0" to "n-1" |
| ConversationsSlice.BulkLoadEntries | ui/src/slices/conversationsSlice.js:48-56 | the bulk-load map has exactly one entry per payload conversation; its keys are exactly "0" to "n-1"; the value under key i is `{ id: conv_i }` |
| ConversationsSlice.ConvsAdded | ui/src/slices/conversationsSlice.js:43-58 | every payload conversation gets `message = []` in place; the whole `convs` map is replaced by the bulk-load map of the updated payload; every other top-level field is kept |
| ConversationsSlice.ConvMessageAdded | ui/src/slices/conversationsSlice.js:59-71 | succeeds iff the key holds a copied conversation with a `message` array, and otherwise throws (reading `message` of undefined, or spreading a non-array); on success the entry's `messages` is its `message` list plus the new message at the tail, all its other fields and every other key are unchanged, and the key set and other top-level fields are kept |
| ConversationsSlice.MessagesDoNotAccumulate | ui/src/slices/conversationsSlice.js:60-67 | after any non-empty run of message additions to one conversation, its `message` field is untouched and `messages` is `message` plus only the last message |
| ConversationsSlice.MessageAfterBulkLoadThrows | ui/src/slices/conversationsSlice.js:48-67 | after a bulk load, adding a message to any key throws, because every entry is an `{ id: conv }` object without a `message` array |
| ConversationsSlice.ConvAdded | ui/src/slices/conversationsSlice.js:72-84 | afterwards the conversation's id key holds a copy of the conversation, the key set gains at most that key, every other key and every other top-level field are unchanged |
| ConversationsSlice.ConvAddedIdempotent | ui/src/slices/conversationsSlice.js:76-82 | adding the same conversation twice gives the same state as adding it once |
| ConversationsSlice.ConvAddedOverwrites | ui/src/slices/conversationsSlice.js:76-82 | a later conversation with the same id overwrites the earlier entry rather than adding a second entry |
| ConversationsSlice.Reduce | ui/src/slices/conversationsSlice.js:41-88 | each handled action goes to its case; an action whose type is none of the three handled types returns the state unchanged; every successful case keeps the other top-level fields |
| ChatComponent.Receiver | ui/src/components/Chat.jsx:101-104 | the receiver is a participant: `user2Id` when the user is `user1Id`, `user1Id` when the user is only `user2Id`, never the user when the user is exactly one participant, and `user1Id` when the user is neither |
| ChatComponent.Outgoing | ui/src/components/Chat.jsx:89-94 | a sent message carries the conversation's id, the user as sender, the receiver chosen by `Receiver` and the typed body; the receiver differs from the sender when the user is exactly one participant |
| ChatComponent.Routed | ui/src/components/Chat.jsx:59 | an inbound message is shown only when a conversation is selected, and then exactly when its `convId` equals the selection's id |
| ChatComponent.Mounted | ui/src/components/Chat.jsx:46-51 | on mount, a pending draft becomes the selection and `convAdded(draft)` is dispatched, and nothing else changes; without a draft nothing changes at all |
| ChatComponent.Received | ui/src/components/Chat.jsx:53-65 | `New Conv` dispatches exactly `convAdded(conv)`; `New Msg` for the selected conversation is appended at the tail of the view and dispatches nothing; any other `New Msg` (also with nothing selected) dispatches `updateHasNewMessage(msg)` and leaves the view unchanged; other events change nothing; selection and sends are never touched |
| ChatComponent.Send | ui/src/components/Chat.jsx:67-110 | with a draft and a created conversation: dispatches `removeConv(draft)`, `convAdded(conv)`, `newConvAdded({})` in that order, selects the conversation, and sends and appends a message with `convId = conv.id`; without a draft: sends and appends a message in the selected conversation; in both the sender is the user and the receiver follows `Receiver`; a rejected request or a null selection changes nothing |
| ChatComponent.HandleSendSpec | ui/src/components/Chat.jsx:112-118 | sends the input text, with exactly the outcome and state changes of `Send`, and then always clears the input, even when the send is rejected |
| ChatComponent.Changed | ui/src/components/Chat.jsx:137-140 | the chosen conversation's `hasNewMessage` becomes false in the store's list, all its other fields and all other conversations are unchanged, and it becomes the selection |
| ChatComponent.Loaded | ui/src/components/Chat.jsx:28-43 | with a selection and no draft the messages are replaced wholesale by the fetched list, or by `[]` when the fetch fails; otherwise nothing changes; only the messages ever change |
| ChatComponent.Chat.constructor | ui/src/components/Chat.jsx:15-26 | a new component has no selection, no messages, empty input and empty logs, and the store's draft and conversation list |
| ChatComponent.Chat.SelectorsChanged | ui/src/components/Chat.jsx:17-26 | a re-render reads the store's new draft and conversation list and changes nothing else |
| ChatComponent.Chat.Mount | ui/src/components/Chat.jsx:46-51 | the new state is `Mounted` of the old one |
| ChatComponent.Chat.OnMessage | ui/src/components/Chat.jsx:53-65 | the new state is `Received` of the old one and the event |
| ChatComponent.Chat.SendMessage | ui/src/components/Chat.jsx:67-110 | the new state and the outcome are those of `Send` |
| ChatComponent.Chat.HandleSend | ui/src/components/Chat.jsx:112-118 | the new state and the outcome are those of `HandleSendSpec` |
| ChatComponent.Chat.HandleChange | ui/src/components/Chat.jsx:130-132 | the input becomes the typed text; nothing else changes |
| ChatComponent.Chat.ChangeConversation | ui/src/components/Chat.jsx:137-140 | the new state is `Changed` of the old one |
| ChatComponent.Chat.LoadSelected | ui/src/components/Chat.jsx:28-43 | the new state is `Loaded` of the old one and the fetch result |
| ChatComponent.ReceiveAllAppendsInOrder | ui/src/components/Chat.jsx:53-65 | a run of socket events appends to the view exactly the selected conversation's messages, in arrival order; it dispatches one action per new conversation or other message, in arrival order; it changes nothing else |
| ChatComponent.EveryMessageShownOrNotified | ui/src/components/Chat.jsx:58-63 | no inbound message is lost: each is either shown in the view or dispatched as an unread notification |
| ChatComponent.SendAllAppendsInOrder | ui/src/components/Chat.jsx:97-109 | successive sends in a confirmed conversation put the same messages, in the same order, on the socket and at the tail of the view; they dispatch nothing and keep the selection |
| ChatComponent.DraftPromotion | ui/src/components/Chat.jsx:46-96 | mounting with a draft selects it and adds it to the store; the first send then logs `convAdded(draft)`, `removeConv(draft)`, `convAdded(conv)`, `newConvAdded({})`, selects the created conversation and shows the one sent message; a later inbound message for that conversation is appended to the view |
| ChatComponent.ChangeThenLoad | ui/src/components/Chat.jsx:137-140 | choosing a conversation with no draft pending and then loading its history shows exactly the fetched messages (none on failure); the chosen conversation is selected and marked read |

## Left out

- Asynchrony: every handler is one atomic step. This leaves out three things. `handleSend` does not await `sendMessage`. Socket events can arrive while the create request is in flight. After the `await`, `sendMessage` appends to the `messages` value of the render that started it, which can drop messages shown in the meantime.
- Aliasing of JavaScript objects:
  - The bulk load's `message = []` write is modelled on the payload array's elements. Other references to the same objects are not modelled.
  - `changeConversation` writes `hasNewMessage` into the store's list element. The model then selects a copy, so it does not capture later sharing between the selection and the list.
- `removeConv`, `newConvAdded` and `updateHasNewMessage`: their reducers are not part of this model, so these actions are only recorded. For the same reason `sendMessage` does not clear `newConv` itself. The store's new draft arrives through `SelectorsChanged`.
- `convsList` and `newConv`, the store fields the component reads, belong to a slice version that is not part of this model. They are inputs of the component.
- JSON parsing of socket events and of the server's reply. A parse failure throws before any state change, which the model treats as a rejected request or an ignored event. Console logging is also left out.
- Conversation fields that no core logic reads (`startedAt`, `lastMessage`, `lastUpdated`, the last-seen times, `numMessages`) and extra message fields. An absent `hasNewMessage` is modelled as `false`.
- Payloads of the wrong shape. The payload of each action and event is typed, so an action with a handled type but a foreign payload cannot be built.
- The reducer's default `state = initialState` argument. Callers always pass a state; `InitialState` is the empty one.
- `socket.send` throwing while the socket is still connecting (Chat.jsx:95, 107). The model treats every send as delivered. On the draft path such a throw would come after the three dispatches and before the messages are appended.
- When the effects run. The mount effect runs once (Chat.jsx:51) and the load effect only after a selection change (Chat.jsx:43). The model's `Mount` and `LoadSelected` can be called at any time; the lemmas `DraftPromotion` and `ChangeThenLoad` show the intended orders.
- The render guard. The Send button is rendered only with a selection (Chat.jsx:178) and is disabled for blank input (Chat.jsx:186). So `Rejected(NoSelectedConversation)` and blank sends cannot be reached from the UI; the model still allows them, as the handlers themselves do.
- Rendering, the scroll effect, the close button and the `mfetch`/`mfetchjson` calls themselves: presentation and network I/O.
- The server (`server/convs.go`, `core/convs.go`), the socket context, the store wiring and the build configuration: I/O, SQL and wiring outside the client state logic.
