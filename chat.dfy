/** The chat component's event and send logic as a state machine: the
    selected conversation, the messages on screen, the input text, the
    store's pending draft (`newConv`) and conversation list, and logs of the
    actions dispatched to the store and the messages sent on the socket.
    Network results (the created conversation, the fetched history) come in
    as method inputs. */
module ChatComponent {
  import opened Values
  import ConversationsSlice

  /** An action dispatched to the store. Only `convAdded` has a reducer in
      the conversations slice; the other three are recorded as dispatched. */
  datatype Dispatch =
    | SliceAction(action: ConversationsSlice.Action)
    | RemoveConv(conv: Conv)
    | NewConvAdded(draft: Option<Conv>)
    | UpdateHasNewMessage(msg: Message)

  const TypeNewConv := "New Conv"
  const TypeNewMsg := "New Msg"

  type OtherEventType = t: string | t != TypeNewConv && t != TypeNewMsg witness ""

  /** A parsed socket event, by its `type` field. */
  datatype Event =
    | NewConvEvent(conv: Conv)
    | NewMsgEvent(msg: Message)
    | OtherEvent(kind: OtherEventType)

  /** Why a send stops before doing anything: reading `id` of a null
      selection throws, or the create-conversation request rejects. */
  datatype SendError = NoSelectedConversation | CreateConvFailed

  datatype SendOutcome = Sent(msg: Message) | Rejected(error: SendError)

  /** The component's state; `newConv == None` is the empty object `{}`. */
  datatype View = View(
    selected: Option<Conv>,
    messages: seq<Message>,
    input: string,
    newConv: Option<Conv>,
    conversations: seq<Conv>,
    dispatched: seq<Dispatch>,
    sent: seq<Message>)

  datatype Sending = Sending(after: View, outcome: SendOutcome)

  /** The receiver of a message the user sends in a conversation: `user2Id`
      when the user is `user1Id`, otherwise `user1Id`. */
  function Receiver(userId: string, conv: Conv): (r: JsStr)
    ensures r == conv.user1Id || r == conv.user2Id
    ensures conv.user1Id == Str(userId) ==> r == conv.user2Id
    ensures conv.user2Id == Str(userId) && conv.user1Id != Str(userId) ==> r == conv.user1Id
    ensures (conv.user1Id == Str(userId)) != (conv.user2Id == Str(userId)) ==> r != Str(userId)
    ensures conv.user1Id != Str(userId) && conv.user2Id != Str(userId) ==> r == conv.user1Id
  {
    if Str(userId) == conv.user1Id then conv.user2Id else conv.user1Id
  }

  /** The message object built for a send in `conv`. */
  function Outgoing(userId: string, conv: Conv, body: string): (m: Message)
    ensures m.convId == conv.id && m.senderId == Str(userId) && m.body == body
    ensures m.receiverId == Receiver(userId, conv)
    ensures (conv.user1Id == Str(userId)) != (conv.user2Id == Str(userId)) ==> m.receiverId != m.senderId
  {
    Message(conv.id, Str(userId), Receiver(userId, conv), body)
  }

  /** An inbound message belongs to the open view. */
  predicate Routed(selected: Option<Conv>, msg: Message): (b: bool)
    ensures selected.None? ==> !b
    ensures selected.Some? ==> (b <==> msg.convId == selected.value.id)
  {
    selected.Some? && msg.convId == selected.value.id
  }

  // ---------------------------------------------------------------------
  // Specification functions, one per handler

  /** The mount effect: a pending draft becomes the selection and is added
      to the store. */
  function Mounted(v: View): (r: View)
    ensures v.newConv.None? ==> r == v
    ensures v.newConv.Some? ==> r.selected == v.newConv
    ensures v.newConv.Some? ==> r.dispatched == v.dispatched + [SliceAction(ConversationsSlice.ConvAddedAction(v.newConv.value))]
    ensures r.messages == v.messages && r.sent == v.sent && r.newConv == v.newConv
    ensures r.input == v.input && r.conversations == v.conversations
  {
    if v.newConv.Some? then
      v.(selected := v.newConv, dispatched := v.dispatched + [SliceAction(ConversationsSlice.ConvAddedAction(v.newConv.value))])
    else v
  }

  /** `socket.onmessage`: a new conversation is dispatched to the store; a
      new message is appended to the view when it belongs to the selected
      conversation and otherwise turned into an unread notification; any
      other event changes nothing. */
  function Received(v: View, e: Event): (r: View)
    ensures r.selected == v.selected && r.sent == v.sent && r.input == v.input
    ensures r.newConv == v.newConv && r.conversations == v.conversations
    ensures e.NewConvEvent? ==>
      r.messages == v.messages && r.dispatched == v.dispatched + [SliceAction(ConversationsSlice.ConvAddedAction(e.conv))]
    ensures e.NewMsgEvent? && Routed(v.selected, e.msg) ==>
      r.messages == v.messages + [e.msg] && r.dispatched == v.dispatched
    ensures e.NewMsgEvent? && !Routed(v.selected, e.msg) ==>
      r.messages == v.messages && r.dispatched == v.dispatched + [UpdateHasNewMessage(e.msg)]
    ensures e.OtherEvent? ==> r == v
  {
    match e
    case NewConvEvent(conv) =>
      v.(dispatched := v.dispatched + [SliceAction(ConversationsSlice.ConvAddedAction(conv))])
    case NewMsgEvent(msg) =>
      if Routed(v.selected, msg) then v.(messages := v.messages + [msg])
      else v.(dispatched := v.dispatched + [UpdateHasNewMessage(msg)])
    case OtherEvent(_) => v
  }

  /** `sendMessage`. With a pending draft it needs the conversation the
      server created (`None` when the request rejects): it removes the draft,
      adds and selects the created conversation, clears the draft, then sends
      and shows the message. Without a draft it sends in the selected
      conversation. A rejected send changes nothing. */
  function Send(v: View, userId: string, body: string, created: Option<Conv>): (r: Sending)
    ensures r.outcome.Rejected? <==> (if v.newConv.Some? then created.None? else v.selected.None?)
    ensures r.outcome.Rejected? ==> r.after == v
    ensures r.outcome.Rejected? ==>
      r.outcome.error == (if v.newConv.Some? then CreateConvFailed else NoSelectedConversation)
    ensures r.outcome.Sent? ==>
      && r.outcome.msg.senderId == Str(userId) && r.outcome.msg.body == body
      && r.after.sent == v.sent + [r.outcome.msg]
      && r.after.messages == v.messages + [r.outcome.msg]
      && r.after.input == v.input && r.after.newConv == v.newConv
      && r.after.conversations == v.conversations
    ensures v.newConv.Some? && created.Some? ==>
      && r.outcome.Sent?
      && r.outcome.msg.convId == created.value.id
      && r.outcome.msg.receiverId == Receiver(userId, created.value)
      && r.after.selected == created
      && r.after.dispatched == v.dispatched + [
           RemoveConv(v.newConv.value),
           SliceAction(ConversationsSlice.ConvAddedAction(created.value)),
           NewConvAdded(None)]
    ensures v.newConv.None? && v.selected.Some? ==>
      && r.outcome.Sent?
      && r.outcome.msg.convId == v.selected.value.id
      && r.outcome.msg.receiverId == Receiver(userId, v.selected.value)
      && r.after.selected == v.selected
      && r.after.dispatched == v.dispatched
  {
    if v.newConv.Some? then
      match created
      case None => Sending(v, Rejected(CreateConvFailed))
      case Some(conv) =>
        var msg := Outgoing(userId, conv, body);
        var promoted := v.(
          dispatched := v.dispatched + [RemoveConv(v.newConv.value), SliceAction(ConversationsSlice.ConvAddedAction(conv)), NewConvAdded(None)],
          selected := Some(conv),
          sent := v.sent + [msg],
          messages := v.messages + [msg]);
        Sending(promoted, Sent(msg))
    else
      match v.selected
      case None => Sending(v, Rejected(NoSelectedConversation))
      case Some(conv) =>
        var msg := Outgoing(userId, conv, body);
        Sending(v.(sent := v.sent + [msg], messages := v.messages + [msg]), Sent(msg))
  }

  /** `handleSend`: sends the input text, then always clears the input. */
  function HandleSendSpec(v: View, userId: string, created: Option<Conv>): (r: Sending)
    ensures r.after.input == ""
    ensures r.outcome.Sent? ==> r.outcome.msg.body == v.input && r.after.messages == v.messages + [r.outcome.msg]
    ensures r.outcome.Rejected? ==> r.after == v.(input := "")
    ensures r.outcome == Send(v, userId, v.input, created).outcome
    ensures r.after == Send(v, userId, v.input, created).after.(input := "")
  {
    var s := Send(v, userId, v.input, created);
    Sending(s.after.(input := ""), s.outcome)
  }

  /** `changeConversation`: clears the chosen conversation's unread flag in
      the store's list and makes it the selection; nothing else changes. */
  function Changed(v: View, i: nat): (r: View)
    requires i < |v.conversations|
    ensures |r.conversations| == |v.conversations|
    ensures !r.conversations[i].hasNewMessage
    ensures r.conversations[i].(hasNewMessage := v.conversations[i].hasNewMessage) == v.conversations[i]
    ensures forall j :: 0 <= j < |v.conversations| && j != i ==> r.conversations[j] == v.conversations[j]
    ensures r.selected == Some(r.conversations[i])
    ensures r.messages == v.messages && r.newConv == v.newConv && r.input == v.input
    ensures r.dispatched == v.dispatched && r.sent == v.sent
  {
    var seen := v.conversations[i].(hasNewMessage := false);
    v.(conversations := v.conversations[i := seen], selected := Some(seen))
  }

  /** The load effect after a selection change: with a selection and no
      draft, the messages are replaced by the fetched history, or by `[]` when
      the fetch fails; otherwise nothing changes. */
  function Loaded(v: View, fetched: Option<seq<Message>>): (r: View)
    ensures r.(messages := v.messages) == v
    ensures v.selected.Some? && v.newConv.None? ==> r.messages == fetched.GetOr([])
    ensures v.selected.None? || v.newConv.Some? ==> r == v
  {
    if v.selected.Some? && v.newConv.None? then v.(messages := fetched.GetOr([])) else v
  }

  // ---------------------------------------------------------------------
  // The component

  class Chat {
    const userId: string
    var selected: Option<Conv>
    var messages: seq<Message>
    var input: string
    var newConv: Option<Conv>
    var conversations: seq<Conv>
    var dispatched: seq<Dispatch>
    var sent: seq<Message>

    function Snapshot(): View
      reads this
    {
      View(selected, messages, input, newConv, conversations, dispatched, sent)
    }

    /** A freshly rendered component: nothing selected, no messages, empty
        input, nothing dispatched or sent yet. */
    constructor (userId: string, newConv: Option<Conv>, conversations: seq<Conv>)
      ensures this.userId == userId
      ensures Snapshot() == View(None, [], "", newConv, conversations, [], [])
    {
      this.userId := userId;
      selected := None;
      messages := [];
      input := "";
      this.newConv := newConv;
      this.conversations := conversations;
      dispatched := [];
      sent := [];
    }

    /** A re-render after a store update: the selectors read the store's new
        draft and conversation list. */
    method SelectorsChanged(newConv: Option<Conv>, conversations: seq<Conv>)
      modifies this
      ensures Snapshot() == old(Snapshot()).(newConv := newConv, conversations := conversations)
    {
      this.newConv := newConv;
      this.conversations := conversations;
    }

    method Mount()
      modifies this
      ensures Snapshot() == Mounted(old(Snapshot()))
    {
      if newConv.Some? {
        selected := newConv;
        dispatched := dispatched + [SliceAction(ConversationsSlice.ConvAddedAction(newConv.value))];
      }
    }

    method OnMessage(e: Event)
      modifies this
      ensures Snapshot() == Received(old(Snapshot()), e)
    {
      match e
      case NewConvEvent(conv) =>
        dispatched := dispatched + [SliceAction(ConversationsSlice.ConvAddedAction(conv))];
      case NewMsgEvent(msg) =>
        if selected.Some? && msg.convId == selected.value.id {
          messages := messages + [msg];
        } else {
          dispatched := dispatched + [UpdateHasNewMessage(msg)];
        }
      case OtherEvent(_) =>
    }

    method SendMessage(body: string, created: Option<Conv>) returns (outcome: SendOutcome)
      modifies this
      ensures Sending(Snapshot(), outcome) == Send(old(Snapshot()), userId, body, created)
    {
      if newConv.Some? {
        if created.None? {
          return Rejected(CreateConvFailed);
        }
        var conv := created.value;
        dispatched := dispatched + [RemoveConv(newConv.value)];
        dispatched := dispatched + [SliceAction(ConversationsSlice.ConvAddedAction(conv))];
        selected := Some(conv);
        dispatched := dispatched + [NewConvAdded(None)];
        var msg := Message(conv.id, Str(userId), Receiver(userId, conv), body);
        sent := sent + [msg];
        messages := messages + [msg];
        outcome := Sent(msg);
      } else {
        if selected.None? {
          return Rejected(NoSelectedConversation);
        }
        var conv := selected.value;
        var msg := Message(conv.id, Str(userId), Receiver(userId, conv), body);
        sent := sent + [msg];
        messages := messages + [msg];
        outcome := Sent(msg);
      }
    }

    method HandleSend(created: Option<Conv>) returns (outcome: SendOutcome)
      modifies this
      ensures Sending(Snapshot(), outcome) == HandleSendSpec(old(Snapshot()), userId, created)
    {
      outcome := SendMessage(input, created);
      input := "";
    }

    /** `handleChange`: the input follows the text area. */
    method HandleChange(text: string)
      modifies this
      ensures Snapshot() == old(Snapshot()).(input := text)
    {
      input := text;
    }

    method ChangeConversation(i: nat)
      requires i < |conversations|
      modifies this
      ensures Snapshot() == Changed(old(Snapshot()), i)
    {
      var seen := conversations[i].(hasNewMessage := false);
      conversations := conversations[i := seen];
      selected := Some(seen);
    }

    method LoadSelected(fetched: Option<seq<Message>>)
      modifies this
      ensures Snapshot() == Loaded(old(Snapshot()), fetched)
    {
      if selected.Some? && newConv.None? {
        messages := fetched.GetOr([]);
      }
    }
  }

  // ---------------------------------------------------------------------
  // Runs of events and sends

  /** Handling a run of socket events in arrival order. */
  function ReceiveAll(v: View, events: seq<Event>): View
    decreases |events|
  {
    if events == [] then v else ReceiveAll(Received(v, events[0]), events[1..])
  }

  /** The messages of a run of events that belong to the selected
      conversation, in arrival order. */
  function RoutedMessages(selected: Option<Conv>, events: seq<Event>): seq<Message> {
    if events == [] then [] else Shown(selected, events[0]) + RoutedMessages(selected, events[1..])
  }

  /** What one event appends to the view. */
  function Shown(selected: Option<Conv>, e: Event): seq<Message> {
    if e.NewMsgEvent? && Routed(selected, e.msg) then [e.msg] else []
  }

  /** What one event dispatches. */
  function EventDispatches(selected: Option<Conv>, e: Event): seq<Dispatch> {
    match e
    case NewConvEvent(conv) => [SliceAction(ConversationsSlice.ConvAddedAction(conv))]
    case NewMsgEvent(msg) => if Routed(selected, msg) then [] else [UpdateHasNewMessage(msg)]
    case OtherEvent(_) => []
  }

  function Dispatches(selected: Option<Conv>, events: seq<Event>): seq<Dispatch> {
    if events == [] then [] else EventDispatches(selected, events[0]) + Dispatches(selected, events[1..])
  }

  /** A run of socket events appends to the view exactly the selected
      conversation's messages in arrival order, dispatches one action per
      other message or new conversation in arrival order, and changes nothing
      else. */
  lemma {:induction false} ReceiveAllAppendsInOrder(v: View, events: seq<Event>)
    decreases |events|
    ensures ReceiveAll(v, events).messages == v.messages + RoutedMessages(v.selected, events)
    ensures ReceiveAll(v, events).dispatched == v.dispatched + Dispatches(v.selected, events)
    ensures ReceiveAll(v, events).(messages := v.messages, dispatched := v.dispatched) == v
  {
    if events != [] {
      var next := Received(v, events[0]);
      ReceiveAllAppendsInOrder(next, events[1..]);
      assert next.messages == v.messages + Shown(v.selected, events[0]);
      assert next.dispatched == v.dispatched + EventDispatches(v.selected, events[0]);
    }
  }

  /** No inbound message is lost: each one is either shown or turned into an
      unread notification. */
  lemma {:induction false} EveryMessageShownOrNotified(selected: Option<Conv>, events: seq<Event>, i: nat)
    requires i < |events| && events[i].NewMsgEvent?
    ensures Routed(selected, events[i].msg) ==> events[i].msg in RoutedMessages(selected, events)
    ensures !Routed(selected, events[i].msg) ==> UpdateHasNewMessage(events[i].msg) in Dispatches(selected, events)
  {
    if i > 0 {
      EveryMessageShownOrNotified(selected, events[1..], i - 1);
    }
  }

  /** A run of sends in a selected, confirmed conversation. */
  function SendAll(v: View, userId: string, bodies: seq<string>): View
    decreases |bodies|
  {
    if bodies == [] then v else SendAll(Send(v, userId, bodies[0], None).after, userId, bodies[1..])
  }

  /** The messages a run of sends in `conv` builds, one per body. */
  function OutgoingAll(userId: string, conv: Conv, bodies: seq<string>): seq<Message> {
    if bodies == [] then [] else [Outgoing(userId, conv, bodies[0])] + OutgoingAll(userId, conv, bodies[1..])
  }

  /** Successive sends in a confirmed conversation put the same messages, in
      the same order, on the socket and at the tail of the view, and
      dispatch nothing. */
  lemma {:induction false} SendAllAppendsInOrder(v: View, userId: string, bodies: seq<string>)
    requires v.newConv.None? && v.selected.Some?
    decreases |bodies|
    ensures SendAll(v, userId, bodies).sent == v.sent + OutgoingAll(userId, v.selected.value, bodies)
    ensures SendAll(v, userId, bodies).messages == v.messages + OutgoingAll(userId, v.selected.value, bodies)
    ensures SendAll(v, userId, bodies).dispatched == v.dispatched
    ensures SendAll(v, userId, bodies).selected == v.selected
  {
    if bodies != [] {
      var conv := v.selected.value;
      var msg := Outgoing(userId, conv, bodies[0]);
      var next := Send(v, userId, bodies[0], None).after;
      assert next == v.(sent := v.sent + [msg], messages := v.messages + [msg]);
      SendAllAppendsInOrder(next, userId, bodies[1..]);
    }
  }

  /** The draft scenario: a component mounted with a draft selects it and
      adds it to the store; the first send promotes it to the created
      conversation, whose later messages then reach the view. */
  lemma DraftPromotion(userId: string, draft: Conv, conversations: seq<Conv>, conv: Conv, body: string, reply: Message)
    requires reply.convId == conv.id
    ensures var mounted := Mounted(View(None, [], "", Some(draft), conversations, [], []));
      var s := Send(mounted, userId, body, Some(conv));
      && mounted.selected == Some(draft)
      && s.outcome == Sent(Outgoing(userId, conv, body))
      && s.after.selected == Some(conv)
      && s.after.messages == [Outgoing(userId, conv, body)]
      && s.after.dispatched == [
           SliceAction(ConversationsSlice.ConvAddedAction(draft)),
           RemoveConv(draft),
           SliceAction(ConversationsSlice.ConvAddedAction(conv)),
           NewConvAdded(None)]
      && Received(s.after, NewMsgEvent(reply)).messages == [Outgoing(userId, conv, body), reply]
  {
  }

  /** Choosing a conversation with no draft pending and loading its history
      shows exactly the fetched messages (none when the fetch fails), with
      the chosen conversation marked as read. */
  lemma ChangeThenLoad(v: View, i: nat, fetched: Option<seq<Message>>)
    requires i < |v.conversations| && v.newConv.None?
    ensures var after := Loaded(Changed(v, i), fetched);
      && after.messages == (if fetched.Some? then fetched.value else [])
      && after.selected.Some? && after.selected.value.id == v.conversations[i].id
      && !after.selected.value.hasNewMessage
  {
  }
}
