/** The `convs` slice of the Redux store: its action creators and its
    reducer over the map from key to conversation entry. */
module ConversationsSlice {
  import opened Values

  const TypeConvsAdded := "convs/convsAdded"
  const TypeConvMessageAdded := "convs/convMessageAdded"
  const TypeConvAdded := "convs/convAdded"

  /** The type of an action some other part of the application dispatches. */
  type ForeignType = t: string | t != TypeConvsAdded && t != TypeConvMessageAdded && t != TypeConvAdded
    witness ""

  /** The actions the three action creators return, and any other action
      that reaches this reducer. The bulk-load payload is the caller's array,
      which the reducer updates in place. */
  datatype Action =
    | ConvsAddedAction(convs: array<Conv>)
    | ConvMessageAddedAction(convId: JsStr, message: Message)
    | ConvAddedAction(conv: Conv)
    | OtherAction(kind: ForeignType)

  /** The `type` field of an action: the three creators' actions carry the
      three handled types, every other action a type the reducer ignores. */
  function TypeOf(a: Action): (t: string)
    ensures t == TypeConvsAdded <==> a.ConvsAddedAction?
    ensures t == TypeConvMessageAdded <==> a.ConvMessageAddedAction?
    ensures t == TypeConvAdded <==> a.ConvAddedAction?
  {
    match a
    case ConvsAddedAction(_) => TypeConvsAdded
    case ConvMessageAddedAction(_, _) => TypeConvMessageAdded
    case ConvAddedAction(_) => TypeConvAdded
    case OtherAction(kind) => kind
  }

  /** A value of the `convs` map: a copied conversation, or the one-field
      object `{ id: conv }` the bulk load stores. */
  datatype Entry = ConvEntry(conv: Conv) | IdWrapper(id: Conv)

  /** The slice state: the `convs` map and, as `rest`, whatever other
      top-level fields the state object carries. */
  datatype ConvsState<R> = ConvsState(convs: map<string, Entry>, rest: R)

  /** The state the reducer starts from: no conversations. */
  function InitialState(): (r: ConvsState<()>)
    ensures r.convs.Keys == {}
  {
    ConvsState(map[], ())
  }

  /** The two ways the message case throws: reading `message` of a missing
      entry, and spreading a `message` that is not an array. */
  datatype TypeError = ReadOfUndefined | NotIterable

  datatype Result<T> = Ok(value: T) | Throws(error: TypeError)

  // ---------------------------------------------------------------------
  // convsAdded

  /** `convs.map((conv) => ({ id: conv }))`: each conversation wrapped in an
      object whose single field is named `id`. */
  function Wrap(convs: seq<Conv>): (r: seq<Entry>)
    ensures |r| == |convs|
    ensures forall i :: 0 <= i < |convs| ==> r[i] == IdWrapper(convs[i])
  {
    seq(|convs|, i requires 0 <= i < |convs| => IdWrapper(convs[i]))
  }

  /** The keys "0" to "n-1". */
  function IndexKeys(n: nat): set<string> {
    set i | 0 <= i < n :: IndexKey(i)
  }

  /** `{ ...entries }`: spreading an array into an object keys each element
      by its position, so the keys are exactly "0" to "n-1". */
  function SpreadArray(entries: seq<Entry>): (m: map<string, Entry>)
    ensures m.Keys == IndexKeys(|entries|)
  {
    if entries == [] then map[]
    else
      var last := |entries| - 1;
      assert IndexKeys(|entries|) == IndexKeys(last) + {IndexKey(last)};
      SpreadArray(entries[..last])[IndexKey(last) := entries[last]]
  }

  lemma {:induction false} SpreadArrayAt(entries: seq<Entry>, i: nat)
    requires i < |entries|
    ensures IndexKey(i) in SpreadArray(entries) && SpreadArray(entries)[IndexKey(i)] == entries[i]
  {
    var last := |entries| - 1;
    if i < last {
      SpreadArrayAt(entries[..last], i);
      if IndexKey(i) == IndexKey(last) {
        IndexKeyInjective(i, last);
      }
    }
  }

  lemma {:induction false} SpreadArraySize(entries: seq<Entry>)
    ensures |SpreadArray(entries)| == |entries|
  {
    if entries != [] {
      var last := |entries| - 1;
      var prefix := entries[..last];
      SpreadArraySize(prefix);
      if IndexKey(last) in IndexKeys(last) {
        var i :| 0 <= i < |prefix| && IndexKey(last) == IndexKey(i);
        IndexKeyInjective(i, last);
      }
    }
  }

  /** The map a bulk load builds: exactly one entry per conversation, under
      the keys "0" to "n-1", each the object `{ id: conv }` around the
      conversation at that position; no key of the previous map survives
      unless it is such a position. */
  lemma BulkLoadEntries(convs: seq<Conv>)
    ensures |SpreadArray(Wrap(convs))| == |convs|
    ensures SpreadArray(Wrap(convs)).Keys == IndexKeys(|convs|)
    ensures forall i :: 0 <= i < |convs| ==> SpreadArray(Wrap(convs))[IndexKey(i)] == IdWrapper(convs[i])
  {
    var entries := Wrap(convs);
    assert |entries| == |convs|;
    SpreadArraySize(entries);
    forall i | 0 <= i < |convs|
      ensures SpreadArray(entries)[IndexKey(i)] == IdWrapper(convs[i])
    {
      SpreadArrayAt(entries, i);
    }
  }

  /** The `convsAdded` case: sets `message = []` on every conversation of the
      payload in place, then replaces the whole `convs` map by the bulk-load
      map of the payload. */
  method ConvsAdded<R>(state: ConvsState<R>, payload: array<Conv>) returns (r: ConvsState<R>)
    modifies payload
    ensures forall i :: 0 <= i < payload.Length ==> payload[i] == old(payload[i]).(message := Some([]))
    ensures r == state.(convs := SpreadArray(Wrap(payload[..])))
  {
    var i := 0;
    while i < payload.Length
      invariant 0 <= i <= payload.Length
      invariant forall j :: 0 <= j < i ==> payload[j] == old(payload[j]).(message := Some([]))
      invariant forall j :: i <= j < payload.Length ==> payload[j] == old(payload[j])
    {
      payload[i] := payload[i].(message := Some([]));
      i := i + 1;
    }
    r := state.(convs := SpreadArray(Wrap(payload[..])));
  }

  // ---------------------------------------------------------------------
  // convMessageAdded

  /** The entry under `key` is a copied conversation whose `message` property
      is an array. */
  predicate HoldsMessageList<R>(state: ConvsState<R>, key: string) {
    key in state.convs && state.convs[key].ConvEntry? && state.convs[key].conv.message.Some?
  }

  /** The `convMessageAdded` case: the entry's `messages` becomes its
      `message` list followed by the new message; it throws when the entry is
      missing or has no `message` array. */
  function ConvMessageAdded<R>(state: ConvsState<R>, convId: JsStr, message: Message): (r: Result<ConvsState<R>>)
    ensures r.Ok? <==> HoldsMessageList(state, PropertyKey(convId))
    ensures PropertyKey(convId) !in state.convs ==> r == Throws(ReadOfUndefined)
    ensures PropertyKey(convId) in state.convs && r.Throws? ==> r.error == NotIterable
    ensures r.Ok? ==> r.value.rest == state.rest && r.value.convs.Keys == state.convs.Keys
    ensures r.Ok? ==> forall k :: k in state.convs && k != PropertyKey(convId) ==> r.value.convs[k] == state.convs[k]
    ensures r.Ok? ==>
      var before := state.convs[PropertyKey(convId)].conv;
      var after := r.value.convs[PropertyKey(convId)];
      && after.ConvEntry?
      && after.conv.messages == Some(before.message.value + [message])
      && after.conv.(messages := before.messages) == before
  {
    var key := PropertyKey(convId);
    if key !in state.convs then Throws(ReadOfUndefined)
    else match state.convs[key]
      case IdWrapper(_) => Throws(NotIterable)
      case ConvEntry(c) =>
        if c.message.None? then Throws(NotIterable)
        else Ok(state.(convs := state.convs[key := ConvEntry(c.(messages := Some(c.message.value + [message])))]))
  }

  /** Successive `convMessageAdded` actions on one conversation. */
  function AddMessages<R>(state: ConvsState<R>, convId: JsStr, messages: seq<Message>): Result<ConvsState<R>>
    decreases |messages|
  {
    if messages == [] then Ok(state)
    else match ConvMessageAdded(state, convId, messages[0])
      case Throws(e) => Throws(e)
      case Ok(next) => AddMessages(next, convId, messages[1..])
  }

  /** Messages do not accumulate: the `message` list read is never written,
      so after any non-empty run of additions `messages` is that list
      followed by the last message only. */
  lemma {:induction false} MessagesDoNotAccumulate<R>(state: ConvsState<R>, convId: JsStr, messages: seq<Message>)
    requires HoldsMessageList(state, PropertyKey(convId))
    requires messages != []
    decreases |messages|
    ensures AddMessages(state, convId, messages).Ok?
    ensures PropertyKey(convId) in AddMessages(state, convId, messages).value.convs
    ensures var after := AddMessages(state, convId, messages).value.convs[PropertyKey(convId)];
      var before := state.convs[PropertyKey(convId)].conv;
      && after.ConvEntry?
      && after.conv.message == before.message
      && after.conv.messages == Some(before.message.value + [messages[|messages| - 1]])
  {
    var next := ConvMessageAdded(state, convId, messages[0]).value;
    if |messages| > 1 {
      MessagesDoNotAccumulate(next, convId, messages[1..]);
    }
  }

  /** After a bulk load every entry is an `{ id: conv }` object, so adding a
      message to any key throws. */
  lemma MessageAfterBulkLoadThrows<R>(state: ConvsState<R>, convs: seq<Conv>, convId: JsStr, message: Message)
    ensures ConvMessageAdded(state.(convs := SpreadArray(Wrap(convs))), convId, message).Throws?
  {
    var key := PropertyKey(convId);
    BulkLoadEntries(convs);
    if key in IndexKeys(|convs|) {
      var i :| 0 <= i < |convs| && key == IndexKey(i);
    }
  }

  // ---------------------------------------------------------------------
  // convAdded

  /** The `convAdded` case: a copy of the conversation stored under its id's
      key, every other key untouched. */
  function ConvAdded<R>(state: ConvsState<R>, conv: Conv): (r: ConvsState<R>)
    ensures r.rest == state.rest
    ensures r.convs.Keys == state.convs.Keys + {PropertyKey(conv.id)}
    ensures r.convs[PropertyKey(conv.id)] == ConvEntry(conv)
    ensures forall k :: k in state.convs && k != PropertyKey(conv.id) ==> r.convs[k] == state.convs[k]
  {
    state.(convs := state.convs[PropertyKey(conv.id) := ConvEntry(conv)])
  }

  /** Adding the same conversation twice is the same as adding it once. */
  lemma ConvAddedIdempotent<R>(state: ConvsState<R>, conv: Conv)
    ensures ConvAdded(ConvAdded(state, conv), conv) == ConvAdded(state, conv)
  {
  }

  /** A later conversation with the same id overwrites the earlier entry
      rather than adding a second one. */
  lemma ConvAddedOverwrites<R>(state: ConvsState<R>, first: Conv, second: Conv)
    requires first.id == second.id
    ensures ConvAdded(ConvAdded(state, first), second) == ConvAdded(state, second)
    ensures |ConvAdded(ConvAdded(state, first), second).convs| == |ConvAdded(state, first).convs|
  {
  }

  // ---------------------------------------------------------------------
  // The reducer

  /** The set of arrays an action's payload exposes to the reducer. */
  function PayloadArrays(action: Action): set<array<Conv>> {
    if action.ConvsAddedAction? then {action.convs} else {}
  }

  /** `convsReducer`: each handled action type goes to its case; any other
      action returns the state unchanged. */
  method Reduce<R>(state: ConvsState<R>, action: Action) returns (r: Result<ConvsState<R>>)
    modifies PayloadArrays(action)
    ensures action.ConvsAddedAction? ==>
      && r == Ok(state.(convs := SpreadArray(Wrap(action.convs[..]))))
      && forall i :: 0 <= i < action.convs.Length ==> action.convs[i] == old(action.convs[i]).(message := Some([]))
    ensures action.ConvMessageAddedAction? ==> r == ConvMessageAdded(state, action.convId, action.message)
    ensures action.ConvAddedAction? ==> r == Ok(ConvAdded(state, action.conv))
    ensures action.OtherAction? ==> r == Ok(state)
    ensures TypeOf(action) !in {TypeConvsAdded, TypeConvMessageAdded, TypeConvAdded} ==> r == Ok(state)
    ensures r.Ok? ==> r.value.rest == state.rest
  {
    match action
    case ConvsAddedAction(payload) =>
      var next := ConvsAdded(state, payload);
      r := Ok(next);
    case ConvMessageAddedAction(convId, message) =>
      r := ConvMessageAdded(state, convId, message);
    case ConvAddedAction(conv) =>
      r := Ok(ConvAdded(state, conv));
    case OtherAction(_) =>
      r := Ok(state);
  }
}
