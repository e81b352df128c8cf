/** The JavaScript values the conversation state holds: optional fields,
    property keys, messages and conversation records. */
module Values {

  datatype Option<+T> = None | Some(value: T) {
    /** The value, or `default` when there is none. */
    function GetOr(default: T): T {
      match this
      case Some(v) => v
      case None => default
    }
  }

  /** An id-like property as the client receives it from JSON: either absent
      (`undefined`, as on a draft conversation) or a string. JavaScript's
      `==` and `===` agree on such values, and so does Dafny's `==`. */
  datatype JsStr = Undefined | Str(s: string)

  /** The key under which `obj[v]` stores a value: JavaScript converts
      `undefined` to the string "undefined". */
  function PropertyKey(v: JsStr): string {
    match v
    case Undefined => "undefined"
    case Str(s) => s
  }

  function Digit(d: nat): char
    requires d < 10
  {
    ('0' as int + d) as char
  }

  /** The property key of array index `n` once the array is spread into an
      object: the decimal numeral of `n`. */
  function IndexKey(n: nat): (k: string)
    ensures 1 <= |k|
    ensures 10 <= n ==> 2 <= |k|
    ensures forall c :: c in k ==> '0' <= c <= '9'
  {
    if n < 10 then [Digit(n)] else IndexKey(n / 10) + [Digit(n % 10)]
  }

  /** Distinct array positions give distinct property keys. */
  lemma {:induction false} IndexKeyInjective(a: nat, b: nat)
    requires IndexKey(a) == IndexKey(b)
    ensures a == b
  {
    var k := IndexKey(a);
    if a < 10 || b < 10 {
      assert |k| == 1;
      assert a < 10 && b < 10;
      assert Digit(a) as int == Digit(b) as int;
    } else {
      var n := |k|;
      assert IndexKey(a / 10) == k[..n - 1];
      assert IndexKey(b / 10) == k[..n - 1];
      IndexKeyInjective(a / 10, b / 10);
      assert Digit(a % 10) == k[n - 1] == Digit(b % 10);
      assert Digit(a % 10) as int == Digit(b % 10) as int;
    }
  }

  /** A chat message; `convId`, `senderId` and `receiverId` are copied from
      fields that may be absent. Server-side fields (its id, its timestamps)
      are not read by the client logic. */
  datatype Message = Message(convId: JsStr, senderId: JsStr, receiverId: JsStr, body: string)

  /** A conversation record as the client holds it: the server's fields the
      client logic reads, the draft's `starterId`/`targetId`, the client-side
      `hasNewMessage` flag, and the two message lists `message` and `messages`
      (`None` when the property is absent). */
  datatype Conv = Conv(
    id: JsStr,
    user1Id: JsStr,
    username1: JsStr,
    user2Id: JsStr,
    username2: JsStr,
    starterId: JsStr,
    targetId: JsStr,
    hasNewMessage: bool,
    message: Option<seq<Message>>,
    messages: Option<seq<Message>>)
}
