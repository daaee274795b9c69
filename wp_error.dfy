/**
 * The error value the core returns to WordPress: a `WP_Error` whose code is
 * the HTTP status, whose data array carries that status, and whose message
 * is the first message of a possibly nested array of messages.
 */
module WpErrors {
  import opened Values

  /** The message used when an array of messages holds none. */
  const DefaultMessage: string := "No error description provided"

  /** The text of the `TypeError` raised when the first message is not a string. */
  const NotAStringMessage: string := "Return value must be of type string"

  /** The constructor's `string|array $message`; an array is given by its values in order. */
  datatype Message = Text(s: string) | Entries(items: seq<Value>)

  /**
   * The data array of a new error: `['status' => $statusCode]` with the
   * caller's data merged over it, after an array message has been stored
   * under `all_messages`.
   */
  function GetData(data: Params, code: int, message: Message): (r: Params)
    ensures r.Keys == data.Keys + {"status"} + (if message.Entries? then {"all_messages"} else {})
    ensures r["status"] == (if "status" in data then data["status"] else VInt(code))
    ensures message.Entries? ==> r["all_messages"] == VList(message.items)
    ensures forall k :: k in data && k != "all_messages" ==> r[k] == data[k]
    ensures message.Text? ==> forall k :: k in data ==> r[k] == data[k]
  {
    var withAll := if message.Entries? then data["all_messages" := VList(message.items)] else data;
    map["status" := VInt(code)] + withAll
  }

  /** What repeated `reset` reaches: the first element of the first element of ...; `false` for an empty array. */
  function FirstLeaf(v: Value): (r: Value)
    ensures !r.VList?
  {
    if v.VList? then
      if |v.items| == 0 then VBool(false) else FirstLeaf(v.items[0])
    else v
  }

  /** The message a leaf yields: `false` gives the default, a string itself, anything else a `TypeError`. */
  function LeafMessage(leaf: Value): Result<string>
  {
    match leaf
    case VBool(false) => Ok(DefaultMessage)
    case VStr(s) => Ok(s)
    case VDict(_) => Err(Fatal("order of a string-keyed message array is not modelled"))
    case _ => Err(Fatal(NotAStringMessage))
  }

  /**
   * `getFirstErrorMessage`: a string is its own message, an empty array the
   * default one, and a non-empty array the leaf reached by descending the
   * first elements.
   */
  function FirstErrorMessage(message: Message): (r: Result<string>)
    ensures message.Text? ==> r == Ok(message.s)
    ensures message.Entries? && |message.items| == 0 ==> r == Ok(DefaultMessage)
    ensures message.Entries? && |message.items| > 0 ==> r == LeafMessage(FirstLeaf(message.items[0]))
  {
    match message
    case Text(s) => Ok(s)
    case Entries(items) =>
      if |items| == 0 then Ok(DefaultMessage) else LeafMessage(FirstLeaf(VList(items)))
  }

  /** `new WpError($statusCode, $message, $data)`; fails where `getFirstErrorMessage` throws. */
  function NewWpError(code: int, message: Message, data: Params): (r: Result<WpError>)
    ensures r.Ok? <==> FirstErrorMessage(message).Ok?
    ensures r.Ok? ==> r.value.code == code && r.value.message == FirstErrorMessage(message).value
    ensures r.Ok? ==> r.value.data == GetData(data, code, message)
    ensures r.Ok? && "status" !in data ==> r.value.data["status"] == VInt(code)
    ensures r.Ok? ==> forall k :: k in data && k != "all_messages" ==> r.value.data[k] == data[k]
    ensures r.Err? ==> r.error == FirstErrorMessage(message).error && !IsException(r.error)
  {
    match FirstErrorMessage(message)
    case Ok(first) => Ok(WpError(code, first, GetData(data, code, message)))
    case Err(e) => Err(e)
  }

  /** `new WpError($statusCode, $text, $data)` for a string message, which cannot fail. */
  function MakeError(code: int, text: string, data: Params): (e: WpError)
    ensures NewWpError(code, Text(text), data) == Ok(e)
    ensures e.code == code && e.message == text
    ensures "status" !in data ==> e.data["status"] == VInt(code)
    ensures e.data.Keys == data.Keys + {"status"}
  {
    WpError(code, text, GetData(data, code, Text(text)))
  }

  /** `$message` wrapped in `depth` one-element arrays. */
  function Nest(v: Value, depth: nat): Value
  {
    if depth == 0 then v else VList([Nest(v, depth - 1)])
  }

  /** However deeply a message is nested in first elements, it is the one reported; later elements never are. */
  lemma {:induction false} NestedMessage(leaf: Value, depth: nat, rest: seq<Value>)
    requires !leaf.VList?
    ensures FirstErrorMessage(Entries([Nest(leaf, depth)] + rest)) == LeafMessage(leaf)
  {
    NestLeaf(leaf, depth);
  }

  /** Descending the first elements of a nested message reaches the nested leaf. */
  lemma {:induction false} NestLeaf(leaf: Value, depth: nat)
    requires !leaf.VList?
    ensures FirstLeaf(Nest(leaf, depth)) == leaf
  {
    if depth > 0 {
      NestLeaf(leaf, depth - 1);
    }
  }

  /** An array whose first element is (nested) empty yields the default message. */
  lemma {:induction false} EmptyFirstEntryGivesDefault(depth: nat, rest: seq<Value>)
    ensures FirstErrorMessage(Entries([Nest(VList([]), depth)] + rest)) == Ok(DefaultMessage)
  {
    NestEmpty(depth);
  }

  /** Descending a nest of arrays that ends in an empty array reaches `false`. */
  lemma {:induction false} NestEmpty(depth: nat)
    ensures FirstLeaf(Nest(VList([]), depth)) == VBool(false)
  {
    if depth > 0 {
      NestEmpty(depth - 1);
    }
  }
}
