/**
 * Parsed JSON values as the host sees them after `JSON.parse`, JavaScript
 * property reads on them, and JavaScript truthiness. The parser itself is
 * not modelled: every operation that parses takes a `Parser` argument.
 */
module Json {

  datatype Value =
    | JNull
    | JBool(b: bool)
    | JNum(n: real)
    | JStr(s: string)
    | JArr(items: seq<Value>)
    | JObj(members: seq<(string, Value)>)

  /** The result of reading a property: `undefined`, or a JSON value. */
  datatype Prop = Undefined | Defined(value: Value)

  /** `JSON.parse` either returns a value or throws a SyntaxError with a message. */
  datatype Parsed = Parsed(value: Value) | SyntaxError(message: string)

  type Parser = string -> Parsed

  /**
   * Property lookup in an object built by `JSON.parse`: when a key is
   * repeated, the last occurrence wins.
   */
  function Lookup(members: seq<(string, Value)>, key: string): (p: Prop)
    ensures p.Defined? <==> exists i :: 0 <= i < |members| && members[i].0 == key
    ensures p.Defined? ==>
      exists i :: 0 <= i < |members| && members[i] == (key, p.value)
        && forall j :: i < j < |members| ==> members[j].0 != key
    decreases |members|
  {
    if members == [] then Undefined
    else
      var last := members[|members| - 1];
      if last.0 == key then Defined(last.1)
      else Lookup(members[..|members| - 1], key)
  }

  /**
   * `v[key]` for a non-null value: only objects carry named properties;
   * strings, numbers, booleans and arrays answer `undefined`. Reading a
   * property of `null` throws, so callers decide about `JNull` first.
   */
  function Get(v: Value, key: string): (p: Prop)
    ensures p.Defined? ==> v.JObj?
    ensures v.JObj? ==> p == Lookup(v.members, key)
  {
    if v.JObj? then Lookup(v.members, key) else Undefined
  }

  /** JavaScript ToBoolean on a property value. */
  predicate Truthy(p: Prop) {
    match p
    case Undefined => false
    case Defined(v) =>
      match v
      case JNull => false
      case JBool(b) => b
      case JNum(n) => n != 0.0
      case JStr(s) => s != []
      case JArr(_) => true
      case JObj(_) => true
  }

  /** `v.key === text` for a non-null value. */
  predicate HasString(v: Value, key: string, text: string) {
    Get(v, key) == Defined(JStr(text))
  }
}
