/** JavaScript values as the strategy sees them: it tests them for truthiness,
    copies them from one object to another, and reads the `user` property of a
    state object. Nothing else about a value matters to it. */
module Js {

  /** An optional value; for an object key, `None` means the key is absent. */
  datatype Option<+T> = None | Some(value: T) {

    /** The wrapped value, or `default` when there is none. */
    function GetOr(default: T): T {
      match this
      case Some(v) => v
      case None => default
    }
  }

  /** A JavaScript value. Numbers are integers here (see README); an object
      carries an identity and the value of its `user` property. Functions,
      stores and exceptions are objects too. */
  datatype JsValue =
    | Undefined
    | Null
    | Bool(b: bool)
    | Num(n: int)
    | NaN
    | Str(s: string)
    | Obj(id: nat, user: JsValue)

  /** JavaScript truthiness: `undefined`, `null`, `false`, `0`, `NaN` and the
      empty string are falsy, everything else is truthy. */
  predicate Truthy(v: JsValue) {
    match v
    case Undefined => false
    case Null => false
    case Bool(b) => b
    case Num(n) => n != 0
    case NaN => false
    case Str(s) => s != ""
    case Obj(_, _) => true
  }

  /** JavaScript `a || b`: the first operand when it is truthy, else the second. */
  function Or(a: JsValue, b: JsValue): (r: JsValue)
    ensures r == a || r == b
    ensures Truthy(r) <==> Truthy(a) || Truthy(b)
    ensures Truthy(a) ==> r == a
  {
    if Truthy(a) then a else b
  }

  /** The property read `v.user`. Only `undefined` and `null` make the read
      throw; a primitive has no such property and reads as `undefined`. */
  function UserOf(v: JsValue): (r: JsValue)
    requires v != Undefined && v != Null
    ensures !v.Obj? ==> r == Undefined
    ensures v.Obj? ==> r == v.user
  {
    if v.Obj? then v.user else Undefined
  }

  /** Reading a possibly absent key of an object: an absent key reads as `undefined`. */
  function Read(key: Option<JsValue>): (r: JsValue)
    ensures key.None? ==> r == Undefined
    ensures key.Some? ==> r == key.value
  {
    key.GetOr(Undefined)
  }
}
