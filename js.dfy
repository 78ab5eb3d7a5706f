/** JavaScript values as the store and its helpers see them. */
module Js {

  datatype Option<+T> = None | Some(value: T)

  /** The values that flow through requests, events and deferreds.
      Numbers are integers here; `Ref` is any other object, known only by identity. */
  datatype Value =
    | Undefined
    | Null
    | Bool(b: bool)
    | Num(n: int)
    | Str(s: string)
    | Ref(id: nat)
    | Array(items: seq<Value>)           // a JavaScript array
    | Blob(part: Value)                  // `new Blob([part])`, an opaque wrap
    | Cursor(value: Value)               // a cursor positioned on a record holding `value`
    | Exception(name: string, message: string)  // a thrown Error object

  /** ECMAScript truthiness: the values an `if (v)` rejects. */
  predicate Truthy(v: Value) {
    match v
    case Undefined => false
    case Null => false
    case Bool(b) => b
    case Num(n) => n != 0
    case Str(s) => s != ""
    case _ => true
  }

  /** The outcome of a synchronous call: it returns normally or throws. */
  datatype Completion<+T> = Normal(value: T) | Throw(exception: Value)
}
