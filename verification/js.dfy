/** JavaScript values and exceptions as the chart elements see them. */
module Js {

  /** Identity of a DOM element (JavaScript object identity, `===`). */
  type ElementId = nat

  datatype Option<+T> = None | Some(value: T)

  /** The exceptions the core can raise. */
  datatype JsError =
    | TypeError    // property access or assignment on a primitive, a call on `undefined`
    | SyntaxError  // `JSON.parse` of malformed text
    | RangeError   // call stack exhausted

  datatype Result<+T> = Ok(value: T) | Err(error: JsError)

  /** How a statement-level callback ends: normally, or by throwing. */
  datatype Outcome = Done | Threw(error: JsError)

  /** The JavaScript values that flow through the elements. `Obj` is a plain object
      (its own enumerable properties); `Ref` is a reference to a DOM element. */
  datatype JsValue =
    | Undefined
    | Null
    | Bool(b: bool)
    | Num(n: real)
    | Str(s: string)
    | Arr(items: seq<JsValue>)
    | Obj(fields: map<string, JsValue>)
    | Ref(element: ElementId)
}
