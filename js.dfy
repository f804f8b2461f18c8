/** The few JavaScript value semantics the command layer relies on: the
    values a tool call's arguments can hold, truthiness, `String(v)`, and the
    outcome of a call that either returns or throws an `Error`. */
module Js {
  import opened Text

  datatype Option<T> = None | Some(value: T)

  /** A JSON-like value. Numbers are integers here. */
  datatype JsValue =
    | Undefined | Null | Bool(b: bool) | Num(n: int) | Str(s: string)
    | Object(fields: map<string, JsValue>)

  const EmptyObject: JsValue := Object(map[])

  /** Property read `o.key`: `undefined` when the key is absent. */
  function Field(o: map<string, JsValue>, key: string): JsValue {
    if key in o then o[key] else Undefined
  }

  /** JavaScript truthiness: `undefined`, `null`, `false`, `0` and `""` are falsy. */
  predicate Truthy(v: JsValue) {
    match v
    case Undefined => false
    case Null => false
    case Bool(b) => b
    case Num(n) => n != 0
    case Str(s) => s != ""
    case Object(_) => true
  }

  /** `String(v)`. */
  function ToJsString(v: JsValue): (s: string)
    ensures v.Str? ==> s == v.s
    ensures v.Num? && v.n >= 0 ==> DigitsValue(s) == v.n
  {
    match v
    case Undefined => UndefinedText
    case Null => NullText
    case Bool(b) => if b then TrueText else FalseText
    case Num(n) =>
      if n >= 0 then DecimalRoundTrip(n); NatToDecimal(n) else "-" + NatToDecimal(-n)
    case Str(s) => s
    case Object(_) => ObjectText
  }

  const UndefinedText := "undefined"
  const NullText := "null"
  const TrueText := "true"
  const FalseText := "false"
  const ObjectText := "[object Object]"

  /** How a guard ends: it returns, or it throws
      `new Error(`${kind}: ${detail}`)`. */
  datatype Outcome = Pass | Fail(kind: string, detail: string)

  /** The thrown error's `message`, which starts with the error kind. */
  function Message(o: Outcome): (m: string)
    requires o.Fail?
    ensures StartsWith(m, o.kind + ":")
  {
    var m := o.kind + ": " + o.detail;
    assert m[..|o.kind| + 1] == o.kind + ":";
    m
  }

  /** A thrown or rejected value: an `Error` object, or any other value
      (a plain object, a string, ...). */
  datatype Thrown = ErrorObject(name: string, message: string) | Value(v: JsValue)

  /** The `Error` a guard throws. */
  function GuardError(o: Outcome): Thrown
    requires o.Fail?
  {
    ErrorObject("Error", Message(o))
  }

  /** `e?.message || String(e)`: a truthy `message` property, of an `Error`
      or of any plain object, as a string; otherwise the string form of the
      value, where an `Error` with an empty message prints as its name. */
  function ErrorText(e: Thrown): (text: string)
    ensures e.ErrorObject? && e.message != "" ==> text == e.message
    ensures e.Value? && e.v.Object? && Truthy(Field(e.v.fields, "message")) ==> text == ToJsString(e.v.fields["message"])
    ensures e.Value? && e.v.Str? ==> text == e.v.s
  {
    match e
    case ErrorObject(name, message) => if message != "" then message else name
    case Value(v) =>
      if v.Object? && Truthy(Field(v.fields, "message")) then ToJsString(v.fields["message"]) else ToJsString(v)
  }
}
