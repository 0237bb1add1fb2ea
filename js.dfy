/** JavaScript semantics the actions rely on: optional values, thrown
    errors, truthiness, the host's message shape, and the built-in
    conversions (number parsing, locale formatting, JSON) that the model
    leaves abstract. */
module Js {

  datatype Option<+T> = None | Some(value: T)

  /** A step that either returns a value or throws an Error carrying `message`. */
  datatype Result<+T> = Ok(value: T) | Err(message: string)

  /** The JavaScript values an untyped option may hold; a number is a finite real (no NaN). */
  datatype Value = Undefined | Null | Bool(b: bool) | Number(n: real) | Str(s: string)

  /** ToBoolean: the values `||` and `!!` treat as true. */
  predicate Truthy(v: Value) {
    match v
    case Undefined => false
    case Null => false
    case Bool(b) => b
    case Number(n) => n != 0.0
    case Str(s) => s != ""
  }

  /** The part of the host's message an action reads: `message.content?.text`. */
  datatype Content = Content(text: Option<string>)
  datatype Message = Message(content: Option<Content>)

  /** `message.content?.text`, or None when the content or its text is missing. */
  function TextOf(message: Message): (t: Option<string>)
    ensures t.Some? <==> message.content.Some? && message.content.value.text.Some?
    ensures t.Some? ==> t.value == message.content.value.text.value
  {
    match message.content
    case None => None
    case Some(c) => c.text
  }

  function MessageWith(text: string): (m: Message)
    ensures TextOf(m) == Some(text)
  {
    Message(Some(Content(Some(text))))
  }

  /** The engine's message for reading a property of `undefined`. */
  function UndefinedPropertyError(property: string): string {
    "Cannot read properties of undefined (reading '" + property + "')"
  }

  /** The built-ins the actions call that the model does not define:
      floating-point parsing and formatting, locale formatting of numbers
      and dates, and JSON.parse of a list of strings (Err when it throws). */
  datatype Builtins = Builtins(
    parseFloat: string -> real,
    toFixed1: real -> string,
    toLocaleString: real -> string,
    toLocaleDateString: string -> string,
    toLocaleDateTimeString: string -> string,
    parseJsonList: string -> Result<seq<string>>)
}
