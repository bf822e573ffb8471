/**
 * The scalar fields of a `/check-coverage` request body, as the handler
 * destructures them, and the text a JavaScript template literal makes of each.
 */
module Json {

  /**
   * A request field. `Undefined` is a field the body does not carry.
   * A number is kept opaque: `text` is the string JavaScript's `String(n)`
   * gives for it, so float formatting is not modelled.
   */
  datatype Value =
    | Undefined
    | Null
    | Bool(b: bool)
    | Number(text: string)
    | Str(s: string)

  /** The text `${v}` produces inside a template literal. */
  function ToText(v: Value): string
  {
    match v
    case Undefined => "undefined"
    case Null => "null"
    case Bool(b) => if b then "true" else "false"
    case Number(t) => t
    case Str(s) => s
  }
}
