/** Small shared value types: optional values and their text in templates. */
module Wrappers {

  /** A value that may be absent: `None` stands for JavaScript's `null` or `undefined`. */
  datatype Option<+T> = None | Some(value: T)

  /** The text a template literal `${v}` produces for an optional string, and the text any
      string conversion of `undefined` gives: an absent value prints as "undefined". */
  function TemplateText(v: Option<string>): string
  {
    match v
    case Some(s) => s
    case None => "undefined"
  }
}
