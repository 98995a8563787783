/** Small value wrappers shared by every module of the model. */
module Wrappers {

  /** A JavaScript value that may be `null`/`undefined` (None) or present (Some). */
  datatype Option<+T> = None | Some(value: T) {
    /** The `??` operator: the default replaces only an absent value. */
    function GetOr(default: T): T {
      match this
      case Some(v) => v
      case None => default
    }
  }

  /** A thrown JavaScript value: an `Error` instance with its message, or anything else. */
  datatype Thrown = ErrorValue(message: string) | OtherValue

  /** `error instanceof Error ? error.message : fallback`, the handlers' catch blocks. */
  function MessageOf(e: Thrown, fallback: string): (m: string)
    ensures e.ErrorValue? ==> m == e.message
    ensures e.OtherValue? ==> m == fallback
  {
    match e
    case ErrorValue(msg) => msg
    case OtherValue => fallback
  }

  /** A computation that either yields a value or throws. */
  datatype Outcome<+T> = Returned(value: T) | Threw(error: Thrown)

  /** The body of an admin page's table: a single placeholder row, or one row per record. */
  datatype TableBody<+R> = Placeholder(text: string) | DataRows(rows: seq<R>)

  /** JavaScript truthiness of an optional string: present and not "". */
  predicate Truthy(s: Option<string>) {
    s.Some? && s.value != ""
  }
}
