/**
 Optional values and validation results shared by every module of the model.
 JavaScript's `undefined`/`null` becomes `None`; a rejected tool argument
 becomes `Invalid`.
 */
module Base {

  datatype Option<+T> = None | Some(value: T) {

    /** The contained value, or `default` when absent (JavaScript's `x ?? d`). */
    function GetOr(default: T): T {
      match this
      case Some(v) => v
      case None => default
    }
  }

  /** Outcome of validating a tool's arguments against its input schema. */
  datatype Validated<+T> = Valid(value: T) | Invalid(reason: string)

  /** JavaScript truthiness of an optional string: present and non-empty. */
  predicate Truthy(s: Option<string>) {
    s.Some? && s.value != ""
  }

  /** How a template literal renders an optional string (`${x}`). */
  function Show(s: Option<string>): string {
    match s
    case Some(v) => v
    case None => "undefined"
  }
}
