/** Wrappers shared by every module: an optional value, a result that may
    carry an error message, and JavaScript's truthiness of optional strings. */
module Base {

  /** A value that may be absent (`undefined` / `null` on the JavaScript side). */
  datatype Option<+T> = None | Some(value: T)

  /** The outcome of a step that may throw; `Err` carries the error's message. */
  datatype Result<+T> = Ok(value: T) | Err(message: string)

  /** `!!s` for an optional string: absent and empty are both falsy. */
  predicate Present(s: Option<string>)
  {
    s.Some? && s.value != ""
  }

  /** A parameter declared with a default (`user = ''`) takes the default
      exactly when the argument is `undefined`. */
  function OrDefault(s: Option<string>, default: string): (r: string)
    ensures s.None? ==> r == default
    ensures s.Some? ==> r == s.value
  {
    match s
    case None => default
    case Some(v) => v
  }
}
