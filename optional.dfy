/** A value that JavaScript may hold as `null`/`undefined`. */
module Optional {

  datatype Option<T> = None | Some(value: T) {

    /** `x ?? d` and, for values that are never falsy, `x || d`. */
    function GetOr(default: T): T {
      match this
      case Some(v) => v
      case None => default
    }
  }

  /** `s || ""` for a nullable string: null and "" both give "". */
  function OrEmpty(s: Option<string>): string {
    if s.Some? then s.value else ""
  }

  /** `s || null` for a string: the empty string is falsy and becomes null. */
  function EmptyToNull(s: string): Option<string> {
    if s == "" then None else Some(s)
  }

  /** `s || null` for a nullable string: null and "" both give null. */
  function OrNull(s: Option<string>): Option<string> {
    if s.Some? && s.value != "" then s else None
  }
}
