/** Optional values and the JavaScript notion of "truthy" for the few
    places where the router tests a string or an optional field with `||`,
    `&&` or `if (x)`. `None` stands for both `undefined` and `null`. */
module Optional {

  datatype Option<+T> = None | Some(value: T) {
    /** `x || d` for a field whose every present value is truthy (objects, arrays). */
    function GetOr(default: T): T {
      match this
      case Some(v) => v
      case None => default
    }
  }

  /** A string field is truthy when present and non-empty. */
  predicate Truthy(s: Option<string>) {
    s.Some? && s.value != ""
  }

  /** `s || d` for an optional string field. */
  function OrElse(s: Option<string>, d: string): string
  {
    if Truthy(s) then s.value else d
  }
}
