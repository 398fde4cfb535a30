/** A value that may be absent: a JavaScript property that is `undefined`
    (or `null`) is `None`, one that is present is `Some`. */
module Optional {

  datatype Option<+T> = None | Some(value: T) {

    /** The value, or `default` when absent (the `??`-style fallback). */
    function GetOr(default: T): T {
      match this
      case Some(v) => v
      case None => default
    }
  }

  /** JavaScript truthiness of an optional string: present and non-empty. */
  predicate Truthy(o: Option<string>) {
    o.Some? && o.value != ""
  }

  /** `value || fallback` for an optional string: the fallback replaces a
      missing value and an empty one. */
  function OrElse(value: Option<string>, fallback: string): (r: string)
    ensures Truthy(value) ==> r == value.value
    ensures !Truthy(value) ==> r == fallback
  {
    if Truthy(value) then value.value else fallback
  }
}
