/** The optional value used for the source's nullable fields (`int?`, `string?`, `double?`, `Point?`). */
module Wrappers {

  datatype Option<+T> = None | Some(value: T) {

    /** The value, or `default` when absent (C#'s `??`). */
    function GetOr(default: T): T {
      match this
      case Some(v) => v
      case None => default
    }
  }

  /** The set of values held: `{v}` for `Some(v)`, empty for `None`. */
  function Elements<T>(o: Option<T>): set<T> {
    if o.Some? then {o.value} else {}
  }
}
