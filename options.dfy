/** An optional value: `None` is a key that is absent (or `undefined`), `Some(v)` a key that holds `v`. */
module Options {

  datatype Option<+T> = None | Some(value: T) {

    /** The held value, or `default` when there is none. */
    function GetOr(default: T): T {
      match this
      case Some(v) => v
      case None => default
    }

    /** This option when it holds a value, otherwise `other`. */
    function Or(other: Option<T>): Option<T> {
      if Some? then this else other
    }
  }

  /**
   * One key of a spread `{ ...before, ...partial }`: `after` is the value the
   * partial gives, or `before` when the partial omits the key.
   */
  predicate Overridden<T(==)>(before: T, given: Option<T>, after: T)
  {
    match given
    case Some(v) => after == v
    case None => after == before
  }
}
