/** Small shared vocabulary: optional values and the opaque scalar types the
    app passes through without interpreting them. */
module Base {

  /** Swift's `Optional`: `nil` is `None`. */
  datatype Option<+T> = None | Some(value: T) {
    function GetOr(default: T): (r: T)
      ensures Some? ==> r == value
      ensures None? ==> r == default
    {
      match this
      case Some(v) => v
      case None => default
    }
  }

  /** Foundation `Date`: an instant, kept abstract (seconds since a reference point).
      Dates are only copied around by the modelled code, never computed with. */
  type Date = int

  /** Foundation `UUID`, represented by its `uuidString`. */
  type Uuid = string
}
