/** Shared value types of the finance tracker model. */
module Common {

  /** An identifier of a User document. */
  type UserId = nat

  /** An identifier of a stored document (Budget or Transaction). */
  type DocId = nat

  /** A request or document field that may be absent (`undefined`, `null` or an empty string). */
  datatype Option<T> = None | Some(value: T) {

    /** The value when present, otherwise `default`. */
    function GetOr(default: T): T {
      match this
      case Some(v) => v
      case None => default
    }
  }

  /** JavaScript truthiness of a request string: present and not empty. */
  predicate Given(s: Option<string>) {
    s.Some? && s.value != ""
  }
}
