/** The absent value of JavaScript (`undefined` or `null`) next to a present one. */
module Optional {

  datatype Option<+T> = None | Some(value: T) {

    /** `this ?? fallback`: the value when present, the fallback otherwise. */
    function GetOr(fallback: T): T {
      match this
      case Some(v) => v
      case None => fallback
    }
  }
}
