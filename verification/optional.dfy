/** Kotlin's nullable types `T?`, with the elvis operator `?:` and safe calls on them. */
module Optional {

  /** A value of Kotlin type `T?`: `None` stands for `null`. */
  datatype Option<T> = None | Some(value: T) {

    /** `this ?: default` */
    function GetOr(default: T): (r: T)
      ensures Some? ==> r == value
      ensures None? ==> r == default
    {
      match this
      case Some(v) => v
      case None => default
    }

    /** `this?.let { f(it) }`: null stays null, a value is transformed. */
    function Map<U>(f: T -> U): (r: Option<U>)
      ensures r.None? <==> None?
      ensures Some? ==> r.value == f(value)
    {
      match this
      case Some(v) => Some(f(v))
      case None => None
    }
  }
}
