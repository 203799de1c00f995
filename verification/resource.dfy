/** The result envelope every data-layer operation returns instead of throwing. */
module Resources {
  import opened Optional

  /** `Resource<T>`: a finished operation with its value, a failure with its
      message and an optional partial value, or an operation still in flight. */
  datatype Resource<T> =
    | Success(value: T)
    | Error(msg: string, partial: Option<T>)
    | Loading
  {
    /** The `data` property of the sealed class. */
    function Data(): (r: Option<T>)
      ensures Success? ==> r == Some(value)
      ensures r.Some? ==> Success? || (Error? && partial.Some?)
    {
      match this
      case Success(v) => Some(v)
      case Error(_, d) => d
      case Loading => None
    }

    /** The `message` property of the sealed class: non-null exactly on `Error`. */
    function Message(): (r: Option<string>)
      ensures r.Some? <==> Error?
      ensures Error? ==> r.value == msg
    {
      match this
      case Error(m, _) => Some(m)
      case _ => None
    }
  }

  /** `Resource.Error(message)`, with the data argument left at its default. */
  function ErrorOf<T>(message: string): (r: Resource<T>)
    ensures r.Error? && r.Message() == Some(message) && r.Data() == None
  {
    Error(message, None)
  }

  /** What each constructor stores in the two properties of the base class, and
      that a value is built by exactly one of the three constructors. */
  lemma ResourceProperties<T>(r: Resource<T>)
    ensures r.Success? ==> r.Data() == Some(r.value) && r.Message() == None
    ensures r.Error? ==> r.Message() == Some(r.msg) && r.Data() == r.partial
    ensures r.Loading? ==> r.Data() == None && r.Message() == None
    ensures r.Success? || r.Error? || r.Loading?
    ensures !(r.Success? && r.Error?) && !(r.Success? && r.Loading?) && !(r.Error? && r.Loading?)
  {
  }
}
