/** The outcome of one Retrofit call, and the fixed precedence with which
    every repository operation turns it into a `Resource`. */
module RemoteCall {
  import opened Optional
  import opened Resources
  import opened Dto

  /** The two unrelated classes named `HttpException` the repositories import:
      Retrofit's, and the image loader Coil's. */
  datatype HttpExceptionClass = Retrofit | Coil

  /** What an exception is, as far as the repositories' catch clauses tell
      exceptions apart. */
  datatype ExceptionKind =
    | HttpException(cls: HttpExceptionClass)
    | IOException
    | OtherException

  /** A finished call: a response (status successful or not, the parsed body,
      which may be null, and the error body text, which may be null), or an
      exception with its localized message, which may be null. */
  datatype CallOutcome<B> =
    | Responded(isSuccessful: bool, body: Option<B>, errorBody: Option<string>)
    | Thrown(kind: ExceptionKind, localizedMessage: Option<string>)

  const HTTP_FALLBACK: string := "Error HTTP inesperado"
  const CONNECTIVITY_MESSAGE: string := "No se pudo conectar al servidor. Revisa tu conexión a internet."
  const UNEXPECTED_FALLBACK: string := "Ocurrió un error inesperado"

  /** The envelope's payload, when the status is successful and neither the
      body nor its `data` is null. */
  function Payload<D>(o: CallOutcome<ApiResponse<D>>): (r: Option<D>)
    ensures r.Some? ==> o.Responded? && o.isSuccessful && o.body.Some? && o.body.value.data == r
    ensures o.Responded? && o.isSuccessful && o.body.Some? && o.body.value.data.Some? ==> r.Some?
  {
    if o.Responded? && o.isSuccessful && o.body.Some? then o.body.value.data else None
  }

  /** The message of the `Error` an exception becomes, given which
      `HttpException` class the first catch clause names. The catch clauses are
      tried in order: that `HttpException`, then `IOException`, then any
      `Exception`. */
  function ThrownText(kind: ExceptionKind, localizedMessage: Option<string>, caught: HttpExceptionClass): (t: string)
    ensures kind == HttpException(caught) ==> t == localizedMessage.GetOr(HTTP_FALLBACK)
    ensures kind == IOException ==> t == CONNECTIVITY_MESSAGE
    ensures kind != HttpException(caught) && kind != IOException ==> t == localizedMessage.GetOr(UNEXPECTED_FALLBACK)
  {
    if kind == HttpException(caught) then localizedMessage.GetOr(HTTP_FALLBACK)
    else if kind == IOException then CONNECTIVITY_MESSAGE
    else localizedMessage.GetOr(UNEXPECTED_FALLBACK)
  }

  /** An operation that returns a mapped payload: success with a payload gives
      `Success` of the mapped payload; any other response gives `Error` with the
      error body text or the operation's fallback; an exception gives `Error`
      with the text its catch clause chooses. */
  function Classify<D, T>(o: CallOutcome<ApiResponse<D>>, f: D -> T, fallback: string, caught: HttpExceptionClass): (r: Resource<T>)
    ensures !r.Loading?
    ensures r.Success? <==> Payload(o).Some?
    ensures r.Success? ==> r.value == f(Payload(o).value)
    ensures r.Error? ==> r.partial == None
    ensures o.Responded? && Payload(o).None? ==> r.msg == o.errorBody.GetOr(fallback)
    ensures o.Thrown? ==> r.msg == ThrownText(o.kind, o.localizedMessage, caught)
  {
    match o
    case Responded(_, _, errorBody) =>
      if Payload(o).Some? then Success(f(Payload(o).value)) else ErrorOf(errorBody.GetOr(fallback))
    case Thrown(kind, message) =>
      ErrorOf(ThrownText(kind, message, caught))
  }

  /** An operation with no payload (delete): a successful status alone gives
      `Success(Unit)`, whatever the body. */
  function ClassifyStatus<B>(o: CallOutcome<B>, fallback: string, caught: HttpExceptionClass): (r: Resource<()>)
    ensures !r.Loading?
    ensures r.Success? <==> o.Responded? && o.isSuccessful
    ensures r.Error? ==> r.partial == None
    ensures o.Responded? && !o.isSuccessful ==> r.msg == o.errorBody.GetOr(fallback)
    ensures o.Thrown? ==> r.msg == ThrownText(o.kind, o.localizedMessage, caught)
  {
    match o
    case Responded(ok, _, errorBody) =>
      if ok then Success(()) else ErrorOf(errorBody.GetOr(fallback))
    case Thrown(kind, message) =>
      ErrorOf(ThrownText(kind, message, caught))
  }

  /** The failure taxonomy the repositories collapse into one `Error`. */
  datatype Failure =
    | ServerRejected(errorText: string)       // no usable payload, error body present
    | ServerRejectedNoBody                     // no usable payload, no error body
    | ProtocolFailure(message: Option<string>) // the caught HttpException
    | ConnectivityFailure                      // IOException
    | UnknownFailure(message: Option<string>)  // anything else

  /** Which failure, if any, an outcome is. */
  function Diagnose<D>(o: CallOutcome<ApiResponse<D>>, caught: HttpExceptionClass): Option<Failure>
  {
    match o
    case Responded(_, _, errorBody) =>
      if Payload(o).Some? then None
      else if errorBody.Some? then Some(ServerRejected(errorBody.value))
      else Some(ServerRejectedNoBody)
    case Thrown(kind, message) =>
      if kind == HttpException(caught) then Some(ProtocolFailure(message))
      else if kind == IOException then Some(ConnectivityFailure)
      else Some(UnknownFailure(message))
  }

  /** The user-visible text of each failure; it is the only trace of the
      taxonomy that survives in a `Resource`. */
  function UserText(f: Failure, fallback: string): string
  {
    match f
    case ServerRejected(t) => t
    case ServerRejectedNoBody => fallback
    case ProtocolFailure(m) => m.GetOr(HTTP_FALLBACK)
    case ConnectivityFailure => CONNECTIVITY_MESSAGE
    case UnknownFailure(m) => m.GetOr(UNEXPECTED_FALLBACK)
  }

  /** The classifier is the taxonomy followed by its user text: an `Error`
      exactly for the failures, carrying the text of the failure. */
  lemma ClassifyFollowsTaxonomy<D, T>(o: CallOutcome<ApiResponse<D>>, f: D -> T, fallback: string, caught: HttpExceptionClass)
    ensures Classify(o, f, fallback, caught).Error? <==> Diagnose(o, caught).Some?
    ensures Diagnose(o, caught).Some? ==>
      Classify(o, f, fallback, caught) == ErrorOf(UserText(Diagnose(o, caught).value, fallback))
  {
  }

  /** A connectivity failure always yields the fixed text, whatever the
      exception's own message. */
  lemma ConnectivityIgnoresMessage<D, T>(m1: Option<string>, m2: Option<string>, f: D -> T, fallback: string, caught: HttpExceptionClass)
    ensures Classify(Thrown(IOException, m1), f, fallback, caught)
         == Classify(Thrown(IOException, m2), f, fallback, caught)
         == ErrorOf(CONNECTIVITY_MESSAGE)
  {
  }

  /** A repository whose catch clause names Coil's `HttpException` treats
      Retrofit's like any unexpected exception. */
  lemma OtherHttpClassIsUnexpected(m: Option<string>)
    ensures ThrownText(HttpException(Retrofit), m, Coil) == m.GetOr(UNEXPECTED_FALLBACK)
    ensures ThrownText(HttpException(Coil), m, Retrofit) == m.GetOr(UNEXPECTED_FALLBACK)
  {
  }
}
