/** The question repository: the same five CRUD operations as the student
    repository, except that its first catch clause names Coil's
    `HttpException`, not Retrofit's. */
module PreguntaRepository {
  import opened Optional
  import opened Resources
  import opened Domain
  import opened Dto
  import opened RemoteCall
  import Lists
  import PreguntaMapper

  const GET_ALL_FALLBACK: string := "Error desconocido al obtener preguntas"
  const GET_BY_ID_FALLBACK: string := "Pregunta no encontrada"
  const CREATE_FALLBACK: string := "Error al crear pregunta"
  const UPDATE_FALLBACK: string := "Error al actualizar pregunta"
  const DELETE_FALLBACK: string := "Error al eliminar pregunta"

  /** This repository imports `coil3.network.HttpException`. */
  const CAUGHT: HttpExceptionClass := Coil

  type Outcome = CallOutcome<ApiResponse<PreguntaDto>>

  function MapAll(ds: seq<PreguntaDto>): seq<Pregunta>
  {
    Lists.Map(PreguntaMapper.PreguntaToDomain, ds)
  }

  /** GET preguntas: the whole list, converted element by element. */
  function GetAllPreguntas(o: CallOutcome<ApiResponse<seq<PreguntaDto>>>): (r: Resource<seq<Pregunta>>)
    ensures !r.Loading?
    ensures r.Success? <==> Payload(o).Some?
    ensures r.Success? ==> |r.value| == |Payload(o).value|
    ensures r.Success? ==> forall i :: 0 <= i < |r.value| ==>
              r.value[i] == PreguntaMapper.PreguntaToDomain(Payload(o).value[i])
    ensures o.Responded? && Payload(o).None? ==> r == ErrorOf(o.errorBody.GetOr(GET_ALL_FALLBACK))
    ensures o.Thrown? ==> r == ErrorOf(ThrownText(o.kind, o.localizedMessage, CAUGHT))
  {
    Classify(o, MapAll, GET_ALL_FALLBACK, CAUGHT)
  }

  /** GET preguntas/{id}. */
  function GetPreguntaById(id: string, remote: string -> Outcome): (r: Resource<Pregunta>)
    ensures !r.Loading?
    ensures r.Success? <==> Payload(remote(id)).Some?
    ensures r.Success? ==> r.value == PreguntaMapper.PreguntaToDomain(Payload(remote(id)).value)
    ensures remote(id).Responded? && Payload(remote(id)).None? ==>
              r == ErrorOf(remote(id).errorBody.GetOr(GET_BY_ID_FALLBACK))
    ensures remote(id).Thrown? ==> r == ErrorOf(ThrownText(remote(id).kind, remote(id).localizedMessage, CAUGHT))
  {
    Classify(remote(id), PreguntaMapper.PreguntaToDomain, GET_BY_ID_FALLBACK, CAUGHT)
  }

  /** POST preguntas, with the wire form of the given question as body. */
  function CreatePregunta(p: Pregunta, remote: PreguntaDto -> Outcome): (r: Resource<Pregunta>)
    ensures !r.Loading?
    ensures var o := remote(PreguntaMapper.PreguntaToDto(p));
      && (r.Success? <==> Payload(o).Some?)
      && (r.Success? ==> r.value == PreguntaMapper.PreguntaToDomain(Payload(o).value))
      && (o.Responded? && Payload(o).None? ==> r == ErrorOf(o.errorBody.GetOr(CREATE_FALLBACK)))
      && (o.Thrown? ==> r == ErrorOf(ThrownText(o.kind, o.localizedMessage, CAUGHT)))
  {
    var dto := PreguntaMapper.PreguntaToDto(p);
    Classify(remote(dto), PreguntaMapper.PreguntaToDomain, CREATE_FALLBACK, CAUGHT)
  }

  /** PUT preguntas/{id}, with the given id and the wire form of the question. */
  function UpdatePregunta(id: string, p: Pregunta, remote: (string, PreguntaDto) -> Outcome): (r: Resource<Pregunta>)
    ensures !r.Loading?
    ensures var o := remote(id, PreguntaMapper.PreguntaToDto(p));
      && (r.Success? <==> Payload(o).Some?)
      && (r.Success? ==> r.value == PreguntaMapper.PreguntaToDomain(Payload(o).value))
      && (o.Responded? && Payload(o).None? ==> r == ErrorOf(o.errorBody.GetOr(UPDATE_FALLBACK)))
      && (o.Thrown? ==> r == ErrorOf(ThrownText(o.kind, o.localizedMessage, CAUGHT)))
  {
    var dto := PreguntaMapper.PreguntaToDto(p);
    Classify(remote(id, dto), PreguntaMapper.PreguntaToDomain, UPDATE_FALLBACK, CAUGHT)
  }

  /** DELETE preguntas/{id}: a successful status suffices, the body is not read. */
  function DeletePregunta<B>(id: string, remote: string -> CallOutcome<B>): (r: Resource<()>)
    ensures !r.Loading?
    ensures r.Success? <==> remote(id).Responded? && remote(id).isSuccessful
    ensures remote(id).Responded? && !remote(id).isSuccessful ==>
              r == ErrorOf(remote(id).errorBody.GetOr(DELETE_FALLBACK))
    ensures remote(id).Thrown? ==> r == ErrorOf(ThrownText(remote(id).kind, remote(id).localizedMessage, CAUGHT))
  {
    ClassifyStatus(remote(id), DELETE_FALLBACK, CAUGHT)
  }

  /** An exception gives the same `Error` in every operation. Only Coil's
      `HttpException` reaches the HTTP clause; Retrofit's, like any other
      exception that is not an `IOException`, gets the unexpected-error text. */
  lemma ExceptionsInEveryOperation(kind: ExceptionKind, m: Option<string>, id: string, p: Pregunta)
    ensures var err: Resource<Pregunta> := ErrorOf(ThrownText(kind, m, Coil));
      && GetAllPreguntas(Thrown(kind, m)) == ErrorOf(ThrownText(kind, m, Coil))
      && GetPreguntaById(id, _ => Thrown(kind, m)) == err
      && CreatePregunta(p, _ => Thrown(kind, m)) == err
      && UpdatePregunta(id, p, (_, _) => Thrown(kind, m)) == err
      && DeletePregunta<()>(id, _ => Thrown(kind, m)) == ErrorOf(ThrownText(kind, m, Coil))
    ensures kind == IOException ==> ThrownText(kind, m, Coil) == CONNECTIVITY_MESSAGE
    ensures kind == HttpException(Coil) && m.None? ==> ThrownText(kind, m, Coil) == HTTP_FALLBACK
    ensures kind == HttpException(Retrofit) ==> ThrownText(kind, m, Coil) == m.GetOr(UNEXPECTED_FALLBACK)
  {
  }

  /** Against a server that stores and returns exactly the question it is
      sent, creating or updating gives back the question with its topic
      replaced by its area. */
  lemma EchoingServerReturnsSentQuestion(id: string, p: Pregunta, remote: PreguntaDto -> Outcome, message: string)
    requires forall dto :: remote(dto) == Responded(true, Some(ApiResponse(message, Some(dto))), None)
    ensures CreatePregunta(p, remote) == Success(p.(tema := p.area))
    ensures UpdatePregunta(id, p, (_, dto) => remote(dto)) == Success(p.(tema := p.area))
  {
    PreguntaMapper.PreguntaRoundTrip(p);
  }

  /** The update request carries the given id, whatever the question's own id. */
  lemma UpdateSendsGivenId(id: string, p: Pregunta, remote1: (string, PreguntaDto) -> Outcome, remote2: (string, PreguntaDto) -> Outcome)
    requires remote1(id, PreguntaMapper.PreguntaToDto(p)) == remote2(id, PreguntaMapper.PreguntaToDto(p))
    ensures UpdatePregunta(id, p, remote1) == UpdatePregunta(id, p, remote2)
  {
  }
}
