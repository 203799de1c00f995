/** The student repository: five CRUD operations, each one remote call whose
    outcome is classified into a `Resource`. The remote data source is a
    parameter of each operation: it is given the request and returns the
    call's outcome. */
module EstudianteRepository {
  import opened Optional
  import opened Resources
  import opened Domain
  import opened Dto
  import opened RemoteCall
  import Lists
  import EstudianteMapper

  const GET_ALL_FALLBACK: string := "Error desconocido al obtener estudiantes"
  const GET_BY_ID_FALLBACK: string := "Estudiante no encontrado"
  const CREATE_FALLBACK: string := "Error al crear estudiante"
  const UPDATE_FALLBACK: string := "Error al actualizar estudiante"
  const DELETE_FALLBACK: string := "Error al eliminar estudiante"

  /** This repository imports Retrofit's `HttpException`. */
  const CAUGHT: HttpExceptionClass := Retrofit

  type Outcome = CallOutcome<ApiResponse<EstudianteDto>>

  function MapAll(ds: seq<EstudianteDto>): seq<Estudiante>
  {
    Lists.Map(EstudianteMapper.EstudianteToDomain, ds)
  }

  /** GET estudiantes: the whole list, converted element by element. */
  function GetAllEstudiantes(o: CallOutcome<ApiResponse<seq<EstudianteDto>>>): (r: Resource<seq<Estudiante>>)
    ensures !r.Loading?
    ensures r.Success? <==> Payload(o).Some?
    ensures r.Success? ==> |r.value| == |Payload(o).value|
    ensures r.Success? ==> forall i :: 0 <= i < |r.value| ==>
              r.value[i] == EstudianteMapper.EstudianteToDomain(Payload(o).value[i])
    ensures o.Responded? && Payload(o).None? ==> r == ErrorOf(o.errorBody.GetOr(GET_ALL_FALLBACK))
    ensures o.Thrown? ==> r == ErrorOf(ThrownText(o.kind, o.localizedMessage, CAUGHT))
  {
    Classify(o, MapAll, GET_ALL_FALLBACK, CAUGHT)
  }

  /** GET estudiantes/{id}. */
  function GetEstudianteById(id: string, remote: string -> Outcome): (r: Resource<Estudiante>)
    ensures !r.Loading?
    ensures r.Success? <==> Payload(remote(id)).Some?
    ensures r.Success? ==> r.value == EstudianteMapper.EstudianteToDomain(Payload(remote(id)).value)
    ensures remote(id).Responded? && Payload(remote(id)).None? ==>
              r == ErrorOf(remote(id).errorBody.GetOr(GET_BY_ID_FALLBACK))
    ensures remote(id).Thrown? ==> r == ErrorOf(ThrownText(remote(id).kind, remote(id).localizedMessage, CAUGHT))
  {
    Classify(remote(id), EstudianteMapper.EstudianteToDomain, GET_BY_ID_FALLBACK, CAUGHT)
  }

  /** POST estudiantes, with the wire form of the given student as body. */
  function CreateEstudiante(e: Estudiante, remote: EstudianteDto -> Outcome): (r: Resource<Estudiante>)
    ensures !r.Loading?
    ensures var o := remote(EstudianteMapper.EstudianteToDto(e));
      && (r.Success? <==> Payload(o).Some?)
      && (r.Success? ==> r.value == EstudianteMapper.EstudianteToDomain(Payload(o).value))
      && (o.Responded? && Payload(o).None? ==> r == ErrorOf(o.errorBody.GetOr(CREATE_FALLBACK)))
      && (o.Thrown? ==> r == ErrorOf(ThrownText(o.kind, o.localizedMessage, CAUGHT)))
  {
    var dto := EstudianteMapper.EstudianteToDto(e);
    Classify(remote(dto), EstudianteMapper.EstudianteToDomain, CREATE_FALLBACK, CAUGHT)
  }

  /** PUT estudiantes/{id}, with the wire form of the given student as body. */
  function UpdateEstudiante(id: string, e: Estudiante, remote: (string, EstudianteDto) -> Outcome): (r: Resource<Estudiante>)
    ensures !r.Loading?
    ensures var o := remote(id, EstudianteMapper.EstudianteToDto(e));
      && (r.Success? <==> Payload(o).Some?)
      && (r.Success? ==> r.value == EstudianteMapper.EstudianteToDomain(Payload(o).value))
      && (o.Responded? && Payload(o).None? ==> r == ErrorOf(o.errorBody.GetOr(UPDATE_FALLBACK)))
      && (o.Thrown? ==> r == ErrorOf(ThrownText(o.kind, o.localizedMessage, CAUGHT)))
  {
    var dto := EstudianteMapper.EstudianteToDto(e);
    Classify(remote(id, dto), EstudianteMapper.EstudianteToDomain, UPDATE_FALLBACK, CAUGHT)
  }

  /** DELETE estudiantes/{id}: a successful status suffices, the body is not read. */
  function DeleteEstudiante<B>(id: string, remote: string -> CallOutcome<B>): (r: Resource<()>)
    ensures !r.Loading?
    ensures r.Success? <==> remote(id).Responded? && remote(id).isSuccessful
    ensures remote(id).Responded? && !remote(id).isSuccessful ==>
              r == ErrorOf(remote(id).errorBody.GetOr(DELETE_FALLBACK))
    ensures remote(id).Thrown? ==> r == ErrorOf(ThrownText(remote(id).kind, remote(id).localizedMessage, CAUGHT))
  {
    ClassifyStatus(remote(id), DELETE_FALLBACK, CAUGHT)
  }

  /** An exception thrown by the remote call gives the same `Error` in every
      operation: the exception's text for Retrofit's `HttpException` and for
      unexpected exceptions (with their fallbacks), the fixed text for
      connectivity failures. */
  lemma ExceptionsInEveryOperation(kind: ExceptionKind, m: Option<string>, id: string, e: Estudiante)
    ensures var err: Resource<Estudiante> := ErrorOf(ThrownText(kind, m, Retrofit));
      && GetAllEstudiantes(Thrown(kind, m)) == ErrorOf(ThrownText(kind, m, Retrofit))
      && GetEstudianteById(id, _ => Thrown(kind, m)) == err
      && CreateEstudiante(e, _ => Thrown(kind, m)) == err
      && UpdateEstudiante(id, e, (_, _) => Thrown(kind, m)) == err
      && DeleteEstudiante<()>(id, _ => Thrown(kind, m)) == ErrorOf(ThrownText(kind, m, Retrofit))
    ensures kind == IOException ==> ThrownText(kind, m, Retrofit) == CONNECTIVITY_MESSAGE
    ensures kind == HttpException(Retrofit) && m.None? ==> ThrownText(kind, m, Retrofit) == HTTP_FALLBACK
    ensures kind == OtherException && m.None? ==> ThrownText(kind, m, Retrofit) == UNEXPECTED_FALLBACK
  {
  }

  /** Against a server that stores and returns exactly the student it is sent,
      creating or updating gives back the student without its classes'
      participants: the wire form has no place for them. */
  lemma EchoingServerReturnsSentStudent(id: string, e: Estudiante, remote: EstudianteDto -> Outcome, message: string)
    requires forall dto :: remote(dto) == Responded(true, Some(ApiResponse(message, Some(dto))), None)
    ensures CreateEstudiante(e, remote) == Success(EstudianteMapper.WithoutParticipantes(e))
    ensures UpdateEstudiante(id, e, (_, dto) => remote(dto)) == Success(EstudianteMapper.WithoutParticipantes(e))
    ensures EstudianteMapper.NoParticipantes(e) ==> CreateEstudiante(e, remote) == Success(e)
  {
    EstudianteMapper.EstudianteRoundTrip(e);
  }

  /** Getting the same student twice from an unchanged server gives equal results. */
  lemma GetByIdDeterministic(id: string, remote1: string -> Outcome, remote2: string -> Outcome)
    requires remote1(id) == remote2(id)
    ensures GetEstudianteById(id, remote1) == GetEstudianteById(id, remote2)
  {
  }
}
