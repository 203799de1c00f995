/** The wire-format records exchanged with the REST backend, as plain records
    (the JSON key names are the serialisation library's concern). */
module Dto {
  import opened Optional

  datatype ForoDto = ForoDto(nombre: string, creador: string, fecha: string, id: string)

  datatype SimulacroDto = SimulacroDto(
    titulo: string,
    area: string,
    estado: string,
    listaIdPreguntas: seq<string>,
    listaOpcionesCorrectas: seq<string>,
    listaOpcionesEscogidas: seq<string>,
    id: string)

  /** A class on the wire carries no participant list. */
  datatype ClaseICFESDto = ClaseICFESDto(
    nombreClase: string,
    profesor: string,
    foros: seq<ForoDto>,
    simulacros: seq<SimulacroDto>,
    id: string)

  /** A student on the wire, with the password hash and the document version. */
  datatype EstudianteDto = EstudianteDto(
    id: string,
    nombreCompleto: string,
    correo: string,
    contrasenaHash: string,
    fechaRegistro: string,
    departamento: string,
    municipio: string,
    grado: string,
    clasesICFES: Option<seq<ClaseICFESDto>>,
    v: Option<int>)

  datatype OpcionDto = OpcionDto(letra: string, texto: string, id: string)

  datatype PreguntaDto = PreguntaDto(
    id: string,
    area: string,
    tema: string,
    enunciado: string,
    opciones: seq<OpcionDto>,
    explicacionCorrecta: string,
    urlImagen: Option<string>,
    v: Option<int>)

  /** The body of a registration request. */
  datatype RegisterRequest = RegisterRequest(
    fullName: string,
    email: string,
    password: string,
    department: string,
    municipality: string,
    grade: string)

  /** The body of a login request. */
  datatype LoginRequest = LoginRequest(email: string, password: string)

  /** The envelope of every response body: a message and a nullable payload. */
  datatype ApiResponse<T> = ApiResponse(message: string, data: Option<T>)
}
