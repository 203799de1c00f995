/** The application's domain records. */
module Domain {
  import opened Optional

  /** A forum inside a class. */
  datatype Foro = Foro(id: string, nombre: string, creador: string, fecha: string)

  /** A mock exam: its status is a free-form string ("pendiente", "en progreso",
      "completado"), its questions an ordered list of question ids. */
  datatype Simulacro = Simulacro(
    id: string,
    titulo: string,
    area: string,
    estado: string,
    listaIdPreguntas: seq<string>,
    listaOpcionesCorrectas: seq<string>,
    listaOpcionesEscogidas: seq<string>)

  /** A class a student is enrolled in; `participantes` defaults to empty. */
  datatype ClaseICFES = ClaseICFES(
    id: string,
    nombreClase: string,
    profesor: string,
    foros: seq<Foro>,
    simulacros: seq<Simulacro>,
    participantes: seq<Estudiante>)

  /** A student; `clasesICFES` is nullable. */
  datatype Estudiante = Estudiante(
    id: string,
    nombreCompleto: string,
    correo: string,
    fechaRegistro: string,
    departamento: string,
    municipio: string,
    grado: string,
    clasesICFES: Option<seq<ClaseICFES>>)

  /** An answer option of a question. */
  datatype Opcion = Opcion(id: string, letra: string, texto: string)

  /** A quiz question; `urlImagen` is nullable. */
  datatype Pregunta = Pregunta(
    id: string,
    area: string,
    tema: string,
    enunciado: string,
    opciones: seq<Opcion>,
    explicacionCorrecta: string,
    urlImagen: Option<string>)
}
