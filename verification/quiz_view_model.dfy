/** The quiz screen's state holder. Its six navigation arguments are read when
    it is created (creation fails on a missing or malformed one); loading then
    fetches the student, finds the class and the practice exam inside the
    student's record, and fetches the question. Both fetches are parameters. */
module QuizViewModel {
  import opened Optional
  import opened Resources
  import opened Domain
  import opened KotlinText
  import opened StudentLookup

  const KEY_ESTUDIANTE: string := "estudianteId"
  const KEY_CLASE: string := "claseId"
  const KEY_SIMULACRO: string := "simulacroId"
  const KEY_PREGUNTA: string := "preguntaId"
  const KEY_INDEX: string := "indexActual"
  const KEY_CANTIDAD: string := "cantidadPreguntas"

  const MISSING_ESTUDIANTE: string := "Id Estudiante NO ENCONTRADO en los parametros de navegacion"
  const MISSING_CLASE: string := "Id Clase NO ENCONTRADO en los parametros de navegacion"
  const MISSING_SIMULACRO: string := "Id Simulacro NO ENCONTRADO en los parametros de navegacion"
  const MISSING_PREGUNTA: string := "Id Pregunta NO ENCONTRADO en los parametros de navegacion"
  const MISSING_INDEX: string := "Índice de la pregunta NO ENCONTRADO o formato inválido en los parámetros de navegación"
  const MISSING_CANTIDAD: string := "Cantidad de preguntas NO ENCONTRADA o formato inválido en los parámetros de navegación"

  const CLASE_NOT_FOUND: string := "Clase no encontrada."
  const SIMULACRO_NOT_FOUND: string := "Simulacro no encontrado."
  const PREGUNTA_NULL: string := "No se encontró la pregunta."
  const PREGUNTA_FALLBACK: string := "Error al cargar la pregunta."
  const ESTUDIANTE_NULL: string := "No se encontró el estudiante."
  const ESTUDIANTE_FALLBACK: string := "Error al cargar los datos del estudiante."

  /** The navigation arguments once read and converted. */
  datatype QuizArgs = QuizArgs(
    estudianteId: string,
    claseId: string,
    simulacroId: string,
    preguntaId: string,
    indexActual: Int32,
    cantidadPreguntas: Int32)

  /** Creating the view model either yields its arguments or fails with the
      `IllegalStateException` message of the first argument that is absent
      (or, for the two numbers, not an `Int`). */
  datatype Creation = Created(args: QuizArgs) | CreationFailed(message: string)

  /** Reads the saved navigation arguments in declaration order. */
  function ParseQuizArgs(handle: map<string, string>): (r: Creation)
    ensures r.Created? <==>
      && KEY_ESTUDIANTE in handle && KEY_CLASE in handle && KEY_SIMULACRO in handle
      && KEY_PREGUNTA in handle && KEY_INDEX in handle && KEY_CANTIDAD in handle
      && ToIntOrNull(handle[KEY_INDEX]).Some? && ToIntOrNull(handle[KEY_CANTIDAD]).Some?
    ensures r.Created? ==>
      && r.args.estudianteId == handle[KEY_ESTUDIANTE] && r.args.claseId == handle[KEY_CLASE]
      && r.args.simulacroId == handle[KEY_SIMULACRO] && r.args.preguntaId == handle[KEY_PREGUNTA]
      && ToIntOrNull(handle[KEY_INDEX]) == Some(r.args.indexActual)
      && ToIntOrNull(handle[KEY_CANTIDAD]) == Some(r.args.cantidadPreguntas)
    ensures KEY_ESTUDIANTE !in handle ==> r == CreationFailed(MISSING_ESTUDIANTE)
    ensures KEY_ESTUDIANTE in handle && KEY_CLASE !in handle ==> r == CreationFailed(MISSING_CLASE)
    ensures KEY_ESTUDIANTE in handle && KEY_CLASE in handle && KEY_SIMULACRO !in handle ==>
              r == CreationFailed(MISSING_SIMULACRO)
    ensures (&& KEY_ESTUDIANTE in handle && KEY_CLASE in handle && KEY_SIMULACRO in handle
             && KEY_PREGUNTA !in handle) ==> r == CreationFailed(MISSING_PREGUNTA)
    ensures (&& KEY_ESTUDIANTE in handle && KEY_CLASE in handle && KEY_SIMULACRO in handle
             && KEY_PREGUNTA in handle && (KEY_INDEX !in handle || ToIntOrNull(handle[KEY_INDEX]).None?))
              ==> r == CreationFailed(MISSING_INDEX)
    ensures (&& KEY_ESTUDIANTE in handle && KEY_CLASE in handle && KEY_SIMULACRO in handle
             && KEY_PREGUNTA in handle && KEY_INDEX in handle && ToIntOrNull(handle[KEY_INDEX]).Some?
             && (KEY_CANTIDAD !in handle || ToIntOrNull(handle[KEY_CANTIDAD]).None?))
              ==> r == CreationFailed(MISSING_CANTIDAD)
  {
    if KEY_ESTUDIANTE !in handle then CreationFailed(MISSING_ESTUDIANTE)
    else if KEY_CLASE !in handle then CreationFailed(MISSING_CLASE)
    else if KEY_SIMULACRO !in handle then CreationFailed(MISSING_SIMULACRO)
    else if KEY_PREGUNTA !in handle then CreationFailed(MISSING_PREGUNTA)
    else
      var index := if KEY_INDEX in handle then ToIntOrNull(handle[KEY_INDEX]) else None;
      if index.None? then CreationFailed(MISSING_INDEX)
      else
        var cantidad := if KEY_CANTIDAD in handle then ToIntOrNull(handle[KEY_CANTIDAD]) else None;
        if cantidad.None? then CreationFailed(MISSING_CANTIDAD)
        else
          Created(QuizArgs(handle[KEY_ESTUDIANTE], handle[KEY_CLASE], handle[KEY_SIMULACRO],
                           handle[KEY_PREGUNTA], index.value, cantidad.value))
  }

  datatype QuizUiState = QuizUiState(
    isLoading: bool,
    erroMessage: Option<string>,
    pregunta: Option<Pregunta>,
    estudiante: Option<Estudiante>,
    clase: Option<ClaseICFES>,
    simulacro: Option<Simulacro>,
    indexPreguntaActual: Option<Int32>,
    cantidadPreguntas: Option<Int32>,
    primerLoading: bool)

  const DEFAULT_UI_STATE: QuizUiState :=
    QuizUiState(false, None, None, None, None, None, Some(0), Some(0), false)

  /** `loadQuizData`, given the two fetch use cases. */
  function LoadQuizData(ui: QuizUiState, args: QuizArgs,
                        fetchEstudiante: string -> Resource<Estudiante>,
                        fetchPregunta: string -> Resource<Pregunta>): (r: QuizUiState)
    ensures r.primerLoading == ui.primerLoading
    // student fetch still loading or failed
    ensures fetchEstudiante(args.estudianteId).Loading? ==> r == ui.(isLoading := true)
    ensures fetchEstudiante(args.estudianteId).Error? ==>
      r == ui.(isLoading := false, erroMessage := Some(fetchEstudiante(args.estudianteId).msg))
    // lookup inside the student's record failed: class first, then exam
    ensures fetchEstudiante(args.estudianteId).Success? ==>
      var e := fetchEstudiante(args.estudianteId).value;
      TargetClase(e, args.claseId).None? ==> r == ui.(isLoading := false, erroMessage := Some(CLASE_NOT_FOUND))
    ensures fetchEstudiante(args.estudianteId).Success? ==>
      var e := fetchEstudiante(args.estudianteId).value;
      TargetClase(e, args.claseId).Some? && TargetSimulacro(TargetClase(e, args.claseId).value, args.simulacroId).None? ==>
        r == ui.(isLoading := false, erroMessage := Some(SIMULACRO_NOT_FOUND))
    // question fetch, made only once both were found
    ensures fetchEstudiante(args.estudianteId).Success? ==>
      var e := fetchEstudiante(args.estudianteId).value;
      FindSimulacro(e, args.claseId, args.simulacroId).Some? && fetchPregunta(args.preguntaId).Loading? ==> r == ui.(isLoading := true)
    ensures fetchEstudiante(args.estudianteId).Success? ==>
      var e := fetchEstudiante(args.estudianteId).value;
      FindSimulacro(e, args.claseId, args.simulacroId).Some? && fetchPregunta(args.preguntaId).Error? ==>
        r == ui.(isLoading := false, erroMessage := Some(fetchPregunta(args.preguntaId).msg))
    ensures fetchEstudiante(args.estudianteId).Success? ==>
      var e := fetchEstudiante(args.estudianteId).value;
      FindSimulacro(e, args.claseId, args.simulacroId).Some? && fetchPregunta(args.preguntaId).Success? ==>
        && !r.isLoading && r.erroMessage == None
        && r.estudiante == Some(e)
        && r.clase == Some(FindSimulacro(e, args.claseId, args.simulacroId).value.0)
        && r.simulacro == Some(FindSimulacro(e, args.claseId, args.simulacroId).value.1)
        && r.pregunta == Some(fetchPregunta(args.preguntaId).value)
        && r.indexPreguntaActual == Some(args.indexActual)
        && r.cantidadPreguntas == Some(args.cantidadPreguntas)
  {
    var loading := ui.(isLoading := true);
    var estudianteResult := fetchEstudiante(args.estudianteId);
    match estudianteResult
    case Success(_) =>
      (match estudianteResult.Data()
       case Some(estudiante) =>
         (match TargetClase(estudiante, args.claseId)
          case None => loading.(isLoading := false, erroMessage := Some(CLASE_NOT_FOUND))
          case Some(targetClase) =>
            (match TargetSimulacro(targetClase, args.simulacroId)
             case None => loading.(isLoading := false, erroMessage := Some(SIMULACRO_NOT_FOUND))
             case Some(targetSimulacro) =>
               var preguntaResult := fetchPregunta(args.preguntaId);
               (match preguntaResult
                case Success(_) =>
                  (match preguntaResult.Data()
                   case Some(pregunta) =>
                     loading.(isLoading := false, pregunta := Some(pregunta), estudiante := Some(estudiante),
                              clase := Some(targetClase), simulacro := Some(targetSimulacro),
                              indexPreguntaActual := Some(args.indexActual),
                              cantidadPreguntas := Some(args.cantidadPreguntas), erroMessage := None)
                   case None => loading.(isLoading := false, erroMessage := Some(PREGUNTA_NULL)))
                case Error(_, _) =>
                  loading.(isLoading := false, erroMessage := Some(preguntaResult.Message().GetOr(PREGUNTA_FALLBACK)))
                case Loading => loading)))
       case None => loading.(isLoading := false, erroMessage := Some(ESTUDIANTE_NULL)))
    case Error(_, _) =>
      loading.(isLoading := false, erroMessage := Some(estudianteResult.Message().GetOr(ESTUDIANTE_FALLBACK)))
    case Loading => loading
  }

  function ResetUiState(ui: QuizUiState): (r: QuizUiState)
    ensures r == DEFAULT_UI_STATE
    ensures r.indexPreguntaActual == Some(0) && r.cantidadPreguntas == Some(0) && r.erroMessage.None?
  {
    DEFAULT_UI_STATE
  }

  /** What a completed load shows is coherent: the class is one of the
      student's classes with the requested id, the exam is one of that class's
      exams with the requested id, and the question is what the question
      fetch answered for the requested question id. */
  lemma LoadedStateIsCoherent(ui: QuizUiState, args: QuizArgs,
                              fetchEstudiante: string -> Resource<Estudiante>,
                              fetchPregunta: string -> Resource<Pregunta>)
    requires LoadQuizData(ui, args, fetchEstudiante, fetchPregunta).erroMessage.None?
    requires !LoadQuizData(ui, args, fetchEstudiante, fetchPregunta).isLoading
    ensures var r := LoadQuizData(ui, args, fetchEstudiante, fetchPregunta);
      && fetchEstudiante(args.estudianteId).Success?
      && r.estudiante == Some(fetchEstudiante(args.estudianteId).value)
      && r.clase.Some? && r.clase.value.id == args.claseId
      && r.estudiante.value.clasesICFES.Some? && r.clase.value in r.estudiante.value.clasesICFES.value
      && r.simulacro.Some? && r.simulacro.value.id == args.simulacroId
      && r.simulacro.value in r.clase.value.simulacros
      && fetchPregunta(args.preguntaId) == Success(r.pregunta.value)
  {
    var e := fetchEstudiante(args.estudianteId);
    if e.Success? && FindSimulacro(e.value, args.claseId, args.simulacroId).Some? {
      var c := TargetClase(e.value, args.claseId);
      var s := TargetSimulacro(c.value, args.simulacroId);
      assert FindSimulacro(e.value, args.claseId, args.simulacroId).value == (c.value, s.value);
    }
  }

  /** The question is never fetched unless the class and the exam were found:
      in that case the question fetch makes no difference. */
  lemma NoQuestionFetchWithoutExam(ui: QuizUiState, args: QuizArgs,
                                   fetchEstudiante: string -> Resource<Estudiante>,
                                   fetchPregunta1: string -> Resource<Pregunta>,
                                   fetchPregunta2: string -> Resource<Pregunta>)
    requires !fetchEstudiante(args.estudianteId).Success? || FindSimulacro(fetchEstudiante(args.estudianteId).value, args.claseId, args.simulacroId).None?
    ensures LoadQuizData(ui, args, fetchEstudiante, fetchPregunta1) == LoadQuizData(ui, args, fetchEstudiante, fetchPregunta2)
  {
  }

  /** The fetches are made with the student id and the question id of the
      arguments, and with nothing else. */
  lemma FetchesUseArguments(ui: QuizUiState, args: QuizArgs,
                            fetchEstudiante1: string -> Resource<Estudiante>,
                            fetchEstudiante2: string -> Resource<Estudiante>,
                            fetchPregunta1: string -> Resource<Pregunta>,
                            fetchPregunta2: string -> Resource<Pregunta>)
    requires fetchEstudiante1(args.estudianteId) == fetchEstudiante2(args.estudianteId)
    requires fetchPregunta1(args.preguntaId) == fetchPregunta2(args.preguntaId)
    ensures LoadQuizData(ui, args, fetchEstudiante1, fetchPregunta1) == LoadQuizData(ui, args, fetchEstudiante2, fetchPregunta2)
  {
  }
}
