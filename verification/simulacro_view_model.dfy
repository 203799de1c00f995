/** The practice-exam detail screen's state holder. It reads three navigation
    arguments when created, then fetches the student and looks the exam up
    inside the student's record. A fetch still loading reaches `TODO()`,
    which throws; the model makes that an explicit outcome. */
module SimulacroViewModel {
  import opened Optional
  import opened Resources
  import opened Domain
  import opened KotlinText
  import opened StudentLookup

  const MISSING_SIMULACRO: string := "Obj Clase No encontrado en los parametros de navegacion"
  const MISSING_ESTUDIANTE: string := "Estudiante ID no encontrado en los argumentos de navegación."
  const MISSING_CLASE: string := "Clase con ID no encontrado en los argumentos de navegación."

  const SIMULACRO_NOT_FOUND: string := "Simulacro no encontrado para la clase especificada."
  const ESTUDIANTE_NULL: string := "No se encontró el perfil del estudiante."
  const ESTUDIANTE_FALLBACK: string := "Error al cargar los datos del perfil."

  datatype SimulacroArgs = SimulacroArgs(simulacroId: string, estudianteId: string, claseId: string)

  datatype Creation = Created(args: SimulacroArgs) | CreationFailed(message: string)

  /** Reads the arguments in declaration order; the first missing one names
      the exception. */
  function ParseSimulacroArgs(handle: map<string, string>): (r: Creation)
    ensures r.Created? <==> "simulacroId" in handle && "estudianteId" in handle && "claseId" in handle
    ensures r.Created? ==> r.args == SimulacroArgs(handle["simulacroId"], handle["estudianteId"], handle["claseId"])
    ensures "simulacroId" !in handle ==> r == CreationFailed(MISSING_SIMULACRO)
    ensures "simulacroId" in handle && "estudianteId" !in handle ==> r == CreationFailed(MISSING_ESTUDIANTE)
    ensures "simulacroId" in handle && "estudianteId" in handle && "claseId" !in handle ==>
              r == CreationFailed(MISSING_CLASE)
  {
    if "simulacroId" !in handle then CreationFailed(MISSING_SIMULACRO)
    else if "estudianteId" !in handle then CreationFailed(MISSING_ESTUDIANTE)
    else if "claseId" !in handle then CreationFailed(MISSING_CLASE)
    else Created(SimulacroArgs(handle["simulacroId"], handle["estudianteId"], handle["claseId"]))
  }

  datatype SimulacroUiState = SimulacroUiState(
    isLoading: bool,
    errorMessage: Option<string>,
    simulacro: Option<Simulacro>,
    estudiante: Option<Estudiante>,
    clase: Option<ClaseICFES>,
    numPreguntas: Option<Int32>)

  const DEFAULT_UI_STATE: SimulacroUiState := SimulacroUiState(false, None, None, None, None, Some(0))

  /** The new state, or the `NotImplementedError` thrown by `TODO()`. */
  datatype LoadOutcome = Updated(ui: SimulacroUiState) | NotImplemented

  /** `loadSimulacroData`, given the student fetch. The loading flag is never
      raised here; a successful load shows the exam and its question count. */
  function LoadSimulacroData(ui: SimulacroUiState, args: SimulacroArgs,
                             fetchEstudiante: string -> Resource<Estudiante>): (r: LoadOutcome)
    ensures r.NotImplemented? <==> fetchEstudiante(args.estudianteId).Loading?
    ensures fetchEstudiante(args.estudianteId).Error? ==>
      r == Updated(ui.(isLoading := false, errorMessage := Some(fetchEstudiante(args.estudianteId).msg)))
    ensures fetchEstudiante(args.estudianteId).Success? ==>
      var e := fetchEstudiante(args.estudianteId).value;
      match FindSimulacro(e, args.claseId, args.simulacroId)
      case None => r == Updated(ui.(isLoading := false, errorMessage := Some(SIMULACRO_NOT_FOUND)))
      case Some(found) =>
        && r.Updated? && !r.ui.isLoading && r.ui.errorMessage == None
        && r.ui.estudiante == Some(e) && r.ui.clase == Some(found.0) && r.ui.simulacro == Some(found.1)
        && r.ui.numPreguntas == Some(ListSize(|found.1.listaIdPreguntas|))
  {
    var result := fetchEstudiante(args.estudianteId);
    match result
    case Success(_) =>
      (match result.Data()
       case Some(estudiante) =>
         (match FindSimulacro(estudiante, args.claseId, args.simulacroId)
          case Some((targetClase, targetSimulacro)) =>
            Updated(ui.(isLoading := false, estudiante := Some(estudiante), clase := Some(targetClase),
                        simulacro := Some(targetSimulacro),
                        numPreguntas := Some(ListSize(|targetSimulacro.listaIdPreguntas|)),
                        errorMessage := None))
          case None =>
            Updated(ui.(isLoading := false, errorMessage := Some(SIMULACRO_NOT_FOUND))))
       case None =>
         Updated(ui.(isLoading := false, errorMessage := Some(ESTUDIANTE_NULL))))
    case Error(_, _) =>
      Updated(ui.(isLoading := false, errorMessage := Some(result.Message().GetOr(ESTUDIANTE_FALLBACK))))
    case Loading => NotImplemented
  }

  function ResetUiState(ui: SimulacroUiState): (r: SimulacroUiState)
    ensures r == DEFAULT_UI_STATE && r.numPreguntas == Some(0) && r.simulacro.None?
  {
    DEFAULT_UI_STATE
  }

  /** The question count shown is the exam's number of question ids (any
      list small enough for its size to be an `Int`). */
  lemma CountIsListSize(ui: SimulacroUiState, args: SimulacroArgs,
                        fetchEstudiante: string -> Resource<Estudiante>)
    requires LoadSimulacroData(ui, args, fetchEstudiante).Updated?
    requires LoadSimulacroData(ui, args, fetchEstudiante).ui.errorMessage.None?
    ensures var u := LoadSimulacroData(ui, args, fetchEstudiante).ui;
      u.simulacro.Some? && u.simulacro.value.id == args.simulacroId &&
      (|u.simulacro.value.listaIdPreguntas| <= INT_MAX ==>
         u.numPreguntas == Some(|u.simulacro.value.listaIdPreguntas|))
  {
    var e := fetchEstudiante(args.estudianteId);
    assert e.Success?;
    assert FindSimulacro(e.value, args.claseId, args.simulacroId).Some?;
  }

  /** Only the logged-in student's record is consulted. */
  lemma FetchUsesStudentArgument(ui: SimulacroUiState, args: SimulacroArgs,
                                 fetch1: string -> Resource<Estudiante>,
                                 fetch2: string -> Resource<Estudiante>)
    requires fetch1(args.estudianteId) == fetch2(args.estudianteId)
    ensures LoadSimulacroData(ui, args, fetch1) == LoadSimulacroData(ui, args, fetch2)
  {
  }
}
