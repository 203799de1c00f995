/** The class screen's state holder. It reads the class id when created and
    loads the class, its forums and its exams from the record of a fixed
    student id (the app has no session yet). */
module ClassViewModel {
  import opened Optional
  import opened Resources
  import opened Domain
  import opened StudentLookup

  /** The student id the class screen always loads. */
  const LOGGED_IN_ESTUDIANTE_ID: string := "6845d826441f914e0a7475d2"

  const MISSING_CLASE: string := "Clase ID no encontrado en los argumentos de navegación."
  const CLASE_NOT_FOUND_PREFIX: string := "No se encontró la clase con ID "
  const ESTUDIANTE_NULL: string := "No se encontró el perfil del estudiante."
  const FALLBACK: string := "Error al cargar los datos."

  datatype Creation = Created(claseId: string) | CreationFailed(message: string)

  function ParseClaseId(handle: map<string, string>): (r: Creation)
    ensures r.Created? <==> "claseId" in handle
    ensures r.Created? ==> r.claseId == handle["claseId"]
    ensures r.CreationFailed? ==> r.message == MISSING_CLASE
  {
    if "claseId" in handle then Created(handle["claseId"]) else CreationFailed(MISSING_CLASE)
  }

  datatype ClassUiState = ClassUiState(
    isLoading: bool,
    errorMessage: Option<string>,
    clase: Option<ClaseICFES>,
    foros: seq<Foro>,
    simulacros: seq<Simulacro>)

  const DEFAULT_UI_STATE: ClassUiState := ClassUiState(false, None, None, [], [])

  /** `loadClassData`, given the student fetch. */
  function LoadClassData(ui: ClassUiState, claseId: string,
                         fetchEstudiante: string -> Resource<Estudiante>): (r: ClassUiState)
    ensures fetchEstudiante(LOGGED_IN_ESTUDIANTE_ID).Loading? ==> r == ui.(isLoading := true, errorMessage := None)
    ensures fetchEstudiante(LOGGED_IN_ESTUDIANTE_ID).Error? ==>
      r == ui.(isLoading := false, errorMessage := Some(fetchEstudiante(LOGGED_IN_ESTUDIANTE_ID).msg))
    ensures fetchEstudiante(LOGGED_IN_ESTUDIANTE_ID).Success? ==>
      var clases := fetchEstudiante(LOGGED_IN_ESTUDIANTE_ID).value.clasesICFES;
      if clases.Some? && exists i :: 0 <= i < |clases.value| && clases.value[i].id == claseId then
        && !r.isLoading && r.errorMessage == None
        && r.clase.Some? && r.clase.value in clases.value && r.clase.value.id == claseId
        && r.clase == TargetClase(fetchEstudiante(LOGGED_IN_ESTUDIANTE_ID).value, claseId)
        && r.foros == r.clase.value.foros && r.simulacros == r.clase.value.simulacros
      else
        r == ui.(isLoading := false, errorMessage := Some(CLASE_NOT_FOUND_PREFIX + claseId))
  {
    var loading := ui.(isLoading := true, errorMessage := None);
    var result := fetchEstudiante(LOGGED_IN_ESTUDIANTE_ID);
    match result
    case Success(_) =>
      (match result.Data()
       case Some(estudiante) =>
         (match TargetClase(estudiante, claseId)
          case Some(c) =>
            loading.(isLoading := false, clase := Some(c), foros := c.foros, simulacros := c.simulacros,
                     errorMessage := None)
          case None =>
            loading.(isLoading := false, errorMessage := Some(CLASE_NOT_FOUND_PREFIX + claseId)))
       case None =>
         loading.(isLoading := false, errorMessage := Some(ESTUDIANTE_NULL)))
    case Error(_, _) =>
      loading.(isLoading := false, errorMessage := Some(result.Message().GetOr(FALLBACK)))
    case Loading => loading
  }

  function ResetUiState(ui: ClassUiState): (r: ClassUiState)
    ensures r == DEFAULT_UI_STATE && r.foros == [] && r.simulacros == [] && r.clase.None?
  {
    DEFAULT_UI_STATE
  }

  /** Whatever student the screen was reached from, only the fixed student's
      record is read: fetches that agree on that id give the same state. */
  lemma OnlyFixedStudentIsRead(ui: ClassUiState, claseId: string,
                               fetch1: string -> Resource<Estudiante>,
                               fetch2: string -> Resource<Estudiante>)
    requires fetch1(LOGGED_IN_ESTUDIANTE_ID) == fetch2(LOGGED_IN_ESTUDIANTE_ID)
    ensures LoadClassData(ui, claseId, fetch1) == LoadClassData(ui, claseId, fetch2)
  {
  }

  /** A shown class keeps its forums and exams together with it: the lists
      shown are never those of another class. */
  lemma ShownListsBelongToShownClass(ui: ClassUiState, claseId: string,
                                     fetchEstudiante: string -> Resource<Estudiante>)
    requires LoadClassData(ui, claseId, fetchEstudiante).errorMessage.None?
    requires !LoadClassData(ui, claseId, fetchEstudiante).isLoading
    ensures var r := LoadClassData(ui, claseId, fetchEstudiante);
      r.clase.Some? && r.clase.value.id == claseId &&
      r.foros == r.clase.value.foros && r.simulacros == r.clase.value.simulacros
  {
    var result := fetchEstudiante(LOGGED_IN_ESTUDIANTE_ID);
    assert result.Success?;
  }
}
