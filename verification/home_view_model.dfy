/** The home screen's state holder: it loads a student's profile and shows
    the classes, every forum and every practice exam of those classes, with a
    tab selector and a search query. */
module HomeViewModel {
  import opened Optional
  import opened Resources
  import opened Domain
  import Lists

  const WELCOME_MESSAGE: string := "Bienvenido a PREPARATE ICFES CARIBE"
  const MISSING_ESTUDIANTE: string := "Estudiante ID no encontrado en los argumentos de navegación."
  const ESTUDIANTE_NULL: string := "No se encontró el perfil del estudiante."
  const FALLBACK: string := "Error al cargar los datos del perfil."

  datatype HomeTab = FOROS | SIMULACROS

  datatype HomeUiState = HomeUiState(
    isLoading: bool,
    errorMessage: Option<string>,
    estudiante: Option<Estudiante>,
    clasesICFES: seq<ClaseICFES>,
    foros: seq<Foro>,
    simulacros: seq<Simulacro>,
    selectedTab: HomeTab,
    mensajeBienvenidaPredeterminado: string,
    searchQuery: string)

  const DEFAULT_UI_STATE: HomeUiState :=
    HomeUiState(false, None, None, [], [], [], FOROS, WELCOME_MESSAGE, "")

  datatype Creation = Created(estudianteId: string) | CreationFailed(message: string)

  function ParseEstudianteId(handle: map<string, string>): (r: Creation)
    ensures r.Created? <==> "estudianteId" in handle
    ensures r.Created? ==> r.estudianteId == handle["estudianteId"]
    ensures r.CreationFailed? ==> r.message == MISSING_ESTUDIANTE
  {
    if "estudianteId" in handle then Created(handle["estudianteId"]) else CreationFailed(MISSING_ESTUDIANTE)
  }

  /** The student's classes, with a null list shown as empty. */
  function Clases(estudiante: Estudiante): seq<ClaseICFES> {
    estudiante.clasesICFES.GetOr([])
  }

  function ForosOf(c: ClaseICFES): seq<Foro> { c.foros }
  function SimulacrosOf(c: ClaseICFES): seq<Simulacro> { c.simulacros }

  /** Every class's forums, class by class. */
  function AllForos(clases: seq<ClaseICFES>): seq<Foro> {
    Lists.FlatMap(ForosOf, clases)
  }

  /** Every class's practice exams, class by class. */
  function AllSimulacros(clases: seq<ClaseICFES>): seq<Simulacro> {
    Lists.FlatMap(SimulacrosOf, clases)
  }

  /** `loadHomeScreenData`, given the student fetch. */
  function LoadHomeScreenData(ui: HomeUiState, estudianteId: string,
                              fetchEstudiante: string -> Resource<Estudiante>): (r: HomeUiState)
    ensures r.selectedTab == ui.selectedTab && r.searchQuery == ui.searchQuery
    ensures r.mensajeBienvenidaPredeterminado == ui.mensajeBienvenidaPredeterminado
    ensures fetchEstudiante(estudianteId).Loading? ==> r == ui.(isLoading := true, errorMessage := None)
    ensures fetchEstudiante(estudianteId).Error? ==>
      r == ui.(isLoading := false, errorMessage := Some(fetchEstudiante(estudianteId).msg))
    ensures fetchEstudiante(estudianteId).Success? ==>
      var e := fetchEstudiante(estudianteId).value;
      && !r.isLoading && r.errorMessage == None && r.estudiante == Some(e)
      && (e.clasesICFES.Some? ==> r.clasesICFES == e.clasesICFES.value)
      && (e.clasesICFES.None? ==> r.clasesICFES == [] && r.foros == [] && r.simulacros == [])
      && r.foros == AllForos(r.clasesICFES) && r.simulacros == AllSimulacros(r.clasesICFES)
  {
    var loading := ui.(isLoading := true, errorMessage := None);
    var result := fetchEstudiante(estudianteId);
    match result
    case Success(_) =>
      (match result.Data()
       case Some(estudiante) =>
         loading.(isLoading := false, estudiante := Some(estudiante),
                  clasesICFES := estudiante.clasesICFES.GetOr([]),
                  foros := estudiante.clasesICFES.Map(AllForos).GetOr([]),
                  simulacros := estudiante.clasesICFES.Map(AllSimulacros).GetOr([]),
                  errorMessage := None)
       case None =>
         loading.(isLoading := false, errorMessage := Some(ESTUDIANTE_NULL)))
    case Error(_, _) =>
      loading.(isLoading := false, errorMessage := Some(result.Message().GetOr(FALLBACK)))
    case Loading => loading
  }

  function OnTabSelected(ui: HomeUiState, tab: HomeTab): (r: HomeUiState)
    ensures r.selectedTab == tab && r.(selectedTab := ui.selectedTab) == ui
  {
    ui.(selectedTab := tab)
  }

  function OnSearchQueryChange(ui: HomeUiState, query: string): (r: HomeUiState)
    ensures r.searchQuery == query && r.(searchQuery := ui.searchQuery) == ui
  {
    ui.(searchQuery := query)
  }

  function ResetUiState(ui: HomeUiState): (r: HomeUiState)
    ensures r == DEFAULT_UI_STATE && r.selectedTab == FOROS && r.searchQuery == ""
    ensures r.mensajeBienvenidaPredeterminado == WELCOME_MESSAGE
  {
    DEFAULT_UI_STATE
  }

  /** A forum is shown exactly when it belongs to one of the shown classes,
      and likewise for practice exams. */
  lemma ShownItemsComeFromClasses(clases: seq<ClaseICFES>, f: Foro, s: Simulacro)
    ensures f in AllForos(clases) <==> exists i :: 0 <= i < |clases| && f in clases[i].foros
    ensures s in AllSimulacros(clases) <==> exists i :: 0 <= i < |clases| && s in clases[i].simulacros
  {
    Lists.FlatMapMembership(ForosOf, clases, f);
    Lists.FlatMapMembership(SimulacrosOf, clases, s);
  }

  /** The forum list is as long as all the classes' forum lists together. */
  lemma ForoCountIsSum(clases: seq<ClaseICFES>)
    ensures |AllForos(clases)| == Lists.Sum(Lists.Map((c: ClaseICFES) => |c.foros|, clases))
  {
    Lists.FlatMapLength(ForosOf, (c: ClaseICFES) => |c.foros|, clases);
  }

  /** Class order and each class's own forum order are kept: class `i`'s
      forums sit, in order, right after those of the classes before it. */
  lemma ForosKeepClassOrder(clases: seq<ClaseICFES>, i: nat)
    requires i < |clases|
    ensures var start := |AllForos(clases[..i])|;
      start + |clases[i].foros| <= |AllForos(clases)| &&
      AllForos(clases)[start..start + |clases[i].foros|] == clases[i].foros
  {
    Lists.FlatMapBlock(ForosOf, clases, i);
  }

  /** The same for practice exams. */
  lemma SimulacrosKeepClassOrder(clases: seq<ClaseICFES>, i: nat)
    requires i < |clases|
    ensures var start := |AllSimulacros(clases[..i])|;
      start + |clases[i].simulacros| <= |AllSimulacros(clases)| &&
      AllSimulacros(clases)[start..start + |clases[i].simulacros|] == clases[i].simulacros
  {
    Lists.FlatMapBlock(SimulacrosOf, clases, i);
  }

  /** Loading a student without classes shows nothing in any list. */
  lemma NoClassesNoItems(ui: HomeUiState, estudianteId: string,
                         fetchEstudiante: string -> Resource<Estudiante>)
    requires fetchEstudiante(estudianteId).Success?
    requires fetchEstudiante(estudianteId).value.clasesICFES.None? ||
             fetchEstudiante(estudianteId).value.clasesICFES == Some([])
    ensures var r := LoadHomeScreenData(ui, estudianteId, fetchEstudiante);
      r.clasesICFES == [] && r.foros == [] && r.simulacros == []
  {
  }
}
