/** The quiz screen's "previous" and "next" buttons. Each reads the loaded
    state, checks a guard, picks the neighbouring question id from the exam's
    list and navigates to a new quiz route carrying the new index and the list
    size as text. A refused click only shows a toast. */
module QuizNavigation {
  import opened Optional
  import opened Domain
  import opened KotlinText
  import opened QuizViewModel

  /** The six text arguments of a quiz route. */
  datatype QuizRoute = QuizRoute(
    estudianteId: string,
    claseId: string,
    simulacroId: string,
    preguntaId: string,
    indexActual: string,
    cantidadPreguntas: string)

  /** The saved arguments the next quiz screen receives for a route. */
  function RouteArguments(route: QuizRoute): (r: map<string, string>)
    ensures r.Keys == {KEY_ESTUDIANTE, KEY_CLASE, KEY_SIMULACRO, KEY_PREGUNTA, KEY_INDEX, KEY_CANTIDAD}
    ensures r[KEY_ESTUDIANTE] == route.estudianteId && r[KEY_CLASE] == route.claseId
    ensures r[KEY_SIMULACRO] == route.simulacroId && r[KEY_PREGUNTA] == route.preguntaId
    ensures r[KEY_INDEX] == route.indexActual && r[KEY_CANTIDAD] == route.cantidadPreguntas
  {
    map[KEY_ESTUDIANTE := route.estudianteId, KEY_CLASE := route.claseId,
        KEY_SIMULACRO := route.simulacroId, KEY_PREGUNTA := route.preguntaId,
        KEY_INDEX := route.indexActual, KEY_CANTIDAD := route.cantidadPreguntas]
  }

  /** A click refused with a toast, a navigation, or the
      `IndexOutOfBoundsException` thrown by the list access. */
  datatype NavOutcome = Refused(toast: string) | Navigate(route: QuizRoute) | IndexOutOfBounds

  const PREVIOUS_REFUSED: string := "No se puede ir a la pregunta anterior. Datos incompletos."
  const NEXT_REFUSED: string := "No se puede ir a la siguiente pregunta. Datos incompletos o fin del simulacro."

  /** The values the click handlers read, with their null defaults. */
  function CurrentIndex(ui: QuizUiState): Int32 { ui.indexPreguntaActual.GetOr(0) }
  function TotalQuestions(ui: QuizUiState): Int32 { ui.cantidadPreguntas.GetOr(0) }
  function EstudianteId(ui: QuizUiState): string { ui.estudiante.Map((e: Estudiante) => e.id).GetOr("") }
  function ClaseId(ui: QuizUiState): string { ui.clase.Map((c: ClaseICFES) => c.id).GetOr("") }
  function SimulacroId(ui: QuizUiState): string { ui.simulacro.Map((s: Simulacro) => s.id).GetOr("") }
  function QuestionIds(ui: QuizUiState): seq<string> {
    ui.simulacro.Map((s: Simulacro) => s.listaIdPreguntas).GetOr([])
  }

  /** All three ids needed to build a route are non-empty. */
  predicate HasIds(ui: QuizUiState) {
    EstudianteId(ui) != "" && ClaseId(ui) != "" && SimulacroId(ui) != ""
  }

  /** The route to question `index` of the current exam. */
  function RouteTo(ui: QuizUiState, index: Int32): (r: QuizRoute)
    requires 0 <= index < |QuestionIds(ui)|
    ensures r.preguntaId == QuestionIds(ui)[index]
    ensures ToIntOrNull(r.indexActual) == Some(index)
    ensures ToIntOrNull(r.cantidadPreguntas) == Some(ListSize(|QuestionIds(ui)|))
    ensures r.estudianteId == EstudianteId(ui) && r.claseId == ClaseId(ui) && r.simulacroId == SimulacroId(ui)
  {
    IntToStringRoundTrip(index);
    IntToStringRoundTrip(ListSize(|QuestionIds(ui)|));
    QuizRoute(EstudianteId(ui), ClaseId(ui), SimulacroId(ui), QuestionIds(ui)[index],
              IntToString(index), IntToString(ListSize(|QuestionIds(ui)|)))
  }

  /** The "previous" button. */
  function OnPreviousClick(ui: QuizUiState): (r: NavOutcome)
    ensures r.Refused? <==> CurrentIndex(ui) <= 0 || !HasIds(ui)
    ensures r.Refused? ==> r.toast == PREVIOUS_REFUSED
    ensures r.IndexOutOfBounds? <==> !r.Refused? && CurrentIndex(ui) - 1 >= |QuestionIds(ui)|
    ensures r.Navigate? ==>
      && r.route.preguntaId == QuestionIds(ui)[CurrentIndex(ui) - 1]
      && ToIntOrNull(r.route.indexActual) == Some(CurrentIndex(ui) - 1)
      && ToIntOrNull(r.route.cantidadPreguntas) == Some(ListSize(|QuestionIds(ui)|))
  {
    var index := CurrentIndex(ui);
    var ids := QuestionIds(ui);
    if index > 0 && HasIds(ui) then
      if index - 1 < |ids| then Navigate(RouteTo(ui, index - 1)) else IndexOutOfBounds
    else Refused(PREVIOUS_REFUSED)
  }

  /** The "next" button. Its guard computes `totalQuestions - 1` in `Int`,
      which wraps when the count is `Int.MIN_VALUE`. */
  function OnNextClick(ui: QuizUiState): (r: NavOutcome)
    ensures r.Refused? <==> CurrentIndex(ui) >= Wrap32(TotalQuestions(ui) - 1) || !HasIds(ui)
    ensures r.Refused? ==> r.toast == NEXT_REFUSED
    ensures r.IndexOutOfBounds? <==>
      !r.Refused? && (CurrentIndex(ui) + 1 < 0 || CurrentIndex(ui) + 1 >= |QuestionIds(ui)|)
    ensures r.Navigate? ==>
      && r.route.preguntaId == QuestionIds(ui)[CurrentIndex(ui) + 1]
      && ToIntOrNull(r.route.indexActual) == Some(CurrentIndex(ui) + 1)
      && ToIntOrNull(r.route.cantidadPreguntas) == Some(ListSize(|QuestionIds(ui)|))
  {
    var index := CurrentIndex(ui);
    var ids := QuestionIds(ui);
    if index < Wrap32(TotalQuestions(ui) - 1) && HasIds(ui) then
      // the guard keeps `index + 1` inside `Int`
      var next := Wrap32(index + 1);
      assert next == index + 1;
      if 0 <= next < |ids| then Navigate(RouteTo(ui, next)) else IndexOutOfBounds
    else Refused(NEXT_REFUSED)
  }

  /** A quiz state the buttons can work with: an exam with its ids, a current
      index inside the list, and a count equal to the list's size. */
  predicate Positioned(ui: QuizUiState) {
    && HasIds(ui) && ui.simulacro.Some?
    && ui.indexPreguntaActual.Some? && ui.cantidadPreguntas.Some?
    && ui.cantidadPreguntas.value == |QuestionIds(ui)|
    && 0 <= ui.indexPreguntaActual.value < |QuestionIds(ui)|
  }

  /** In a positioned state neither button throws; "previous" moves exactly
      when there is an earlier question and "next" exactly when there is a
      later one. */
  lemma PositionedNeverThrows(ui: QuizUiState)
    requires Positioned(ui)
    ensures !OnPreviousClick(ui).IndexOutOfBounds? && !OnNextClick(ui).IndexOutOfBounds?
    ensures OnPreviousClick(ui).Navigate? <==> ui.indexPreguntaActual.value > 0
    ensures OnNextClick(ui).Navigate? <==> ui.indexPreguntaActual.value < |QuestionIds(ui)| - 1
  {
    assert TotalQuestions(ui) - 1 == Wrap32(TotalQuestions(ui) - 1);
  }

  /** Without a loaded exam the id list is empty, so a "previous" click that
      passes its guard always throws. */
  lemma PreviousWithoutListThrows(ui: QuizUiState)
    requires QuestionIds(ui) == [] && CurrentIndex(ui) > 0 && HasIds(ui)
    ensures OnPreviousClick(ui) == IndexOutOfBounds
  {
  }

  /** A count larger than the list lets "next" pass its guard on the last
      question, and the list access then throws. */
  lemma NextPastTheEndThrows(ui: QuizUiState)
    requires HasIds(ui) && 0 <= CurrentIndex(ui) && CurrentIndex(ui) + 1 == |QuestionIds(ui)|
    requires CurrentIndex(ui) + 1 < TotalQuestions(ui)
    ensures OnNextClick(ui) == IndexOutOfBounds
  {
  }

  /** A count of `Int.MIN_VALUE` makes `totalQuestions - 1` wrap to
      `Int.MAX_VALUE`: "next" is then allowed from any smaller index. */
  lemma MinCountWrapsGuard(ui: QuizUiState)
    requires TotalQuestions(ui) == INT_MIN && HasIds(ui) && CurrentIndex(ui) < INT_MAX
    ensures !OnNextClick(ui).Refused?
  {
  }

  /** A negative index passes the "next" guard whenever the count is
      positive, and the list access at `index + 1` then throws when that is
      still negative. */
  lemma NegativeIndexThrows(ui: QuizUiState)
    requires HasIds(ui) && CurrentIndex(ui) < -1 && TotalQuestions(ui) >= 1
    ensures OnNextClick(ui) == IndexOutOfBounds
  {
  }
}
