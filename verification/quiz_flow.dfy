/** How the quiz screens chain together: a route built by the exam screen or
    by a quiz button is read back by the next quiz view model, whose load then
    shows the requested question at the requested position, so that "next"
    followed by "previous" leads back to the question the student started on. */
module QuizFlow {
  import opened Optional
  import opened Resources
  import opened Domain
  import opened KotlinText
  import opened StudentLookup
  import opened QuizViewModel
  import opened QuizNavigation
  import SimulacroViewModel
  import opened SimulacroScreen

  /** The route to question `index` of exam `s` in class `c` of student `e`. */
  function RouteFor(e: Estudiante, c: ClaseICFES, s: Simulacro, index: Int32): QuizRoute
    requires 0 <= index < |s.listaIdPreguntas|
  {
    QuizRoute(e.id, c.id, s.id, s.listaIdPreguntas[index], IntToString(index),
              IntToString(ListSize(|s.listaIdPreguntas|)))
  }

  /** The backend keeps returning student `e`, in whose record exam `s` is
      found in class `c`, and answers every question id of `s`. */
  predicate StableBackend(e: Estudiante, c: ClaseICFES, s: Simulacro,
                          fetchEstudiante: string -> Resource<Estudiante>,
                          fetchPregunta: string -> Resource<Pregunta>)
  {
    && fetchEstudiante(e.id) == Success(e)
    && FindSimulacro(e, c.id, s.id) == Some((c, s))
    && forall i :: 0 <= i < |s.listaIdPreguntas| ==> fetchPregunta(s.listaIdPreguntas[i]).Success?
  }

  /** Opening the route to question `index` on a fresh quiz screen creates the
      view model and loads a positioned state on that question. */
  lemma Arrival(e: Estudiante, c: ClaseICFES, s: Simulacro, index: Int32,
                fetchEstudiante: string -> Resource<Estudiante>,
                fetchPregunta: string -> Resource<Pregunta>)
    requires e.id != "" && c.id != "" && s.id != ""
    requires 0 <= index < |s.listaIdPreguntas| <= INT_MAX
    requires StableBackend(e, c, s, fetchEstudiante, fetchPregunta)
    ensures ParseQuizArgs(RouteArguments(RouteFor(e, c, s, index))).Created?
    ensures var u := LoadQuizData(DEFAULT_UI_STATE, ParseQuizArgs(RouteArguments(RouteFor(e, c, s, index))).args,
                                  fetchEstudiante, fetchPregunta);
      && Positioned(u)
      && u.indexPreguntaActual == Some(index)
      && u.estudiante == Some(e) && u.clase == Some(c) && u.simulacro == Some(s)
      && u.pregunta == Some(fetchPregunta(s.listaIdPreguntas[index]).value)
  {
    var route := RouteFor(e, c, s, index);
    IntToStringRoundTrip(index);
    IntToStringRoundTrip(ListSize(|s.listaIdPreguntas|));
    var handle := RouteArguments(route);
    assert handle[KEY_INDEX] == IntToString(index);
    var args := ParseQuizArgs(handle).args;
    assert args == QuizArgs(e.id, c.id, s.id, s.listaIdPreguntas[index], index, |s.listaIdPreguntas|);
    assert fetchPregunta(args.preguntaId).Success?;
  }

  /** "Empezar Simulacro" lands on the first question of the exam. */
  lemma StartLandsOnFirstQuestion(ui: SimulacroViewModel.SimulacroUiState,
                                  fetchEstudiante: string -> Resource<Estudiante>,
                                  fetchPregunta: string -> Resource<Pregunta>)
    requires ui.estudiante.Some? && ui.clase.Some? && ui.simulacro.Some?
    requires var e := ui.estudiante.value; var c := ui.clase.value; var s := ui.simulacro.value;
      e.id != "" && c.id != "" && s.id != "" &&
      0 < |s.listaIdPreguntas| <= INT_MAX && StableBackend(e, c, s, fetchEstudiante, fetchPregunta)
    ensures StartSimulacro(ui).Some?
    ensures ParseQuizArgs(RouteArguments(StartSimulacro(ui).value)).Created?
    ensures var u := LoadQuizData(DEFAULT_UI_STATE, ParseQuizArgs(RouteArguments(StartSimulacro(ui).value)).args,
                                  fetchEstudiante, fetchPregunta);
      Positioned(u) && u.indexPreguntaActual == Some(0) && u.simulacro == ui.simulacro
  {
    var e, c, s := ui.estudiante.value, ui.clase.value, ui.simulacro.value;
    assert IntToString(0) == "0";
    assert StartSimulacro(ui).value == RouteFor(e, c, s, 0);
    Arrival(e, c, s, 0, fetchEstudiante, fetchPregunta);
  }

  /** Two quiz states showing the same student, class and exam build the
      same routes. */
  lemma SameExamSameRoutes(u: QuizUiState, ui: QuizUiState, i: Int32)
    requires u.estudiante == ui.estudiante && u.clase == ui.clase && u.simulacro == ui.simulacro
    requires 0 <= i < |QuestionIds(ui)|
    ensures RouteTo(u, i) == RouteTo(ui, i)
  {
  }

  /** One question after `ui`'s, "previous" goes to `ui`'s question. */
  lemma PreviousGoesBack(u: QuizUiState, ui: QuizUiState)
    requires Positioned(ui) && Positioned(u)
    requires u.estudiante == ui.estudiante && u.clase == ui.clase && u.simulacro == ui.simulacro
    requires u.indexPreguntaActual == Some(ui.indexPreguntaActual.value + 1)
    ensures OnPreviousClick(u) == Navigate(RouteTo(ui, ui.indexPreguntaActual.value))
  {
    SameExamSameRoutes(u, ui, ui.indexPreguntaActual.value);
  }

  /** From a positioned state the "next" button leads to a positioned state
      one question further on, from which "previous" produces the very route
      to the question the student left. */
  lemma NextThenPreviousReturns(ui: QuizUiState,
                                fetchEstudiante: string -> Resource<Estudiante>,
                                fetchPregunta: string -> Resource<Pregunta>)
    requires Positioned(ui) && ui.estudiante.Some? && ui.clase.Some?
    requires StableBackend(ui.estudiante.value, ui.clase.value, ui.simulacro.value, fetchEstudiante, fetchPregunta)
    requires ui.indexPreguntaActual.value < |QuestionIds(ui)| - 1
    ensures OnNextClick(ui).Navigate?
    ensures ParseQuizArgs(RouteArguments(OnNextClick(ui).route)).Created?
    ensures var u := LoadQuizData(DEFAULT_UI_STATE, ParseQuizArgs(RouteArguments(OnNextClick(ui).route)).args,
                                  fetchEstudiante, fetchPregunta);
      && Positioned(u)
      && u.indexPreguntaActual == Some(ui.indexPreguntaActual.value + 1)
      && OnPreviousClick(u) == Navigate(RouteTo(ui, ui.indexPreguntaActual.value))
  {
    var e, c, s := ui.estudiante.value, ui.clase.value, ui.simulacro.value;
    var i := ui.indexPreguntaActual.value;
    NextIsRouteFor(ui);
    Arrival(e, c, s, i + 1, fetchEstudiante, fetchPregunta);
    var u := LoadQuizData(DEFAULT_UI_STATE, ParseQuizArgs(RouteArguments(RouteFor(e, c, s, i + 1))).args,
                          fetchEstudiante, fetchPregunta);
    PreviousGoesBack(u, ui);
  }

  /** In a positioned state with a later question, "next" builds the route
      to it. */
  lemma NextIsRouteFor(ui: QuizUiState)
    requires Positioned(ui) && ui.estudiante.Some? && ui.clase.Some?
    requires ui.indexPreguntaActual.value < |QuestionIds(ui)| - 1
    ensures OnNextClick(ui) ==
      Navigate(RouteFor(ui.estudiante.value, ui.clase.value, ui.simulacro.value, ui.indexPreguntaActual.value + 1))
  {
    PositionedNeverThrows(ui);
  }
}
