/** The practice-exam detail screen's "Empezar Simulacro" button: with the
    exam, the student and the class loaded and at least one question, it
    opens the quiz on the first question. */
module SimulacroScreen {
  import opened Optional
  import opened Domain
  import opened KotlinText
  import opened SimulacroViewModel
  import opened QuizNavigation

  /** The route the button navigates to, or null when it does nothing. */
  function StartSimulacro(ui: SimulacroUiState): (r: Option<QuizRoute>)
    ensures r.Some? <==>
      ui.simulacro.Some? && ui.estudiante.Some? && ui.clase.Some? && ui.simulacro.value.listaIdPreguntas != []
    ensures r.Some? ==>
      && r.value.estudianteId == ui.estudiante.value.id
      && r.value.claseId == ui.clase.value.id
      && r.value.simulacroId == ui.simulacro.value.id
      && r.value.preguntaId == ui.simulacro.value.listaIdPreguntas[0]
      && ToIntOrNull(r.value.indexActual) == Some(0)
      && ToIntOrNull(r.value.cantidadPreguntas) == Some(ListSize(|ui.simulacro.value.listaIdPreguntas|))
  {
    match (ui.simulacro, ui.estudiante, ui.clase)
    case (Some(simulacro), Some(estudiante), Some(clase)) =>
      var listaIdPreguntas := simulacro.listaIdPreguntas;
      if listaIdPreguntas != [] then
        var totalQuestions := ListSize(|listaIdPreguntas|);
        IntToStringRoundTrip(totalQuestions);
        assert ToIntOrNull("0") == Some(0);
        Some(QuizRoute(estudiante.id, clase.id, simulacro.id, listaIdPreguntas[0], "0", IntToString(totalQuestions)))
      else None
    case _ => None
  }
}
