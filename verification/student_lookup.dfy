/** The searches the screens make inside a fetched student's record: the first
    class with a given id (`clasesICFES?.find { it.id == … }`) and the first
    practice exam with a given id in a class. */
module StudentLookup {
  import opened Optional
  import opened Domain
  import Lists

  /** The student's first class with the requested id; null when the student
      has no class list or none matches. */
  function TargetClase(estudiante: Estudiante, claseId: string): (r: Option<ClaseICFES>)
    ensures r.None? <==>
      estudiante.clasesICFES.None? ||
      forall i :: 0 <= i < |estudiante.clasesICFES.value| ==> estudiante.clasesICFES.value[i].id != claseId
    ensures r.Some? ==> r.value in estudiante.clasesICFES.value && r.value.id == claseId
    ensures estudiante.clasesICFES.Some? ==>
      forall i :: 0 <= i < |estudiante.clasesICFES.value| && estudiante.clasesICFES.value[i].id == claseId
        && (forall j :: 0 <= j < i ==> estudiante.clasesICFES.value[j].id != claseId)
        ==> r == Some(estudiante.clasesICFES.value[i])
  {
    match estudiante.clasesICFES
    case None => None
    case Some(clases) =>
      Lists.FindFirstFound((c: ClaseICFES) => c.id == claseId, clases);
      Lists.FindFirst((c: ClaseICFES) => c.id == claseId, clases)
  }

  /** The class's first practice exam with the requested id. */
  function TargetSimulacro(clase: ClaseICFES, simulacroId: string): (r: Option<Simulacro>)
    ensures r.None? <==> forall i :: 0 <= i < |clase.simulacros| ==> clase.simulacros[i].id != simulacroId
    ensures r.Some? ==> r.value in clase.simulacros && r.value.id == simulacroId
    ensures forall i :: 0 <= i < |clase.simulacros| && clase.simulacros[i].id == simulacroId
              && (forall j :: 0 <= j < i ==> clase.simulacros[j].id != simulacroId)
              ==> r == Some(clase.simulacros[i])
  {
    Lists.FindFirstFound((s: Simulacro) => s.id == simulacroId, clase.simulacros);
    Lists.FindFirst((s: Simulacro) => s.id == simulacroId, clase.simulacros)
  }

  /** The exam found by first finding the class, then the exam in it; null
      when either search fails. */
  function FindSimulacro(estudiante: Estudiante, claseId: string, simulacroId: string): (r: Option<(ClaseICFES, Simulacro)>)
    ensures r.Some? ==>
      && estudiante.clasesICFES.Some? && r.value.0 in estudiante.clasesICFES.value && r.value.0.id == claseId
      && r.value.1 in r.value.0.simulacros && r.value.1.id == simulacroId
    ensures r.None? <==>
      TargetClase(estudiante, claseId).None? || TargetSimulacro(TargetClase(estudiante, claseId).value, simulacroId).None?
  {
    match TargetClase(estudiante, claseId)
    case None => None
    case Some(targetClase) =>
      match TargetSimulacro(targetClase, simulacroId)
      case None => None
      case Some(targetSimulacro) => Some((targetClase, targetSimulacro))
  }

  /** When several classes carry the requested id, the first one is taken. */
  lemma FirstMatchingClassWins(estudiante: Estudiante, claseId: string, i: nat)
    requires estudiante.clasesICFES.Some? && i < |estudiante.clasesICFES.value|
    requires estudiante.clasesICFES.value[i].id == claseId
    requires forall j :: 0 <= j < i ==> estudiante.clasesICFES.value[j].id != claseId
    ensures TargetClase(estudiante, claseId) == Some(estudiante.clasesICFES.value[i])
  {
  }

  /** When several exams of a class carry the requested id, the first one is
      taken, and the combined search returns it with the first matching class. */
  lemma FirstMatchingSimulacroWins(estudiante: Estudiante, claseId: string, simulacroId: string, i: nat, k: nat)
    requires estudiante.clasesICFES.Some? && i < |estudiante.clasesICFES.value|
    requires estudiante.clasesICFES.value[i].id == claseId
    requires forall j :: 0 <= j < i ==> estudiante.clasesICFES.value[j].id != claseId
    requires k < |estudiante.clasesICFES.value[i].simulacros|
    requires estudiante.clasesICFES.value[i].simulacros[k].id == simulacroId
    requires forall j :: 0 <= j < k ==> estudiante.clasesICFES.value[i].simulacros[j].id != simulacroId
    ensures FindSimulacro(estudiante, claseId, simulacroId) ==
      Some((estudiante.clasesICFES.value[i], estudiante.clasesICFES.value[i].simulacros[k]))
  {
  }
}
