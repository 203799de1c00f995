/** The class screen's exam tabs: tab 0 lists the exams still to do
    ("pendiente" or "en progreso"), tab 1 the completed ones. */
module ClassScreen {
  import opened Domain
  import Lists

  const PENDIENTE: string := "pendiente"
  const EN_PROGRESO: string := "en progreso"
  const COMPLETADO: string := "completado"

  predicate IsOpen(s: Simulacro) { s.estado == PENDIENTE || s.estado == EN_PROGRESO }
  predicate IsDone(s: Simulacro) { s.estado == COMPLETADO }

  /** The exams shown under the selected tab; any other index shows none. */
  function FilteredSimulacros(simulacros: seq<Simulacro>, selectedTabIndex: int): (r: seq<Simulacro>)
    ensures selectedTabIndex != 0 && selectedTabIndex != 1 ==> r == []
    ensures selectedTabIndex == 0 ==> forall i :: 0 <= i < |r| ==> IsOpen(r[i])
    ensures selectedTabIndex == 1 ==> forall i :: 0 <= i < |r| ==> IsDone(r[i])
    ensures |r| <= |simulacros|
  {
    match selectedTabIndex
    case 0 => Lists.Filter(IsOpen, simulacros)
    case 1 => Lists.Filter(IsDone, simulacros)
    case _ => []
  }

  /** The status a tab selects. */
  predicate SelectedBy(selectedTabIndex: int, s: Simulacro) {
    (selectedTabIndex == 0 && IsOpen(s)) || (selectedTabIndex == 1 && IsDone(s))
  }

  /** Each tab shows every exam of its status, as many times as it occurs in
      the class, and nothing else. */
  lemma TabCountsAreExact(simulacros: seq<Simulacro>, selectedTabIndex: int, s: Simulacro)
    ensures multiset(FilteredSimulacros(simulacros, selectedTabIndex))[s] ==
      if SelectedBy(selectedTabIndex, s) then multiset(simulacros)[s] else 0
    ensures s in FilteredSimulacros(simulacros, selectedTabIndex) <==> s in simulacros && SelectedBy(selectedTabIndex, s)
  {
    if selectedTabIndex == 0 {
      Lists.FilterMultiset(IsOpen, simulacros, s);
      Lists.FilterMembership(IsOpen, simulacros, s);
    } else if selectedTabIndex == 1 {
      Lists.FilterMultiset(IsDone, simulacros, s);
      Lists.FilterMembership(IsDone, simulacros, s);
    }
  }

  /** Each tab keeps the class's own order of exams. */
  lemma TabKeepsOrder(simulacros: seq<Simulacro>, selectedTabIndex: int)
    ensures Lists.IsSubsequence(FilteredSimulacros(simulacros, selectedTabIndex), simulacros)
  {
    if selectedTabIndex == 0 {
      Lists.FilterIsSubsequence(IsOpen, simulacros);
    } else if selectedTabIndex == 1 {
      Lists.FilterIsSubsequence(IsDone, simulacros);
    }
  }

  /** No exam appears under both tabs, and an exam with any other status
      (or a misspelt one) appears under neither. */
  lemma TabsAreDisjoint(simulacros: seq<Simulacro>, s: Simulacro)
    ensures !(s in FilteredSimulacros(simulacros, 0) && s in FilteredSimulacros(simulacros, 1))
    ensures s in simulacros && !IsOpen(s) && !IsDone(s) ==>
      s !in FilteredSimulacros(simulacros, 0) && s !in FilteredSimulacros(simulacros, 1)
  {
    TabCountsAreExact(simulacros, 0, s);
    TabCountsAreExact(simulacros, 1, s);
  }

  /** Together the two tabs hold exactly the exams whose status is one of
      the three known ones. */
  lemma TabsCoverKnownStatuses(simulacros: seq<Simulacro>)
    ensures |FilteredSimulacros(simulacros, 0)| + |FilteredSimulacros(simulacros, 1)| ==
            |Lists.Filter((s: Simulacro) => IsOpen(s) || IsDone(s), simulacros)|
  {
    FilterSplit(simulacros);
  }

  lemma {:induction false} FilterSplit(xs: seq<Simulacro>)
    ensures |Lists.Filter(IsOpen, xs)| + |Lists.Filter(IsDone, xs)| ==
            |Lists.Filter((s: Simulacro) => IsOpen(s) || IsDone(s), xs)|
  {
    if xs != [] {
      FilterSplit(xs[1..]);
    }
  }
}
