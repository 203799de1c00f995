/** Conversions between the student records on the wire and in the domain,
    in both directions (the student repository's mapper). */
module EstudianteMapper {
  import opened Optional
  import opened Domain
  import opened Dto
  import Lists

  // ---- DTO to domain (API -> app) ----

  function ForoToDomain(d: ForoDto): Foro
  {
    Foro(d.id, d.nombre, d.creador, d.fecha)
  }

  function SimulacroToDomain(d: SimulacroDto): Simulacro
  {
    Simulacro(d.id, d.titulo, d.area, d.estado,
              d.listaIdPreguntas, d.listaOpcionesCorrectas, d.listaOpcionesEscogidas)
  }

  /** The wire class has no participants, so the domain class gets the
      default empty list. */
  function ClaseToDomain(d: ClaseICFESDto): (r: ClaseICFES)
    ensures r.participantes == []
  {
    ClaseICFES(d.id, d.nombreClase, d.profesor,
               Lists.Map(ForoToDomain, d.foros),
               Lists.Map(SimulacroToDomain, d.simulacros),
               [])
  }

  function EstudianteToDomain(d: EstudianteDto): Estudiante
  {
    Estudiante(d.id, d.nombreCompleto, d.correo, d.fechaRegistro,
               d.departamento, d.municipio, d.grado,
               d.clasesICFES.Map((cs: seq<ClaseICFESDto>) => Lists.Map(ClaseToDomain, cs)))
  }

  // ---- Domain to DTO (app -> API) ----

  function ForoToDto(f: Foro): ForoDto
  {
    ForoDto(f.nombre, f.creador, f.fecha, f.id)
  }

  function SimulacroToDto(s: Simulacro): SimulacroDto
  {
    SimulacroDto(s.titulo, s.area, s.estado,
                 s.listaIdPreguntas, s.listaOpcionesCorrectas, s.listaOpcionesEscogidas, s.id)
  }

  function ClaseToDto(c: ClaseICFES): ClaseICFESDto
  {
    ClaseICFESDto(c.nombreClase, c.profesor,
                  Lists.Map(ForoToDto, c.foros),
                  Lists.Map(SimulacroToDto, c.simulacros),
                  c.id)
  }

  /** The app never sends a password hash, and always sends version 0. */
  function EstudianteToDto(e: Estudiante): (r: EstudianteDto)
    ensures r.contrasenaHash == "" && r.v == Some(0)
  {
    EstudianteDto(e.id, e.nombreCompleto, e.correo, "", e.fechaRegistro,
                  e.departamento, e.municipio, e.grado,
                  e.clasesICFES.Map((cs: seq<ClaseICFES>) => Lists.Map(ClaseToDto, cs)),
                  Some(0))
  }

  // ---- What a round trip keeps and loses ----

  /** A class with its participant list emptied: all a round trip through
      the wire can keep of it. */
  function ClearParticipantes(c: ClaseICFES): ClaseICFES
  {
    c.(participantes := [])
  }

  /** The student with every class's participant list emptied. */
  function WithoutParticipantes(e: Estudiante): Estudiante
  {
    e.(clasesICFES := e.clasesICFES.Map((cs: seq<ClaseICFES>) => Lists.Map(ClearParticipantes, cs)))
  }

  /** No class of the student has participants (or the class list is null). */
  predicate NoParticipantes(e: Estudiante)
  {
    e.clasesICFES.None? ||
    forall i :: 0 <= i < |e.clasesICFES.value| ==> e.clasesICFES.value[i].participantes == []
  }

  lemma ForoRoundTrip(f: Foro, d: ForoDto)
    ensures ForoToDomain(ForoToDto(f)) == f
    ensures ForoToDto(ForoToDomain(d)) == d
  {
  }

  lemma SimulacroRoundTrip(s: Simulacro, d: SimulacroDto)
    ensures SimulacroToDomain(SimulacroToDto(s)) == s
    ensures SimulacroToDto(SimulacroToDomain(d)) == d
  {
  }

  /** The nested lists of a class are converted element by element. */
  lemma ClaseToDomainElementwise(d: ClaseICFESDto)
    ensures |ClaseToDomain(d).foros| == |d.foros|
    ensures |ClaseToDomain(d).simulacros| == |d.simulacros|
    ensures forall i :: 0 <= i < |d.foros| ==> ClaseToDomain(d).foros[i] == ForoToDomain(d.foros[i])
    ensures forall i :: 0 <= i < |d.simulacros| ==>
              ClaseToDomain(d).simulacros[i] == SimulacroToDomain(d.simulacros[i])
  {
  }

  /** A wire class survives the trip to the domain and back unchanged. */
  lemma ClaseDtoRoundTrip(d: ClaseICFESDto)
    ensures ClaseToDto(ClaseToDomain(d)) == d
  {
    forall i | 0 <= i < |d.foros| {
      ForoRoundTrip(ForoToDomain(d.foros[i]), d.foros[i]);
    }
    Lists.MapLeftInverse(ForoToDomain, ForoToDto, d.foros);
    forall i | 0 <= i < |d.simulacros| {
      SimulacroRoundTrip(SimulacroToDomain(d.simulacros[i]), d.simulacros[i]);
    }
    Lists.MapLeftInverse(SimulacroToDomain, SimulacroToDto, d.simulacros);
  }

  /** A domain class comes back from the wire without its participants, so it
      comes back unchanged exactly when it had none. */
  lemma ClaseRoundTrip(c: ClaseICFES)
    ensures ClaseToDomain(ClaseToDto(c)) == ClearParticipantes(c)
    ensures ClaseToDomain(ClaseToDto(c)) == c <==> c.participantes == []
  {
    forall i | 0 <= i < |c.foros| {
      ForoRoundTrip(c.foros[i], ForoToDto(c.foros[i]));
    }
    Lists.MapLeftInverse(ForoToDto, ForoToDomain, c.foros);
    forall i | 0 <= i < |c.simulacros| {
      SimulacroRoundTrip(c.simulacros[i], SimulacroToDto(c.simulacros[i]));
    }
    Lists.MapLeftInverse(SimulacroToDto, SimulacroToDomain, c.simulacros);
  }

  /** A null class list stays null in both directions. */
  lemma NullClassesPreserved(e: Estudiante, d: EstudianteDto)
    ensures EstudianteToDto(e).clasesICFES.None? <==> e.clasesICFES.None?
    ensures EstudianteToDomain(d).clasesICFES.None? <==> d.clasesICFES.None?
  {
  }

  /** A wire student comes back with the hash blanked and the version set to
      0, and with everything else as it was. */
  lemma EstudianteDtoRoundTrip(d: EstudianteDto)
    ensures EstudianteToDto(EstudianteToDomain(d)) == d.(contrasenaHash := "", v := Some(0))
    ensures EstudianteToDto(EstudianteToDomain(d)) == d <==> d.contrasenaHash == "" && d.v == Some(0)
  {
    if d.clasesICFES.Some? {
      var cs := d.clasesICFES.value;
      forall i | 0 <= i < |cs| {
        ClaseDtoRoundTrip(cs[i]);
      }
      Lists.MapLeftInverse(ClaseToDomain, ClaseToDto, cs);
    }
  }

  /** A domain student comes back from the wire without any class's
      participants, so unchanged exactly when no class has any. */
  lemma EstudianteRoundTrip(e: Estudiante)
    ensures EstudianteToDomain(EstudianteToDto(e)) == WithoutParticipantes(e)
    ensures EstudianteToDomain(EstudianteToDto(e)) == e <==> NoParticipantes(e)
  {
    if e.clasesICFES.Some? {
      var cs := e.clasesICFES.value;
      forall i | 0 <= i < |cs| {
        ClaseRoundTrip(cs[i]);
      }
      var back := Lists.Map(ClaseToDomain, Lists.Map(ClaseToDto, cs));
      assert back == Lists.Map(ClearParticipantes, cs);
      if NoParticipantes(e) {
        assert back == cs;
      }
      if back == cs {
        forall i | 0 <= i < |cs|
          ensures cs[i].participantes == []
        {
          assert back[i] == ClearParticipantes(cs[i]);
        }
      }
    }
  }
}
