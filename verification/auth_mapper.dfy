/** The authentication slice's own copy of the DTO-to-domain conversions,
    used for the student returned by registration and login. */
module AuthMapper {
  import opened Domain
  import opened Dto
  import Lists
  import EstudianteMapper

  function ForoToDomain(d: ForoDto): Foro
  {
    Foro(d.id, d.nombre, d.creador, d.fecha)
  }

  function SimulacroToDomain(d: SimulacroDto): Simulacro
  {
    Simulacro(d.id, d.titulo, d.area, d.estado,
              d.listaIdPreguntas, d.listaOpcionesCorrectas, d.listaOpcionesEscogidas)
  }

  function ClaseToDomain(d: ClaseICFESDto): (r: ClaseICFES)
    ensures r.participantes == []
  {
    ClaseICFES(d.id, d.nombreClase, d.profesor,
               Lists.Map(ForoToDomain, d.foros),
               Lists.Map(SimulacroToDomain, d.simulacros),
               [])
  }

  function EstudianteToDomain(d: EstudianteDto): Estudiante
  {
    Estudiante(d.id, d.nombreCompleto, d.correo, d.fechaRegistro,
               d.departamento, d.municipio, d.grado,
               d.clasesICFES.Map((cs: seq<ClaseICFESDto>) => Lists.Map(ClaseToDomain, cs)))
  }

  /** Forums and mock exams are copied field by field. */
  lemma NestedRecordsCopied(f: ForoDto, s: SimulacroDto)
    ensures var r := ForoToDomain(f);
      r.id == f.id && r.nombre == f.nombre && r.creador == f.creador && r.fecha == f.fecha
    ensures var r := SimulacroToDomain(s);
      && r.id == s.id && r.titulo == s.titulo && r.area == s.area && r.estado == s.estado
      && r.listaIdPreguntas == s.listaIdPreguntas
      && r.listaOpcionesCorrectas == s.listaOpcionesCorrectas
      && r.listaOpcionesEscogidas == s.listaOpcionesEscogidas
  {
  }

  /** The nested lists of a class are converted element by element. */
  lemma ClaseToDomainElementwise(d: ClaseICFESDto)
    ensures |ClaseToDomain(d).foros| == |d.foros|
    ensures |ClaseToDomain(d).simulacros| == |d.simulacros|
    ensures forall i :: 0 <= i < |d.foros| ==> ClaseToDomain(d).foros[i] == ForoToDomain(d.foros[i])
    ensures forall i :: 0 <= i < |d.simulacros| ==>
              ClaseToDomain(d).simulacros[i] == SimulacroToDomain(d.simulacros[i])
  {
  }

  /** The password hash and the version never reach the domain student, and
      a null class list stays null. */
  lemma EstudianteIgnoresWireOnlyFields(d: EstudianteDto, hash: string, version: Optional.Option<int>)
    ensures EstudianteToDomain(d.(contrasenaHash := hash, v := version)) == EstudianteToDomain(d)
    ensures EstudianteToDomain(d).clasesICFES.None? <==> d.clasesICFES.None?
  {
  }

  /** The two copies of the conversion agree on every wire student. */
  lemma AgreesWithEstudianteMapper(d: EstudianteDto)
    ensures EstudianteToDomain(d) == EstudianteMapper.EstudianteToDomain(d)
  {
    if d.clasesICFES.Some? {
      var cs := d.clasesICFES.value;
      forall i | 0 <= i < |cs|
        ensures ClaseToDomain(cs[i]) == EstudianteMapper.ClaseToDomain(cs[i])
      {
        Lists.MapPointwise(ForoToDomain, EstudianteMapper.ForoToDomain, cs[i].foros);
        Lists.MapPointwise(SimulacroToDomain, EstudianteMapper.SimulacroToDomain, cs[i].simulacros);
      }
      Lists.MapPointwise(ClaseToDomain, EstudianteMapper.ClaseToDomain, cs);
    }
  }
}
