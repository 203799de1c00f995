/** Conversions between the question records on the wire and in the domain. */
module PreguntaMapper {
  import opened Optional
  import opened Domain
  import opened Dto
  import Lists

  function OpcionToDomain(d: OpcionDto): Opcion
  {
    Opcion(d.id, d.letra, d.texto)
  }

  /** Note: the domain topic is filled from the wire area, not the wire topic. */
  function PreguntaToDomain(d: PreguntaDto): (r: Pregunta)
    ensures r.tema == d.area
  {
    Pregunta(d.id, d.area, d.area, d.enunciado,
             Lists.Map(OpcionToDomain, d.opciones),
             d.explicacionCorrecta, d.urlImagen)
  }

  function OpcionToDto(o: Opcion): OpcionDto
  {
    OpcionDto(o.letra, o.texto, o.id)
  }

  function PreguntaToDto(p: Pregunta): (r: PreguntaDto)
    ensures r.v == Some(0)
  {
    PreguntaDto(p.id, p.area, p.tema, p.enunciado,
                Lists.Map(OpcionToDto, p.opciones),
                p.explicacionCorrecta, p.urlImagen, Some(0))
  }

  lemma OpcionRoundTrip(o: Opcion, d: OpcionDto)
    ensures OpcionToDomain(OpcionToDto(o)) == o
    ensures OpcionToDto(OpcionToDomain(d)) == d
  {
  }

  /** The wire topic never reaches the domain question. */
  lemma TemaIgnored(d: PreguntaDto, tema: string)
    ensures PreguntaToDomain(d.(tema := tema)) == PreguntaToDomain(d)
  {
  }

  /** Options are converted element by element in both directions, and a
      null image URL stays null. */
  lemma OpcionesElementwise(d: PreguntaDto, p: Pregunta)
    ensures |PreguntaToDomain(d).opciones| == |d.opciones|
    ensures forall i :: 0 <= i < |d.opciones| ==>
              PreguntaToDomain(d).opciones[i] == OpcionToDomain(d.opciones[i])
    ensures |PreguntaToDto(p).opciones| == |p.opciones|
    ensures forall i :: 0 <= i < |p.opciones| ==>
              PreguntaToDto(p).opciones[i] == OpcionToDto(p.opciones[i])
    ensures PreguntaToDomain(d).urlImagen == d.urlImagen
    ensures PreguntaToDto(p).urlImagen == p.urlImagen
  {
  }

  /** A domain question comes back from the wire with its topic replaced by
      its area: unchanged exactly when the two already coincide. */
  lemma PreguntaRoundTrip(p: Pregunta)
    ensures PreguntaToDomain(PreguntaToDto(p)) == p.(tema := p.area)
    ensures PreguntaToDomain(PreguntaToDto(p)) == p <==> p.tema == p.area
  {
    forall i | 0 <= i < |p.opciones| {
      OpcionRoundTrip(p.opciones[i], OpcionToDto(p.opciones[i]));
    }
    Lists.MapLeftInverse(OpcionToDto, OpcionToDomain, p.opciones);
  }

  /** A wire question comes back with its topic replaced by its area and
      version 0. */
  lemma PreguntaDtoRoundTrip(d: PreguntaDto)
    ensures PreguntaToDto(PreguntaToDomain(d)) == d.(tema := d.area, v := Some(0))
  {
    forall i | 0 <= i < |d.opciones| {
      OpcionRoundTrip(OpcionToDomain(d.opciones[i]), d.opciones[i]);
    }
    Lists.MapLeftInverse(OpcionToDomain, OpcionToDto, d.opciones);
  }
}
