/** The project-tracking records (`proyectos/models.py`): system users with a
    role, projects with a six-valued state, threaded comments, attached
    documents and the project history, plus the derived status a project
    computes from its fields and the clock. */
module ProyectosModels {
  import opened Wrappers
  import opened Tiempo
  import opened Secuencias

  // ----- Usuario -----

  datatype Rol = Admin | Coordinador | Colaborador | Consultor

  datatype Area = Sennova | CentroFormacion | DireccionRegional | DireccionGeneral

  const AREAS: seq<Area> := [Sennova, CentroFormacion, DireccionRegional, DireccionGeneral]

  /** The code stored in an area column. */
  function CodigoArea(a: Area): string
  {
    match a
    case Sennova => "sennova"
    case CentroFormacion => "centro_formacion"
    case DireccionRegional => "direccion_regional"
    case DireccionGeneral => "direccion_general"
  }

  /** The area a submitted code selects, if it is one of the four. */
  function AreaDeCodigo(s: string): (r: Option<Area>)
    ensures r.Some? ==> CodigoArea(r.value) == s
  {
    if s == "sennova" then Some(Sennova)
    else if s == "centro_formacion" then Some(CentroFormacion)
    else if s == "direccion_regional" then Some(DireccionRegional)
    else if s == "direccion_general" then Some(DireccionGeneral)
    else None
  }

  /** Every area's code reads back as that area. */
  lemma AreasSonCuatro(a: Area)
    ensures a in AREAS
    ensures AreaDeCodigo(CodigoArea(a)) == Some(a)
  {
  }

  type UsuarioId = nat

  /** A user of the project system; two users are the same when their ids are. */
  datatype Usuario = Usuario(id: UsuarioId, rol: Rol, area: Area, telefono: Option<string>, activo: bool)

  // ----- Proyecto -----

  datatype Estado = Propuesto | EnRevision | Aprobado | EnEjecucion | Terminado | Cancelado

  /** `ESTADOS_CHOICES`, in its declared order. */
  const ESTADOS: seq<Estado> := [Propuesto, EnRevision, Aprobado, EnEjecucion, Terminado, Cancelado]

  /** The code stored in the `estado` column. */
  function CodigoEstado(e: Estado): string
  {
    match e
    case Propuesto => "propuesto"
    case EnRevision => "en_revision"
    case Aprobado => "aprobado"
    case EnEjecucion => "en_ejecucion"
    case Terminado => "terminado"
    case Cancelado => "cancelado"
  }

  /** The choice a submitted code selects, if it is one of the six. */
  function EstadoDeCodigo(s: string): (r: Option<Estado>)
    ensures r.Some? ==> CodigoEstado(r.value) == s
  {
    if s == "propuesto" then Some(Propuesto)
    else if s == "en_revision" then Some(EnRevision)
    else if s == "aprobado" then Some(Aprobado)
    else if s == "en_ejecucion" then Some(EnEjecucion)
    else if s == "terminado" then Some(Terminado)
    else if s == "cancelado" then Some(Cancelado)
    else None
  }

  /** The state field ranges over exactly six values, each with its own code,
      and every code reads back as the state it came from. */
  lemma EstadosSonSeis(e: Estado)
    ensures e in ESTADOS
    ensures |ESTADOS| == 6
    ensures forall i, j :: 0 <= i < j < |ESTADOS| ==> CodigoEstado(ESTADOS[i]) != CodigoEstado(ESTADOS[j])
    ensures EstadoDeCodigo(CodigoEstado(e)) == Some(e)
  {
  }

  /** The states in which a project is under way and can fall behind. */
  predicate EnCurso(e: Estado)
  {
    e == Aprobado || e == EnEjecucion
  }

  /** A project row. Money is held in cents (`decimal_places=2`); dates as
      days and timestamps as microseconds (module Tiempo). */
  datatype Proyecto = Proyecto(
    id: nat,
    titulo: string,
    descripcion: string,
    areaProponente: Area,
    responsable: UsuarioId,
    colaboradores: set<UsuarioId>,
    objetivosGenerales: string,
    objetivosEspecificos: string,
    alcance: string,
    limitaciones: string,
    presupuestoEstimado: int,
    cronogramaTentativo: string,
    recursosNecesarios: string,
    beneficiariosEsperados: string,
    indicadoresExito: string,
    estado: Estado,
    porcentajeCompletitud: int,
    fechaCreacion: FechaHora,
    fechaInicioEstimada: Option<Fecha>,
    fechaFinalizacionEstimada: Option<Fecha>,
    fechaFinalizacionReal: Option<Fecha>,
    activo: bool,
    version: int)

  /** The values a creation form supplies; everything else takes its default. */
  datatype DatosProyecto = DatosProyecto(
    titulo: string,
    descripcion: string,
    areaProponente: Area,
    responsable: UsuarioId,
    objetivosGenerales: string,
    objetivosEspecificos: string,
    alcance: string,
    limitaciones: string,
    presupuestoEstimado: int,
    cronogramaTentativo: string,
    recursosNecesarios: string,
    beneficiariosEsperados: string,
    indicadoresExito: string,
    fechaInicioEstimada: Option<Fecha>,
    fechaFinalizacionEstimada: Option<Fecha>)

  /** The row saved for a new project: the submitted values, the creation
      time, and the declared defaults (state `propuesto`, 0 % complete,
      active, version 1, no collaborators, no real end date). */
  function NuevoProyecto(id: nat, d: DatosProyecto, ahora: FechaHora): (p: Proyecto)
    ensures p.id == id && p.fechaCreacion == ahora
    ensures p.estado == Propuesto && p.porcentajeCompletitud == 0
    ensures p.activo && p.version == 1
    ensures p.colaboradores == {} && p.fechaFinalizacionReal == None
    ensures DatosDe(p) == d
  {
    Proyecto(id, d.titulo, d.descripcion, d.areaProponente, d.responsable, {},
      d.objetivosGenerales, d.objetivosEspecificos, d.alcance, d.limitaciones,
      d.presupuestoEstimado, d.cronogramaTentativo, d.recursosNecesarios,
      d.beneficiariosEsperados, d.indicadoresExito,
      Propuesto, 0, ahora, d.fechaInicioEstimada, d.fechaFinalizacionEstimada, None,
      true, 1)
  }

  /** The submitted values a project row holds. */
  function DatosDe(p: Proyecto): DatosProyecto
  {
    DatosProyecto(p.titulo, p.descripcion, p.areaProponente, p.responsable,
      p.objetivosGenerales, p.objetivosEspecificos, p.alcance, p.limitaciones,
      p.presupuestoEstimado, p.cronogramaTentativo, p.recursosNecesarios,
      p.beneficiariosEsperados, p.indicadoresExito,
      p.fechaInicioEstimada, p.fechaFinalizacionEstimada)
  }

  /** Whole days from `hoy` to the estimated end, never below zero; None when
      no end date is set. */
  function DiasRestantes(p: Proyecto, hoy: Fecha): (r: Option<int>)
    ensures r.None? <==> p.fechaFinalizacionEstimada.None?
    ensures r.Some? ==> r.value >= 0
    ensures r.Some? && hoy <= p.fechaFinalizacionEstimada.value ==> hoy + r.value == p.fechaFinalizacionEstimada.value
    ensures r.Some? && hoy >= p.fechaFinalizacionEstimada.value ==> r.value == 0
  {
    match p.fechaFinalizacionEstimada
    case Some(fin) =>
      var dias := fin - hoy;
      Some(if 0 < dias then dias else 0)
    case None => None
  }

  /** A project is behind schedule when it is under way and its estimated end
      date is strictly before `hoy`. */
  function IsAtrasado(p: Proyecto, hoy: Fecha): (r: bool)
    ensures r ==> EnCurso(p.estado) && p.fechaFinalizacionEstimada.Some?
    ensures r <==> p.fechaFinalizacionEstimada.Some? && EnCurso(p.estado) && p.fechaFinalizacionEstimada.value < hoy
  {
    if p.fechaFinalizacionEstimada.Some? && (p.estado == Aprobado || p.estado == EnEjecucion) then
      hoy > p.fechaFinalizacionEstimada.value
    else
      false
  }

  /** The state gate: a project that is proposed, in review, finished or
      cancelled is never behind schedule, however far past its end date. */
  lemma NoAtrasadoFueraDeCurso(p: Proyecto, hoy: Fecha)
    requires p.estado in {Propuesto, EnRevision, Terminado, Cancelado}
    ensures !IsAtrasado(p, hoy)
  {
  }

  /** On the estimated end date itself a project is not yet behind. */
  lemma NoAtrasadoEnFechaFin(p: Proyecto)
    requires p.fechaFinalizacionEstimada.Some?
    ensures !IsAtrasado(p, p.fechaFinalizacionEstimada.value)
  {
  }

  /** Once behind, a project stays behind as time passes, and it has no days
      left. */
  lemma AtrasadoPersiste(p: Proyecto, hoy: Fecha, despues: Fecha)
    requires IsAtrasado(p, hoy) && hoy <= despues
    ensures IsAtrasado(p, despues)
    ensures DiasRestantes(p, hoy) == Some(0)
  {
  }

  /** A project just created is never behind, whatever its dates. */
  lemma NuevoNoAtrasado(id: nat, d: DatosProyecto, ahora: FechaHora, hoy: Fecha)
    ensures !IsAtrasado(NuevoProyecto(id, d, ahora), hoy)
  {
  }

  /** The model's default ordering, newest first (`-fecha_creacion`). */
  predicate CreadoDespues(a: Proyecto, b: Proyecto)
  {
    a.fechaCreacion >= b.fechaCreacion
  }

  lemma CreadoDespuesOrdena()
    ensures TotalPreorder(CreadoDespues)
  {
  }

  // ----- Comentario -----

  datatype TipoComentario = ComentarioSimple | Sugerencia | Evaluacion | Aprobacion

  function CodigoTipoComentario(t: TipoComentario): string
  {
    match t
    case ComentarioSimple => "comentario"
    case Sugerencia => "sugerencia"
    case Evaluacion => "evaluacion"
    case Aprobacion => "aprobacion"
  }

  /** A comment row; `padre` is the comment it replies to. */
  datatype Comentario = Comentario(
    id: nat,
    proyecto: nat,
    autor: UsuarioId,
    texto: string,
    tipo: TipoComentario,
    calificacion: Option<int>,
    fechaCreacion: FechaHora,
    activo: bool,
    padre: Option<nat>)

  const VENTANA_EDICION: int := 30 * MICROSEGUNDOS_POR_MINUTO

  /** Only the author may edit a comment, and only while it is less than
      thirty minutes old. */
  function CanEdit(c: Comentario, usuario: UsuarioId, ahora: FechaHora): (r: bool)
    ensures r <==> c.autor == usuario && ahora - c.fechaCreacion < 30 * MICROSEGUNDOS_POR_MINUTO
  {
    var tiempoLimite := ahora - VENTANA_EDICION;
    c.autor == usuario && c.fechaCreacion > tiempoLimite
  }

  /** At exactly thirty minutes the window has closed, and once closed it
      stays closed; a microsecond earlier the author could still edit. */
  lemma VentanaEdicionCierra(c: Comentario, usuario: UsuarioId, ahora: FechaHora, despues: FechaHora)
    requires !CanEdit(c, usuario, ahora) && ahora <= despues
    ensures !CanEdit(c, usuario, despues)
    ensures CanEdit(c, c.autor, c.fechaCreacion + VENTANA_EDICION - 1)
    ensures !CanEdit(c, c.autor, c.fechaCreacion + VENTANA_EDICION)
  {
  }

  /** Oldest first (`order_by('fecha_creacion')`). */
  predicate ComentarioAnterior(a: Comentario, b: Comentario)
  {
    a.fechaCreacion <= b.fechaCreacion
  }

  /** Newest first, the comment model's default ordering. */
  predicate ComentarioPosterior(a: Comentario, b: Comentario)
  {
    a.fechaCreacion >= b.fechaCreacion
  }

  predicate EsRespuestaActiva(x: Comentario, c: Comentario)
  {
    x.padre == Some(c.id) && x.activo
  }

  /** The active replies to `c` among the stored comments, oldest first. */
  function GetRespuestas(comentarios: seq<Comentario>, c: Comentario): (r: seq<Comentario>)
    ensures forall x :: x in r <==> x in comentarios && x.padre == Some(c.id) && x.activo
    ensures forall x :: multiset(r)[x] == if EsRespuestaActiva(x, c) then multiset(comentarios)[x] else 0
    ensures forall i, j :: 0 <= i < j < |r| ==> r[i].fechaCreacion <= r[j].fechaCreacion
  {
    var respuestas := Filter(comentarios, x => EsRespuestaActiva(x, c));
    var r := Sort(respuestas, ComentarioAnterior);
    SortSorted(respuestas, ComentarioAnterior);
    SortMembers(respuestas, ComentarioAnterior);
    assert Sorted(r, ComentarioAnterior);
    r
  }

  // ----- Documento -----

  datatype TipoDocumento = Propuesta | Presupuesto | Cronograma | Informe | Entregable | Otro

  /** A document row; `tamano` is the uploaded file's size in bytes (the file
      itself lives in storage outside this model). */
  datatype Documento = Documento(
    id: nat,
    proyecto: nat,
    autor: UsuarioId,
    nombreArchivo: string,
    tamano: nat,
    tipo: TipoDocumento,
    descripcion: string,
    version: string,
    fechaSubida: FechaHora,
    activo: bool)

  // ----- HistorialProyecto -----

  /** One history row. The two state columns are blank (None) except on a
      state change. */
  datatype EntradaHistorial = EntradaHistorial(
    proyecto: nat,
    usuario: UsuarioId,
    accion: string,
    descripcion: string,
    estadoAnterior: Option<Estado>,
    estadoNuevo: Option<Estado>,
    fecha: FechaHora)
}
