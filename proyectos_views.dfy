/** The project views (`proyectos/views.py`): the store of projects,
    comments, documents and the append-only history, the operations that
    change it, and the read-only queries behind the listing and the
    dashboard. The signed-in user arrives as `Option<Usuario>` (None when
    the account has no system user, which the views answer with a 404) and
    the clock as a parameter. */
module ProyectosViews {
  import opened Wrappers
  import opened Tiempo
  import opened Secuencias
  import opened Formularios
  import opened ProyectosModels
  import opened ProyectosForms

  /** How a request ends: the affected row's id, a 404, a permission
      refusal, or the form's errors. */
  datatype Resultado =
    | Hecho(id: nat)
    | NoEncontrado
    | SinPermiso
    | Invalido(errores: seq<ErrorFormulario>)

  // ----- permissions -----

  /** Editing is open to the project's responsible user and to admins and
      coordinators. */
  predicate PuedeEditar(p: Proyecto, u: Usuario)
  {
    p.responsable == u.id || u.rol == Admin || u.rol == Coordinador
  }

  /** Deleting is open to admins and coordinators only. */
  predicate PuedeEliminar(u: Usuario)
  {
    u.rol == Admin || u.rol == Coordinador
  }

  lemma EliminarImplicaEditar(p: Proyecto, u: Usuario)
    ensures PuedeEliminar(u) ==> PuedeEditar(p, u)
    ensures PuedeEditar(p, u) && !PuedeEliminar(u) ==> p.responsable == u.id
  {
  }

  // ----- history entries -----

  /** `", ".join(nombres)`. */
  function Unir(nombres: seq<string>, sep: string): string
  {
    if nombres == [] then ""
    else if |nombres| == 1 then nombres[0]
    else nombres[0] + sep + Unir(nombres[1..], sep)
  }

  function NombresCampos(cs: seq<Campo>): (r: seq<string>)
    ensures |r| == |cs|
    ensures forall i :: 0 <= i < |cs| ==> r[i] == Nombre(cs[i])
  {
    if cs == [] then [] else [Nombre(cs[0])] + NombresCampos(cs[1..])
  }

  function EntradaCreado(p: Proyecto, usuario: UsuarioId, ahora: FechaHora): EntradaHistorial
  {
    EntradaHistorial(p.id, usuario, "Proyecto creado",
      "Proyecto \"" + p.titulo + "\" creado en estado propuesto", None, None, ahora)
  }

  function EntradaEliminado(p: Proyecto, usuario: UsuarioId, ahora: FechaHora): EntradaHistorial
  {
    EntradaHistorial(p.id, usuario, "Proyecto eliminado",
      "Proyecto \"" + p.titulo + "\" eliminado lógicamente", None, None, ahora)
  }

  function EntradaComentario(proyecto: nat, usuario: UsuarioId, tipo: TipoComentario, ahora: FechaHora): EntradaHistorial
  {
    EntradaHistorial(proyecto, usuario, "Comentario agregado",
      "Nuevo comentario: " + CodigoTipoComentario(tipo), None, None, ahora)
  }

  function EntradaDocumento(proyecto: nat, usuario: UsuarioId, nombre: string, ahora: FechaHora): EntradaHistorial
  {
    EntradaHistorial(proyecto, usuario, "Documento subido",
      "Nuevo documento: " + nombre, None, None, ahora)
  }

  function EntradaEstado(proyecto: nat, usuario: UsuarioId, anterior: Estado, nuevo: Estado, ahora: FechaHora): EntradaHistorial
  {
    EntradaHistorial(proyecto, usuario, "Estado actualizado",
      "Estado cambiado de " + CodigoEstado(anterior) + " a " + CodigoEstado(nuevo),
      Some(anterior), Some(nuevo), ahora)
  }

  function EntradaActualizado(proyecto: nat, usuario: UsuarioId, cambios: seq<Campo>, ahora: FechaHora): EntradaHistorial
  {
    EntradaHistorial(proyecto, usuario, "Proyecto actualizado",
      "Campos modificados: " + Unir(NombresCampos(cambios), ", "), None, None, ahora)
  }

  /** The entries an edit of `p` into `q` appends: a state entry first when
      the state is among the changed fields, then one entry naming every
      changed field when there is any. The state entry records the state
      the project had before the edit. */
  function EntradasEdicion(p: Proyecto, q: Proyecto, usuario: UsuarioId, cambios: seq<Campo>, ahora: FechaHora): (r: seq<EntradaHistorial>)
    ensures forall x :: x in r ==> x.proyecto == p.id && x.usuario == usuario
    ensures cambios == [] ==> r == []
    ensures cambios != [] && CampoEstado !in cambios ==> r == [EntradaActualizado(p.id, usuario, cambios, ahora)]
    ensures CampoEstado in cambios ==>
      r == [EntradaEstado(p.id, usuario, p.estado, q.estado, ahora), EntradaActualizado(p.id, usuario, cambios, ahora)]
  {
    (if CampoEstado in cambios then [EntradaEstado(p.id, usuario, p.estado, q.estado, ahora)] else [])
    + (if cambios != [] then [EntradaActualizado(p.id, usuario, cambios, ahora)] else [])
  }

  /** The same entries as the view writes them: it reads the "previous"
      state after the form has validated, and validation has already
      copied the submitted values into the project instance, so both state
      columns hold the new state. */
  function EntradasEdicionComoEscrito(p: Proyecto, q: Proyecto, usuario: UsuarioId, cambios: seq<Campo>, ahora: FechaHora): (r: seq<EntradaHistorial>)
    ensures CampoEstado !in cambios ==> r == EntradasEdicion(p, q, usuario, cambios, ahora)
    ensures CampoEstado in cambios ==>
      && |r| == 2 && r[0] == EntradaEstado(p.id, usuario, q.estado, q.estado, ahora)
      && r[1] == EntradasEdicion(p, q, usuario, cambios, ahora)[1]
  {
    var estadoAnterior := q.estado;
    (if CampoEstado in cambios then [EntradaEstado(p.id, usuario, estadoAnterior, q.estado, ahora)] else [])
    + (if cambios != [] then [EntradaActualizado(p.id, usuario, cambios, ahora)] else [])
  }

  /** On a state change the view as written logs the new state as the old
      one, so the entry no longer shows where the project came from; the
      corrected entries do. */
  lemma EstadoAnteriorPerdido(p: Proyecto, ed: Edicion, usuario: UsuarioId, ahora: FechaHora)
    requires ed.estado != p.estado
    ensures var q := AplicarEdicion(p, ed);
      var cambios := CamposCambiados(p, ed);
      var escrito := EntradasEdicionComoEscrito(p, q, usuario, cambios, ahora);
      var corregido := EntradasEdicion(p, q, usuario, cambios, ahora);
      && |escrito| == 2 && escrito[0].estadoAnterior == Some(ed.estado) && escrito[0].estadoAnterior != Some(p.estado)
      && |corregido| == 2 && corregido[0].estadoAnterior == Some(p.estado) && corregido[0].estadoNuevo == Some(ed.estado)
  {
    CambiadoSiCambia(p, ed, CampoEstado);
  }

  /** The project an edit saves: the edited values written over the
      stored ones, and the version one higher when `changed_data` is not
      empty. */
  function Editado(p: Proyecto, ed: Edicion): (q: Proyecto)
    ensures q.id == p.id && q.estado == ed.estado
    ensures q.version == if CamposCambiados(p, ed) != [] then p.version + 1 else p.version
    ensures q.(version := p.version) == AplicarEdicion(p, ed)
  {
    var q := AplicarEdicion(p, ed);
    if CamposCambiados(p, ed) != [] then q.(version := p.version + 1) else q
  }

  /** The version goes up, by exactly one, precisely when the edit alters
      the project; an edit that alters nothing saves the project unchanged. */
  lemma VersionSubeSiCambia(p: Proyecto, ed: Edicion)
    ensures Editado(p, ed).version == p.version + 1 <==> AplicarEdicion(p, ed) != p
    ensures Editado(p, ed).version == p.version <==> AplicarEdicion(p, ed) == p
    ensures AplicarEdicion(p, ed) == p ==> Editado(p, ed) == p
  {
    SinCambiosSiIgual(p, ed);
  }

  // ----- listing -----

  /** The cleaned values of the listing's filter form; empty text and None
      stand for a filter left blank. */
  datatype Filtro = Filtro(
    buscar: string,
    estado: Option<Estado>,
    area: Option<Area>,
    responsable: Option<UsuarioId>,
    fechaDesde: Option<Fecha>,
    fechaHasta: Option<Fecha>)

  /** What the filter form receives: the two choices as their submitted
      codes ("" for "all"), the dates already parsed. */
  datatype FiltroEntrada = FiltroEntrada(
    buscar: string,
    estado: string,
    area: string,
    responsable: Option<UsuarioId>,
    fechaDesde: Option<Fecha>,
    fechaHasta: Option<Fecha>)

  /** `ProyectoFiltroForm.is_valid()` and its cleaned data; None when the
      form is invalid. Every field is optional; a choice must be one of the
      listed codes or blank, and a responsible user one of the active
      users. */
  function ValidarFiltro(e: FiltroEntrada, activos: set<UsuarioId>): (r: Option<Filtro>)
    ensures r.Some? <==>
      && (e.estado == "" || EstadoDeCodigo(e.estado).Some?)
      && (e.area == "" || AreaDeCodigo(e.area).Some?)
      && (e.responsable.Some? ==> e.responsable.value in activos)
    ensures r.Some? ==>
      && r.value.buscar == e.buscar
      && (r.value.estado.None? <==> e.estado == "")
      && (r.value.estado.Some? ==> CodigoEstado(r.value.estado.value) == e.estado)
      && (r.value.area.None? <==> e.area == "")
      && (r.value.area.Some? ==> CodigoArea(r.value.area.value) == e.area)
      && r.value.responsable == e.responsable
      && r.value.fechaDesde == e.fechaDesde && r.value.fechaHasta == e.fechaHasta
  {
    var estado := if e.estado == "" then Some(None) else
      match EstadoDeCodigo(e.estado) case None => None case Some(x) => Some(Some(x));
    var area := if e.area == "" then Some(None) else
      match AreaDeCodigo(e.area) case None => None case Some(x) => Some(Some(x));
    var responsableValido := e.responsable.None? || e.responsable.value in activos;
    if estado.Some? && area.Some? && responsableValido then
      Some(Filtro(e.buscar, estado.value, area.value, e.responsable, e.fechaDesde, e.fechaHasta))
    else
      None
  }

  predicate CoincideBusqueda(p: Proyecto, q: string)
  {
    q == "" || IContains(p.titulo, q) || IContains(p.descripcion, q) || IContains(p.objetivosGenerales, q)
  }

  /** `fecha_creacion__lte=fecha_hasta` as the view writes it: the date
      becomes midnight at its start. */
  predicate HastaComoEscrito(p: Proyecto, hasta: Fecha)
  {
    p.fechaCreacion <= Medianoche(hasta)
  }

  /** The intended upper bound: created on or before that day. */
  predicate Hasta(p: Proyecto, hasta: Fecha)
  {
    FechaDe(p.fechaCreacion) <= hasta
  }

  /** A project created at noon on the "to" day is dropped by the filter as
      written, although it was created on that day. */
  lemma HastaExcluyeElMismoDia(p: Proyecto, hasta: Fecha)
    requires p.fechaCreacion == Medianoche(hasta) + 12 * 60 * MICROSEGUNDOS_POR_MINUTO
    ensures !HastaComoEscrito(p, hasta)
    ensures Hasta(p, hasta)
    ensures FechaDe(p.fechaCreacion) == hasta
  {
    DesdeMedianoche(p.fechaCreacion, hasta);
    DesdeMedianoche(p.fechaCreacion, hasta + 1);
  }

  /** The corrected bound keeps exactly the projects created up to the end of
      that day. */
  lemma HastaIncluyeElDia(p: Proyecto, hasta: Fecha)
    ensures Hasta(p, hasta) <==> p.fechaCreacion < Medianoche(hasta + 1)
  {
    DesdeMedianoche(p.fechaCreacion, hasta + 1);
  }

  /** Every filter the form supplies except the "to" date. `fecha_desde`
      compares with midnight at the start of its day, which already means
      "created on or after that day". */
  predicate CumpleSalvoHasta(p: Proyecto, f: Filtro)
  {
    && CoincideBusqueda(p, f.buscar)
    && (f.estado.Some? ==> p.estado == f.estado.value)
    && (f.area.Some? ==> p.areaProponente == f.area.value)
    && (f.responsable.Some? ==> p.responsable == f.responsable.value)
    && (f.fechaDesde.Some? ==> p.fechaCreacion >= Medianoche(f.fechaDesde.value))
  }

  /** The filters as the view applies them, the "to" date against midnight. */
  predicate CumpleFiltro(p: Proyecto, f: Filtro)
  {
    CumpleSalvoHasta(p, f) && (f.fechaHasta.Some? ==> HastaComoEscrito(p, f.fechaHasta.value))
  }

  /** The filters with the corrected "to" date. */
  predicate CumpleFiltroCorregido(p: Proyecto, f: Filtro)
  {
    CumpleSalvoHasta(p, f) && (f.fechaHasta.Some? ==> Hasta(p, f.fechaHasta.value))
  }

  /** The bound as written is stricter than the corrected one. */
  lemma HastaComoEscritoImplicaHasta(p: Proyecto, hasta: Fecha)
    ensures HastaComoEscrito(p, hasta) ==> Hasta(p, hasta)
  {
    MedianocheMonotona(hasta, hasta + 1);
    DesdeMedianoche(p.fechaCreacion, hasta + 1);
  }

  predicate EsActivo(p: Proyecto)
  {
    p.activo
  }

  /** Active projects, newest first. */
  function Recientes(ps: seq<Proyecto>): (r: seq<Proyecto>)
    ensures forall x :: x in r <==> x in ps && x.activo
    ensures forall x :: multiset(r)[x] == if x.activo then multiset(ps)[x] else 0
    ensures forall i, j :: 0 <= i < j < |r| ==> r[i].fechaCreacion >= r[j].fechaCreacion
  {
    var activos := Filter(ps, EsActivo);
    var r := Sort(activos, CreadoDespues);
    CreadoDespuesOrdena();
    SortSorted(activos, CreadoDespues);
    SortMembers(activos, CreadoDespues);
    assert Sorted(r, CreadoDespues);
    r
  }

  /** `lista_proyectos` before pagination, as written. `f` is None when the
      filter form does not validate, in which case no filter applies. */
  function ListaProyectos(ps: seq<Proyecto>, f: Option<Filtro>): (r: seq<Proyecto>)
    ensures forall x :: x in r <==> x in ps && x.activo && (f.Some? ==> CumpleFiltro(x, f.value))
    ensures forall i, j :: 0 <= i < j < |r| ==> r[i].fechaCreacion >= r[j].fechaCreacion
    ensures f.None? ==> r == Recientes(ps)
  {
    var candidatos := match f
      case None => ps
      case Some(fi) => Filter(ps, x => CumpleFiltro(x, fi));
    Recientes(candidatos)
  }

  /** The listing with the corrected "to" bound. */
  function ListaProyectosCorregida(ps: seq<Proyecto>, f: Option<Filtro>): (r: seq<Proyecto>)
    ensures forall x :: x in r <==> x in ps && x.activo && (f.Some? ==> CumpleFiltroCorregido(x, f.value))
    ensures forall i, j :: 0 <= i < j < |r| ==> r[i].fechaCreacion >= r[j].fechaCreacion
    ensures f.None? ==> r == Recientes(ps)
  {
    var candidatos := match f
      case None => ps
      case Some(fi) => Filter(ps, x => CumpleFiltroCorregido(x, fi));
    Recientes(candidatos)
  }

  /** The listing as written shows a subset of the corrected one. */
  lemma ListaComoEscritaIncluida(ps: seq<Proyecto>, f: Filtro)
    ensures forall x :: x in ListaProyectos(ps, Some(f)) ==> x in ListaProyectosCorregida(ps, Some(f))
  {
    forall x | x in ListaProyectos(ps, Some(f)) ensures x in ListaProyectosCorregida(ps, Some(f)) {
      if f.fechaHasta.Some? {
        HastaComoEscritoImplicaHasta(x, f.fechaHasta.value);
      }
    }
  }

  /** A project that meets every other filter and was created at noon on the
      "to" day is shown only by the corrected listing. */
  lemma ListaComoEscritaOmite(ps: seq<Proyecto>, f: Filtro, p: Proyecto)
    requires p in ps && p.activo && CumpleSalvoHasta(p, f) && f.fechaHasta.Some?
    requires p.fechaCreacion == Medianoche(f.fechaHasta.value) + 12 * 60 * MICROSEGUNDOS_POR_MINUTO
    ensures p !in ListaProyectos(ps, Some(f))
    ensures p in ListaProyectosCorregida(ps, Some(f))
  {
    HastaExcluyeElMismoDia(p, f.fechaHasta.value);
  }

  /** A submission the filter form rejects (an unknown state or area code, or
      an inactive responsible user) drops every filter: the page lists every
      active project, newest first. */
  lemma FiltroInvalidoListaTodo(ps: seq<Proyecto>, e: FiltroEntrada, activos: set<UsuarioId>)
    requires (e.estado != "" && EstadoDeCodigo(e.estado).None?)
      || (e.area != "" && AreaDeCodigo(e.area).None?)
      || (e.responsable.Some? && e.responsable.value !in activos)
    ensures ListaProyectos(ps, ValidarFiltro(e, activos)) == Recientes(ps)
    ensures forall x :: x in ListaProyectos(ps, ValidarFiltro(e, activos)) <==> x in ps && x.activo
  {
  }

  /** The desde filter written against midnight agrees with comparing days. */
  lemma DesdeEsPorDia(p: Proyecto, desde: Fecha)
    ensures p.fechaCreacion >= Medianoche(desde) <==> FechaDe(p.fechaCreacion) >= desde
  {
    DesdeMedianoche(p.fechaCreacion, desde);
  }

  /** An empty filter form lists every active project. */
  lemma FiltroVacio(ps: seq<Proyecto>)
    ensures var r := ListaProyectos(ps, Some(Filtro("", None, None, None, None, None)));
      forall x :: x in r <==> x in ps && x.activo
  {
  }

  predicate EsResponsable(p: Proyecto, u: UsuarioId)
  {
    p.responsable == u
  }

  predicate EsColaborador(p: Proyecto, u: UsuarioId)
  {
    u in p.colaboradores
  }

  /** `mis_proyectos`: the active projects the user is responsible for and
      those they collaborate on, each newest first. */
  function MisProyectos(ps: seq<Proyecto>, u: UsuarioId): (r: (seq<Proyecto>, seq<Proyecto>))
    ensures forall x :: x in r.0 <==> x in ps && x.activo && x.responsable == u
    ensures forall x :: x in r.1 <==> x in ps && x.activo && u in x.colaboradores
    ensures forall i, j :: 0 <= i < j < |r.0| ==> r.0[i].fechaCreacion >= r.0[j].fechaCreacion
    ensures forall i, j :: 0 <= i < j < |r.1| ==> r.1[i].fechaCreacion >= r.1[j].fechaCreacion
  {
    (Recientes(Filter(ps, x => EsResponsable(x, u))), Recientes(Filter(ps, x => EsColaborador(x, u))))
  }

  // ----- dashboard counts -----

  /** `Proyecto.objects.filter(activo=True).count()`. */
  function ContarActivos(ps: seq<Proyecto>): (n: nat)
    ensures n <= |ps|
  {
    if ps == [] then 0 else (if ps[0].activo then 1 else 0) + ContarActivos(ps[1..])
  }

  /** The active count is the length of the active filter. */
  lemma {:induction false} ContarActivosFiltra(ps: seq<Proyecto>)
    ensures ContarActivos(ps) == |Filter(ps, EsActivo)|
  {
    if ps != [] {
      ContarActivosFiltra(ps[1..]);
      var cabeza := if EsActivo(ps[0]) then [ps[0]] else [];
      assert Filter(ps, EsActivo) == cabeza + Filter(ps[1..], EsActivo);
    }
  }

  /** The dashboard's total is the length of the newest-first listing of
      active projects it shows beside it. */
  lemma ContarActivosEsRecientes(ps: seq<Proyecto>)
    ensures ContarActivos(ps) == |Recientes(ps)|
  {
    ContarActivosFiltra(ps);
    var activos := Filter(ps, EsActivo);
    assert Recientes(ps) == Sort(activos, CreadoDespues);
  }

  /** Active projects in state `e`. */
  function ContarEstado(ps: seq<Proyecto>, e: Estado): (n: nat)
    ensures n <= ContarActivos(ps)
  {
    if ps == [] then 0
    else (if ps[0].activo && ps[0].estado == e then 1 else 0) + ContarEstado(ps[1..], e)
  }

  /** Active projects proposed by area `a`. */
  function ContarArea(ps: seq<Proyecto>, a: Area): (n: nat)
    ensures n <= ContarActivos(ps)
  {
    if ps == [] then 0
    else (if ps[0].activo && ps[0].areaProponente == a then 1 else 0) + ContarArea(ps[1..], a)
  }

  /** Active projects approved or in execution. */
  function ContarEnCurso(ps: seq<Proyecto>): (n: nat)
    ensures n <= ContarActivos(ps)
  {
    if ps == [] then 0
    else (if ps[0].activo && EnCurso(ps[0].estado) then 1 else 0) + ContarEnCurso(ps[1..])
  }

  /** The per-state counts add up to the total: every active project is in
      exactly one of the six states. */
  lemma {:induction false} SumaPorEstado(ps: seq<Proyecto>)
    ensures ContarEstado(ps, Propuesto) + ContarEstado(ps, EnRevision) + ContarEstado(ps, Aprobado)
      + ContarEstado(ps, EnEjecucion) + ContarEstado(ps, Terminado) + ContarEstado(ps, Cancelado)
      == ContarActivos(ps)
  {
    if ps != [] {
      SumaPorEstado(ps[1..]);
    }
  }

  /** The per-area counts add up to the total. */
  lemma {:induction false} SumaPorArea(ps: seq<Proyecto>)
    ensures ContarArea(ps, Sennova) + ContarArea(ps, CentroFormacion)
      + ContarArea(ps, DireccionRegional) + ContarArea(ps, DireccionGeneral)
      == ContarActivos(ps)
  {
    if ps != [] {
      SumaPorArea(ps[1..]);
    }
  }

  /** The projects in course are the approved ones and the ones in
      execution. */
  lemma {:induction false} EnCursoPorEstado(ps: seq<Proyecto>)
    ensures ContarEnCurso(ps) == ContarEstado(ps, Aprobado) + ContarEstado(ps, EnEjecucion)
  {
    if ps != [] {
      EnCursoPorEstado(ps[1..]);
    }
  }

  /** The filter of the dashboard's overdue query: active, approved or in
      execution, and an estimated end date before today. */
  predicate EsAtrasadoActivo(p: Proyecto, hoy: Fecha)
  {
    p.activo && EnCurso(p.estado) && p.fechaFinalizacionEstimada.Some? && p.fechaFinalizacionEstimada.value < hoy
  }

  /** The overdue projects of `ps`, in the order of `ps`. Defined from the
      last element so that a forward loop can build it. */
  function Atrasados(ps: seq<Proyecto>, hoy: Fecha): (r: seq<Proyecto>)
    ensures |r| <= |ps|
  {
    if ps == [] then []
    else
      var ultimo := ps[|ps| - 1];
      Atrasados(ps[..|ps| - 1], hoy) + (if EsAtrasadoActivo(ultimo, hoy) then [ultimo] else [])
  }

  /** The overdue list holds exactly the stored projects that are active
      and overdue by `IsAtrasado`. */
  lemma {:induction false} AtrasadosSon(ps: seq<Proyecto>, hoy: Fecha)
    ensures forall x :: x in Atrasados(ps, hoy) <==> x in ps && x.activo && IsAtrasado(x, hoy)
  {
    if ps != [] {
      AtrasadosSon(ps[..|ps| - 1], hoy);
      assert ps == ps[..|ps| - 1] + [ps[|ps| - 1]];
    }
  }

  /** Newest first: no project comes before one created later. */
  predicate NuevosPrimero(s: seq<Proyecto>)
  {
    forall i, j :: 0 <= i < j < |s| ==> s[i].fechaCreacion >= s[j].fechaCreacion
  }

  /** Keeping the overdue projects keeps the order of the sequence. */
  lemma {:induction false} AtrasadosConservaOrden(ps: seq<Proyecto>, hoy: Fecha)
    requires NuevosPrimero(ps)
    ensures NuevosPrimero(Atrasados(ps, hoy))
  {
    if ps != [] {
      var inicio := ps[..|ps| - 1];
      var ultimo := ps[|ps| - 1];
      assert NuevosPrimero(inicio) by {
        forall i, j | 0 <= i < j < |inicio| ensures inicio[i].fechaCreacion >= inicio[j].fechaCreacion {
          assert inicio[i] == ps[i] && inicio[j] == ps[j];
        }
      }
      AtrasadosConservaOrden(inicio, hoy);
      AtrasadosSon(inicio, hoy);
      var a := Atrasados(inicio, hoy);
      forall k | 0 <= k < |a| ensures a[k].fechaCreacion >= ultimo.fechaCreacion {
        assert a[k] in inicio;
        var m :| 0 <= m < |inicio| && inicio[m] == a[k];
        assert ps[m] == a[k];
      }
      var cola := if EsAtrasadoActivo(ultimo, hoy) then [ultimo] else [];
      var r := a + cola;
      assert Atrasados(ps, hoy) == r;
      forall i, j | 0 <= i < j < |r| ensures r[i].fechaCreacion >= r[j].fechaCreacion {
        if j < |a| {
          assert r[i] == a[i] && r[j] == a[j];
        } else {
          assert r[j] == ultimo && r[i] == a[i];
        }
      }
    }
  }

  /** The dashboard's overdue query: no `order_by`, so the model's default
      ordering applies and it is newest first. */
  function ConsultaAtrasados(ps: seq<Proyecto>, hoy: Fecha): seq<Proyecto>
  {
    Atrasados(Recientes(ps), hoy)
  }

  /** The overdue query holds exactly the active projects `is_atrasado`
      flags, newest first. */
  lemma ConsultaAtrasadosSon(ps: seq<Proyecto>, hoy: Fecha)
    ensures forall x :: x in ConsultaAtrasados(ps, hoy) <==> x in ps && x.activo && IsAtrasado(x, hoy)
    ensures NuevosPrimero(ConsultaAtrasados(ps, hoy))
  {
    var orden := Recientes(ps);
    AtrasadosSon(orden, hoy);
    AtrasadosConservaOrden(orden, hoy);
  }

  /** What the dashboard shows. */
  datatype Tablero = Tablero(
    total: nat,
    enCurso: nat,
    porEstado: map<Estado, nat>,
    porArea: map<Area, nat>,
    mios: nat,
    colaboro: nat,
    recientes: seq<Proyecto>,
    atrasados: seq<Proyecto>)

  // ----- the store -----

  /** The project store. Row ids are positions in their sequence; nothing
      is ever removed, and history is only appended to. */
  class GestorProyectos {
    var proyectos: seq<Proyecto>
    var comentarios: seq<Comentario>
    var documentos: seq<Documento>
    var historial: seq<EntradaHistorial>

    ghost predicate Valid()
      reads this
    {
      && (forall i :: 0 <= i < |proyectos| ==> proyectos[i].id == i && proyectos[i].version >= 1)
      && (forall i :: 0 <= i < |comentarios| ==>
            comentarios[i].id == i && comentarios[i].proyecto < |proyectos|
            && (comentarios[i].padre.Some? ==> comentarios[i].padre.value < i))
      && (forall i :: 0 <= i < |documentos| ==> documentos[i].id == i && documentos[i].proyecto < |proyectos|)
      && (forall x :: x in historial ==> x.proyecto < |proyectos|)
    }

    constructor()
      ensures Valid()
      ensures proyectos == [] && comentarios == [] && documentos == [] && historial == []
    {
      proyectos := [];
      comentarios := [];
      documentos := [];
      historial := [];
    }

    /** The active project with id `id`, as `get_object_or_404(Proyecto,
        pk=id, activo=True)` finds it. */
    predicate Existe(id: nat)
      reads this
    {
      id < |proyectos| && proyectos[id].activo
    }

    /** `crear_proyecto` on a POST. */
    method CrearProyecto(u: Option<Usuario>, e: ProyectoEntrada, activos: set<UsuarioId>, ahora: FechaHora)
      returns (r: Resultado)
      requires Valid()
      modifies this
      ensures Valid()
      ensures comentarios == old(comentarios) && documentos == old(documentos)
      ensures u.None? ==> r == NoEncontrado && proyectos == old(proyectos) && historial == old(historial)
      ensures u.Some? && ValidarProyecto(e, activos).Err? ==>
        r == Invalido(ValidarProyecto(e, activos).error) && proyectos == old(proyectos) && historial == old(historial)
      ensures u.Some? && ValidarProyecto(e, activos).Ok? ==>
        var p := NuevoProyecto(|old(proyectos)|, ValidarProyecto(e, activos).value, ahora);
        && r == Hecho(p.id)
        && proyectos == old(proyectos) + [p]
        && historial == old(historial) + [EntradaCreado(p, u.value.id, ahora)]
    {
      if u.None? {
        return NoEncontrado;
      }
      var v := ValidarProyecto(e, activos);
      if v.Err? {
        return Invalido(v.error);
      }
      var p := NuevoProyecto(|proyectos|, v.value, ahora);
      proyectos := proyectos + [p];
      historial := historial + [EntradaCreado(p, u.value.id, ahora)];
      r := Hecho(p.id);
    }

    /** `editar_proyecto` on a POST: 404 for a missing or deleted project or
        an unknown user, a refusal for anyone who may not edit, the form's
        errors for an invalid form (nothing is saved), otherwise the edited
        values are saved, the version goes up by one when anything changed,
        and the history gains its entries. */
    method EditarProyecto(u: Option<Usuario>, id: nat, e: EdicionEntrada, ahora: FechaHora)
      returns (r: Resultado)
      requires Valid()
      modifies this
      ensures Valid()
      ensures comentarios == old(comentarios) && documentos == old(documentos)
      ensures !old(Existe(id)) || u.None? ==>
        r == NoEncontrado && proyectos == old(proyectos) && historial == old(historial)
      ensures old(Existe(id)) && u.Some? && !PuedeEditar(old(proyectos[id]), u.value) ==>
        r == SinPermiso && proyectos == old(proyectos) && historial == old(historial)
      ensures old(Existe(id)) && u.Some? && PuedeEditar(old(proyectos[id]), u.value) && ValidarEdicion(e).Err? ==>
        r == Invalido(ValidarEdicion(e).error) && proyectos == old(proyectos) && historial == old(historial)
      ensures old(Existe(id)) && u.Some? && PuedeEditar(old(proyectos[id]), u.value) && ValidarEdicion(e).Ok? ==>
        var p := old(proyectos[id]);
        var ed := ValidarEdicion(e).value;
        && r == Hecho(id)
        && proyectos == old(proyectos)[id := Editado(p, ed)]
        && historial == old(historial) + EntradasEdicion(p, Editado(p, ed), u.value.id, CamposCambiados(p, ed), ahora)
    {
      if !Existe(id) || u.None? {
        return NoEncontrado;
      }
      var p := proyectos[id];
      if !PuedeEditar(p, u.value) {
        return SinPermiso;
      }
      var v := ValidarEdicion(e);
      if v.Err? {
        return Invalido(v.error);
      }
      var q := Editado(p, v.value);
      proyectos := proyectos[id := q];
      historial := historial + EntradasEdicion(p, q, u.value.id, CamposCambiados(p, v.value), ahora);
      r := Hecho(id);
    }

    /** `eliminar_proyecto` on a POST: a soft delete by an admin or
        coordinator, logged once. */
    method EliminarProyecto(u: Option<Usuario>, id: nat, ahora: FechaHora) returns (r: Resultado)
      requires Valid()
      modifies this
      ensures Valid()
      ensures comentarios == old(comentarios) && documentos == old(documentos)
      ensures !old(Existe(id)) || u.None? ==>
        r == NoEncontrado && proyectos == old(proyectos) && historial == old(historial)
      ensures old(Existe(id)) && u.Some? && !PuedeEliminar(u.value) ==>
        r == SinPermiso && proyectos == old(proyectos) && historial == old(historial)
      ensures old(Existe(id)) && u.Some? && PuedeEliminar(u.value) ==>
        var p := old(proyectos[id]);
        && r == Hecho(id)
        && proyectos == old(proyectos)[id := p.(activo := false)]
        && historial == old(historial) + [EntradaEliminado(p, u.value.id, ahora)]
    {
      if !Existe(id) || u.None? {
        return NoEncontrado;
      }
      if !PuedeEliminar(u.value) {
        return SinPermiso;
      }
      var p := proyectos[id];
      proyectos := proyectos[id := p.(activo := false)];
      historial := historial + [EntradaEliminado(p, u.value.id, ahora)];
      r := Hecho(id);
    }

    /** The comment form of `detalle_proyecto` on a POST: a top-level
        comment by the signed-in user, logged once. */
    method AgregarComentario(u: Option<Usuario>, id: nat, e: ComentarioEntrada, ahora: FechaHora)
      returns (r: Resultado)
      requires Valid()
      modifies this
      ensures Valid()
      ensures proyectos == old(proyectos) && documentos == old(documentos)
      ensures !old(Existe(id)) || u.None? || ValidarComentario(e).Err? ==>
        comentarios == old(comentarios) && historial == old(historial)
      ensures !old(Existe(id)) || u.None? ==> r == NoEncontrado
      ensures old(Existe(id)) && u.Some? && ValidarComentario(e).Err? ==> r == Invalido(ValidarComentario(e).error)
      ensures old(Existe(id)) && u.Some? && ValidarComentario(e).Ok? ==>
        var d := ValidarComentario(e).value;
        var c := Comentario(|old(comentarios)|, id, u.value.id, d.texto, d.tipo, d.calificacion, ahora, true, None);
        && r == Hecho(c.id)
        && comentarios == old(comentarios) + [c]
        && historial == old(historial) + [EntradaComentario(id, u.value.id, d.tipo, ahora)]
    {
      if !Existe(id) || u.None? {
        return NoEncontrado;
      }
      var v := ValidarComentario(e);
      if v.Err? {
        return Invalido(v.error);
      }
      var d := v.value;
      var c := Comentario(|comentarios|, id, u.value.id, d.texto, d.tipo, d.calificacion, ahora, true, None);
      comentarios := comentarios + [c];
      historial := historial + [EntradaComentario(id, u.value.id, d.tipo, ahora)];
      r := Hecho(c.id);
    }

    /** `responder_comentario` on a POST: a reply to an active comment goes
        to the parent's project (whether or not that project is still
        active) and is not logged. */
    method ResponderComentario(u: Option<Usuario>, padre: nat, e: ComentarioEntrada, ahora: FechaHora)
      returns (r: Resultado)
      requires Valid()
      modifies this
      ensures Valid()
      ensures proyectos == old(proyectos) && documentos == old(documentos) && historial == old(historial)
      ensures padre >= |old(comentarios)| || !old(comentarios[padre].activo) || u.None? ==>
        r == NoEncontrado && comentarios == old(comentarios)
      ensures padre < |old(comentarios)| && old(comentarios[padre].activo) && u.Some? && ValidarComentario(e).Err? ==>
        r == Invalido(ValidarComentario(e).error) && comentarios == old(comentarios)
      ensures padre < |old(comentarios)| && old(comentarios[padre].activo) && u.Some? && ValidarComentario(e).Ok? ==>
        var d := ValidarComentario(e).value;
        var c := Comentario(|old(comentarios)|, old(comentarios[padre].proyecto), u.value.id,
          d.texto, d.tipo, d.calificacion, ahora, true, Some(padre));
        && r == Hecho(c.id)
        && comentarios == old(comentarios) + [c]
    {
      if padre >= |comentarios| || !comentarios[padre].activo || u.None? {
        return NoEncontrado;
      }
      var v := ValidarComentario(e);
      if v.Err? {
        return Invalido(v.error);
      }
      var d := v.value;
      var c := Comentario(|comentarios|, comentarios[padre].proyecto, u.value.id,
        d.texto, d.tipo, d.calificacion, ahora, true, Some(padre));
      comentarios := comentarios + [c];
      r := Hecho(c.id);
    }

    /** `subir_documento` on a POST: the document is attached to the project
        and the upload logged once. */
    method SubirDocumento(u: Option<Usuario>, id: nat, e: DocumentoEntrada, ahora: FechaHora)
      returns (r: Resultado)
      requires Valid()
      modifies this
      ensures Valid()
      ensures proyectos == old(proyectos) && comentarios == old(comentarios)
      ensures !old(Existe(id)) || u.None? || ValidarDocumento(e).Err? ==>
        documentos == old(documentos) && historial == old(historial)
      ensures !old(Existe(id)) || u.None? ==> r == NoEncontrado
      ensures old(Existe(id)) && u.Some? && ValidarDocumento(e).Err? ==> r == Invalido(ValidarDocumento(e).error)
      ensures old(Existe(id)) && u.Some? && ValidarDocumento(e).Ok? ==>
        var d := ValidarDocumento(e).value;
        var doc := Documento(|old(documentos)|, id, u.value.id, d.nombreArchivo, d.archivo.tamano,
          d.tipo, d.descripcion, d.version, ahora, true);
        && r == Hecho(doc.id)
        && documentos == old(documentos) + [doc]
        && historial == old(historial) + [EntradaDocumento(id, u.value.id, d.nombreArchivo, ahora)]
    {
      if !Existe(id) || u.None? {
        return NoEncontrado;
      }
      var v := ValidarDocumento(e);
      if v.Err? {
        return Invalido(v.error);
      }
      var d := v.value;
      var doc := Documento(|documentos|, id, u.value.id, d.nombreArchivo, d.archivo.tamano,
        d.tipo, d.descripcion, d.version, ahora, true);
      documentos := documentos + [doc];
      historial := historial + [EntradaDocumento(id, u.value.id, d.nombreArchivo, ahora)];
      r := Hecho(doc.id);
    }

    /** The per-state table: one entry per state choice, holding the active
        projects in that state. */
    method ContarPorEstado() returns (porEstado: map<Estado, nat>)
      ensures forall e :: e in porEstado <==> e in ESTADOS
      ensures forall e :: e in porEstado ==> porEstado[e] == ContarEstado(proyectos, e)
    {
      porEstado := map[];
      var i := 0;
      while i < |ESTADOS|
        invariant 0 <= i <= |ESTADOS|
        invariant forall e :: e in porEstado <==> e in ESTADOS[..i]
        invariant forall e :: e in porEstado ==> porEstado[e] == ContarEstado(proyectos, e)
      {
        porEstado := porEstado[ESTADOS[i] := ContarEstado(proyectos, ESTADOS[i])];
        assert ESTADOS[..i + 1] == ESTADOS[..i] + [ESTADOS[i]];
        i := i + 1;
      }
      assert ESTADOS[..i] == ESTADOS;
    }

    /** The per-area table: one entry per area choice. */
    method ContarPorArea() returns (porArea: map<Area, nat>)
      ensures forall a :: a in porArea <==> a in AREAS
      ensures forall a :: a in porArea ==> porArea[a] == ContarArea(proyectos, a)
    {
      porArea := map[];
      var i := 0;
      while i < |AREAS|
        invariant 0 <= i <= |AREAS|
        invariant forall a :: a in porArea <==> a in AREAS[..i]
        invariant forall a :: a in porArea ==> porArea[a] == ContarArea(proyectos, a)
      {
        porArea := porArea[AREAS[i] := ContarArea(proyectos, AREAS[i])];
        assert AREAS[..i + 1] == AREAS[..i] + [AREAS[i]];
        i := i + 1;
      }
      assert AREAS[..i] == AREAS;
    }

    /** The overdue list, built by appending each project of the
        newest-first active list that is overdue. */
    method ListarAtrasados(hoy: Fecha) returns (atrasados: seq<Proyecto>)
      ensures atrasados == ConsultaAtrasados(proyectos, hoy)
    {
      atrasados := FiltrarAtrasados(Recientes(proyectos), hoy);
    }

    /** `dashboard`: None for an unknown user; otherwise the counts, the
        per-state and per-area tables, the five newest projects and at most
        five of the overdue ones. */
    method Dashboard(u: Option<Usuario>, hoy: Fecha) returns (t: Option<Tablero>)
      ensures u.None? <==> t.None?
      ensures t.Some? ==>
        && t.value.total == ContarActivos(proyectos)
        && t.value.enCurso == ContarEnCurso(proyectos)
        && (forall e :: e in t.value.porEstado <==> e in ESTADOS)
        && (forall e :: e in t.value.porEstado ==> t.value.porEstado[e] == ContarEstado(proyectos, e))
        && (forall a :: a in t.value.porArea <==> a in AREAS)
        && (forall a :: a in t.value.porArea ==> t.value.porArea[a] == ContarArea(proyectos, a))
        && t.value.mios == |MisProyectos(proyectos, u.value.id).0|
        && t.value.colaboro == |MisProyectos(proyectos, u.value.id).1|
        && t.value.recientes == Take(Recientes(proyectos), 5)
        && t.value.atrasados == Take(ConsultaAtrasados(proyectos, hoy), 5)
    {
      if u.None? {
        return None;
      }
      var porEstado := ContarPorEstado();
      var porArea := ContarPorArea();
      var atrasados := ListarAtrasados(hoy);
      var mis := MisProyectos(proyectos, u.value.id);
      t := Some(Tablero(ContarActivos(proyectos), ContarEnCurso(proyectos), porEstado, porArea,
        |mis.0|, |mis.1|, Take(Recientes(proyectos), 5), Take(atrasados, 5)));
    }
  }

  /** The loop of the overdue query: appends, in order, each project of
      `orden` that is active and overdue. */
  method FiltrarAtrasados(orden: seq<Proyecto>, hoy: Fecha) returns (atrasados: seq<Proyecto>)
    ensures atrasados == Atrasados(orden, hoy)
  {
    atrasados := [];
    var i := 0;
    while i < |orden|
      invariant 0 <= i <= |orden|
      invariant atrasados == Atrasados(orden[..i], hoy)
    {
      var p := orden[i];
      assert orden[..i + 1][..i] == orden[..i];
      if EsAtrasadoActivo(p, hoy) {
        atrasados := atrasados + [p];
      }
      i := i + 1;
    }
    assert orden[..i] == orden;
  }

  /** The overdue list the dashboard shows holds at most five projects, each
      of them active and overdue by `IsAtrasado`; they are the newest overdue
      ones, and when there are at most five it shows them all. */
  lemma AtrasadosMostrados(ps: seq<Proyecto>, hoy: Fecha)
    ensures var shown := Take(ConsultaAtrasados(ps, hoy), 5);
      && |shown| <= 5
      && (forall x :: x in shown ==> x in ps && x.activo && IsAtrasado(x, hoy))
      && (forall x, y :: x in shown && y in ps && y.activo && IsAtrasado(y, hoy) && y !in shown ==>
            x.fechaCreacion >= y.fechaCreacion)
      && (|ConsultaAtrasados(ps, hoy)| <= 5 ==> forall x :: x in ps && x.activo && IsAtrasado(x, hoy) ==> x in shown)
  {
    ConsultaAtrasadosSon(ps, hoy);
    PrimerosSonNuevos(ConsultaAtrasados(ps, hoy), 5);
  }

  /** The first `n` of a newest-first sequence are its newest members. */
  lemma PrimerosSonNuevos(all: seq<Proyecto>, n: nat)
    requires NuevosPrimero(all)
    ensures forall x :: x in Take(all, n) ==> x in all
    ensures forall x, y :: x in Take(all, n) && y in all && y !in Take(all, n) ==>
      x.fechaCreacion >= y.fechaCreacion
  {
    var shown := Take(all, n);
    forall x | x in shown ensures x in all {
      var k :| 0 <= k < |shown| && shown[k] == x;
      assert all[k] == x;
    }
    forall x, y | x in shown && y in all && y !in shown
      ensures x.fechaCreacion >= y.fechaCreacion
    {
      var i :| 0 <= i < |shown| && shown[i] == x;
      var k :| 0 <= k < |all| && all[k] == y;
      assert forall m :: 0 <= m < |shown| ==> shown[m] != y;
      assert |shown| <= k;
      assert all[i] == x;
    }
  }

}
