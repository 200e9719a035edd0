/** The project-module forms (`proyectos/forms.py`). Each form takes the
    submitted values, raises field-level errors in the order its fields are
    declared, then runs its record-level `clean`, and yields either the
    cleaned values or every error it collected. Submitted values arrive
    already typed: text as strings (empty when absent), numbers, dates and
    choices as Options (None when absent). */
module ProyectosForms {
  import opened Wrappers
  import opened Tiempo
  import opened Secuencias
  import opened Formularios
  import opened ProyectosModels

  // ----- ProyectoForm -----

  const PRESUPUESTO_NO_POSITIVO: string := "El presupuesto debe ser mayor a 0"
  const FECHAS_DESORDENADAS: string := "La fecha de finalización debe ser posterior a la fecha de inicio"

  /** The fields of the two project forms. */
  datatype Campo =
    | CampoTitulo | CampoDescripcion | CampoAreaProponente | CampoResponsable
    | CampoObjetivosGenerales | CampoObjetivosEspecificos | CampoAlcance | CampoLimitaciones
    | CampoPresupuestoEstimado | CampoCronogramaTentativo | CampoRecursosNecesarios
    | CampoBeneficiariosEsperados | CampoIndicadoresExito | CampoEstado
    | CampoPorcentajeCompletitud | CampoFechaInicioEstimada | CampoFechaFinalizacionEstimada

  /** The form field's name, as `changed_data` and the error map report it. */
  function Nombre(c: Campo): string
  {
    match c
    case CampoTitulo => "titulo"
    case CampoDescripcion => "descripcion"
    case CampoAreaProponente => "area_proponente"
    case CampoResponsable => "responsable"
    case CampoObjetivosGenerales => "objetivos_generales"
    case CampoObjetivosEspecificos => "objetivos_especificos"
    case CampoAlcance => "alcance"
    case CampoLimitaciones => "limitaciones"
    case CampoPresupuestoEstimado => "presupuesto_estimado"
    case CampoCronogramaTentativo => "cronograma_tentativo"
    case CampoRecursosNecesarios => "recursos_necesarios"
    case CampoBeneficiariosEsperados => "beneficiarios_esperados"
    case CampoIndicadoresExito => "indicadores_exito"
    case CampoEstado => "estado"
    case CampoPorcentajeCompletitud => "porcentaje_completitud"
    case CampoFechaInicioEstimada => "fecha_inicio_estimada"
    case CampoFechaFinalizacionEstimada => "fecha_finalizacion_estimada"
  }

  /** What the creation form receives; `responsable` is a user id. */
  datatype ProyectoEntrada = ProyectoEntrada(
    titulo: string,
    descripcion: string,
    areaProponente: Option<Area>,
    responsable: Option<UsuarioId>,
    objetivosGenerales: string,
    objetivosEspecificos: string,
    alcance: string,
    limitaciones: string,
    presupuestoEstimado: Option<int>,
    cronogramaTentativo: string,
    recursosNecesarios: string,
    beneficiariosEsperados: string,
    indicadoresExito: string,
    fechaInicioEstimada: Option<Fecha>,
    fechaFinalizacionEstimada: Option<Fecha>)

  /** The budget check. Python skips it for a falsy value, so a missing budget
      and a budget of exactly 0 both pass; only a negative one is rejected. */
  function CleanPresupuestoEstimado(presupuesto: Option<int>): (r: Result<Option<int>, string>)
    ensures r.Err? <==> presupuesto.Some? && presupuesto.value < 0
    ensures r.Err? ==> r.error == PRESUPUESTO_NO_POSITIVO
    ensures r.Ok? ==> r.value == presupuesto
  {
    if presupuesto.Some? && presupuesto.value != 0 && presupuesto.value <= 0 then
      Err(PRESUPUESTO_NO_POSITIVO)
    else
      Ok(presupuesto)
  }

  lemma PresupuestoCeroAceptado()
    ensures CleanPresupuestoEstimado(Some(0)) == Ok(Some(0))
    ensures CleanPresupuestoEstimado(Some(-1)) == Err(PRESUPUESTO_NO_POSITIVO)
  {
  }

  /** The record-level date check: when both estimated dates are given, the
      end must be strictly later than the start. */
  function CleanFechas(inicio: Option<Fecha>, fin: Option<Fecha>): (r: Result<(Option<Fecha>, Option<Fecha>), string>)
    ensures r.Ok? <==> !(inicio.Some? && fin.Some? && inicio.value >= fin.value)
    ensures r.Ok? ==> r.value == (inicio, fin)
    ensures r.Ok? && inicio.Some? && fin.Some? ==> inicio.value < fin.value
    ensures inicio.None? || fin.None? ==> r.Ok?
    ensures r.Err? ==> r.error == FECHAS_DESORDENADAS
  {
    if inicio.Some? && fin.Some? && inicio.value >= fin.value then
      Err(FECHAS_DESORDENADAS)
    else
      Ok((inicio, fin))
  }

  /** Errors of the responsible-user field, a choice among the active users
      (`activos`). */
  function ErrorResponsable(responsable: Option<UsuarioId>, activos: set<UsuarioId>): (r: seq<ErrorFormulario>)
    ensures r == [] <==> responsable.Some? && responsable.value in activos
    ensures responsable.None? ==> r == [ErrorCampo("responsable", REQUERIDO)]
    ensures responsable.Some? && responsable.value !in activos ==> r == [ErrorCampo("responsable", OPCION_INVALIDA)]
  {
    match responsable
    case None => [ErrorCampo("responsable", REQUERIDO)]
    case Some(u) => if u in activos then [] else [ErrorCampo("responsable", OPCION_INVALIDA)]
  }

  /** The budget column holds at most ten whole digits (`max_digits=12`,
      `decimal_places=2`): in cents, strictly less than 10^12 in absolute
      value. */
  const PRESUPUESTO_LIMITE: int := 1_000_000_000_000

  predicate CabeEnColumna(centavos: int)
  {
    -PRESUPUESTO_LIMITE < centavos < PRESUPUESTO_LIMITE
  }

  /** Errors of the budget field: required, then the column's digit limit,
      then `clean_presupuesto_estimado` (which runs only on a value that
      passed the field's own checks). */
  function ErrorPresupuesto(presupuesto: Option<int>): (r: seq<ErrorFormulario>)
    ensures r == [] <==> presupuesto.Some? && 0 <= presupuesto.value < PRESUPUESTO_LIMITE
    ensures presupuesto.None? ==> r == [ErrorCampo("presupuesto_estimado", REQUERIDO)]
    ensures presupuesto.Some? && !CabeEnColumna(presupuesto.value) ==>
      r == [ErrorCampo("presupuesto_estimado", DEMASIADOS_DIGITOS)]
    ensures presupuesto.Some? && CabeEnColumna(presupuesto.value) && presupuesto.value < 0 ==>
      r == [ErrorCampo("presupuesto_estimado", PRESUPUESTO_NO_POSITIVO)]
  {
    match presupuesto
    case None => [ErrorCampo("presupuesto_estimado", REQUERIDO)]
    case Some(v) =>
      if !CabeEnColumna(v) then [ErrorCampo("presupuesto_estimado", DEMASIADOS_DIGITOS)]
      else
        match CleanPresupuestoEstimado(Some(v))
        case Err(m) => [ErrorCampo("presupuesto_estimado", m)]
        case Ok(_) => []
  }

  /** The field-level errors of the creation form, in field order. Besides
      the eleven fields the form flags itself, `cronograma_tentativo` is
      required by its model declaration; `limitaciones` and the dates are
      optional. */
  function ErroresCamposProyecto(e: ProyectoEntrada, activos: set<UsuarioId>): (r: seq<ErrorFormulario>)
    ensures forall x :: x in r ==> x.ErrorCampo?
  {
    var primeros :=
      Requerido("titulo", e.titulo)
      + Requerido("descripcion", e.descripcion)
      + RequeridoOpcion("area_proponente", e.areaProponente)
      + ErrorResponsable(e.responsable, activos);
    var medios :=
      Requerido("objetivos_generales", e.objetivosGenerales)
      + Requerido("objetivos_especificos", e.objetivosEspecificos)
      + Requerido("alcance", e.alcance)
      + ErrorPresupuesto(e.presupuestoEstimado);
    var ultimos :=
      Requerido("cronograma_tentativo", e.cronogramaTentativo)
      + Requerido("recursos_necesarios", e.recursosNecesarios)
      + Requerido("beneficiarios_esperados", e.beneficiariosEsperados)
      + Requerido("indicadores_exito", e.indicadoresExito);
    assert forall x :: x in primeros ==> x.ErrorCampo?;
    assert forall x :: x in medios ==> x.ErrorCampo?;
    assert forall x :: x in ultimos ==> x.ErrorCampo?;
    primeros + medios + ultimos
  }

  /** The record-level errors (`clean`); it runs whatever the fields gave. */
  function ErroresRegistroProyecto(e: ProyectoEntrada): (r: seq<ErrorFormulario>)
    ensures r == [] <==> CleanFechas(e.fechaInicioEstimada, e.fechaFinalizacionEstimada).Ok?
    ensures r != [] ==> r == [ErrorGeneral(FECHAS_DESORDENADAS)]
  {
    match CleanFechas(e.fechaInicioEstimada, e.fechaFinalizacionEstimada)
    case Err(m) => [ErrorGeneral(m)]
    case Ok(_) => []
  }

  /** Whether field `c` of the creation form was left without a value. */
  predicate Falta(e: ProyectoEntrada, c: Campo)
  {
    match c
    case CampoTitulo => e.titulo == ""
    case CampoDescripcion => e.descripcion == ""
    case CampoAreaProponente => e.areaProponente.None?
    case CampoResponsable => e.responsable.None?
    case CampoObjetivosGenerales => e.objetivosGenerales == ""
    case CampoObjetivosEspecificos => e.objetivosEspecificos == ""
    case CampoAlcance => e.alcance == ""
    case CampoPresupuestoEstimado => e.presupuestoEstimado.None?
    case CampoCronogramaTentativo => e.cronogramaTentativo == ""
    case CampoRecursosNecesarios => e.recursosNecesarios == ""
    case CampoBeneficiariosEsperados => e.beneficiariosEsperados == ""
    case CampoIndicadoresExito => e.indicadoresExito == ""
    case _ => false
  }

  /** The fields the creation form requires: the eleven its constructor
      flags, and `cronograma_tentativo`, which its model declaration
      requires. */
  predicate ObligatorioEnCreacion(c: Campo)
  {
    !(c.CampoLimitaciones? || c.CampoEstado? || c.CampoPorcentajeCompletitud?
      || c.CampoFechaInicioEstimada? || c.CampoFechaFinalizacionEstimada?)
  }

  /** The acceptance condition of the creation form, stated directly. */
  predicate ProyectoAceptable(e: ProyectoEntrada, activos: set<UsuarioId>)
  {
    && e.titulo != "" && e.descripcion != "" && e.areaProponente.Some?
    && e.responsable.Some? && e.responsable.value in activos
    && e.objetivosGenerales != "" && e.objetivosEspecificos != "" && e.alcance != ""
    && e.presupuestoEstimado.Some? && 0 <= e.presupuestoEstimado.value < PRESUPUESTO_LIMITE
    && e.cronogramaTentativo != "" && e.recursosNecesarios != ""
    && e.beneficiariosEsperados != "" && e.indicadoresExito != ""
    && (e.fechaInicioEstimada.Some? && e.fechaFinalizacionEstimada.Some? ==>
          e.fechaInicioEstimada.value < e.fechaFinalizacionEstimada.value)
  }

  /** `ProyectoForm.is_valid()` followed by its cleaned data. */
  function ValidarProyecto(e: ProyectoEntrada, activos: set<UsuarioId>): (r: Result<DatosProyecto, seq<ErrorFormulario>>)
    ensures r.Ok? <==> ProyectoAceptable(e, activos)
    ensures r.Err? ==> r.error != []
    ensures r.Ok? ==> EntradaDe(r.value) == e
  {
    var errores := ErroresCamposProyecto(e, activos) + ErroresRegistroProyecto(e);
    if errores == [] then
      Ok(DatosProyecto(e.titulo, e.descripcion, e.areaProponente.value, e.responsable.value,
        e.objetivosGenerales, e.objetivosEspecificos, e.alcance, e.limitaciones,
        e.presupuestoEstimado.value, e.cronogramaTentativo, e.recursosNecesarios,
        e.beneficiariosEsperados, e.indicadoresExito,
        e.fechaInicioEstimada, e.fechaFinalizacionEstimada))
    else
      Err(errores)
  }

  /** The submission that carries exactly the cleaned values `d`. */
  function EntradaDe(d: DatosProyecto): ProyectoEntrada
  {
    ProyectoEntrada(d.titulo, d.descripcion, Some(d.areaProponente), Some(d.responsable),
      d.objetivosGenerales, d.objetivosEspecificos, d.alcance, d.limitaciones,
      Some(d.presupuestoEstimado), d.cronogramaTentativo, d.recursosNecesarios,
      d.beneficiariosEsperados, d.indicadoresExito,
      d.fechaInicioEstimada, d.fechaFinalizacionEstimada)
  }

  /** Validation normalises nothing away: resubmitting the cleaned values
      gives the same cleaned values again. */
  lemma ValidarProyectoIdempotente(e: ProyectoEntrada, activos: set<UsuarioId>)
    requires ValidarProyecto(e, activos).Ok?
    ensures ValidarProyecto(EntradaDe(ValidarProyecto(e, activos).value), activos) == ValidarProyecto(e, activos)
  {
  }

  /** Every required field left empty is reported against that field, whatever
      else the submission holds. */
  lemma ObligatorioReportado(e: ProyectoEntrada, activos: set<UsuarioId>, c: Campo)
    requires ObligatorioEnCreacion(c)
    requires Falta(e, c)
    ensures ValidarProyecto(e, activos).Err?
    ensures ErrorCampo(Nombre(c), REQUERIDO) in ValidarProyecto(e, activos).error
  {
  }

  /** An estimated end on or before the estimated start is rejected by a
      record-level error, even when every field is otherwise valid; equal
      dates are therefore rejected. */
  lemma FechasDesordenadasRechazadas(e: ProyectoEntrada, activos: set<UsuarioId>)
    requires e.fechaInicioEstimada.Some? && e.fechaFinalizacionEstimada.Some?
    requires e.fechaInicioEstimada.value >= e.fechaFinalizacionEstimada.value
    ensures ValidarProyecto(e, activos).Err?
    ensures ErrorGeneral(FECHAS_DESORDENADAS) in ValidarProyecto(e, activos).error
  {
  }

  /** Without both dates there is no record-level error at all. */
  lemma SinFechasSinErrorGeneral(e: ProyectoEntrada, activos: set<UsuarioId>)
    requires e.fechaInicioEstimada.None? || e.fechaFinalizacionEstimada.None?
    requires ValidarProyecto(e, activos).Err?
    ensures forall m :: ErrorGeneral(m) !in ValidarProyecto(e, activos).error
  {
  }

  // ----- ActualizarProyectoForm -----

  /** What the edit form receives: fourteen fields, including the state and
      the completion percentage. */
  datatype EdicionEntrada = EdicionEntrada(
    descripcion: string,
    objetivosGenerales: string,
    objetivosEspecificos: string,
    alcance: string,
    limitaciones: string,
    presupuestoEstimado: Option<int>,
    cronogramaTentativo: string,
    recursosNecesarios: string,
    beneficiariosEsperados: string,
    indicadoresExito: string,
    estado: Option<Estado>,
    porcentajeCompletitud: Option<int>,
    fechaInicioEstimada: Option<Fecha>,
    fechaFinalizacionEstimada: Option<Fecha>)

  /** The cleaned values of the edit form. */
  datatype Edicion = Edicion(
    descripcion: string,
    objetivosGenerales: string,
    objetivosEspecificos: string,
    alcance: string,
    limitaciones: string,
    presupuestoEstimado: int,
    cronogramaTentativo: string,
    recursosNecesarios: string,
    beneficiariosEsperados: string,
    indicadoresExito: string,
    estado: Estado,
    porcentajeCompletitud: int,
    fechaInicioEstimada: Option<Fecha>,
    fechaFinalizacionEstimada: Option<Fecha>)

  /** The edit form's fields, in declaration order (the order of
      `changed_data`). */
  const CAMPOS_EDICION: seq<Campo> := [
    CampoDescripcion, CampoObjetivosGenerales, CampoObjetivosEspecificos,
    CampoAlcance, CampoLimitaciones, CampoPresupuestoEstimado,
    CampoCronogramaTentativo, CampoRecursosNecesarios,
    CampoBeneficiariosEsperados, CampoIndicadoresExito,
    CampoEstado, CampoPorcentajeCompletitud,
    CampoFechaInicioEstimada, CampoFechaFinalizacionEstimada]

  /** Errors of the budget field on edit: required and the column's digit
      limit, with no sign check. */
  function ErrorPresupuestoEdicion(presupuesto: Option<int>): (r: seq<ErrorFormulario>)
    ensures r == [] <==> presupuesto.Some? && CabeEnColumna(presupuesto.value)
    ensures presupuesto.None? ==> r == [ErrorCampo("presupuesto_estimado", REQUERIDO)]
    ensures presupuesto.Some? && !CabeEnColumna(presupuesto.value) ==>
      r == [ErrorCampo("presupuesto_estimado", DEMASIADOS_DIGITOS)]
  {
    match presupuesto
    case None => [ErrorCampo("presupuesto_estimado", REQUERIDO)]
    case Some(v) => if CabeEnColumna(v) then [] else [ErrorCampo("presupuesto_estimado", DEMASIADOS_DIGITOS)]
  }

  /** The field-level errors of the edit form, in field order. The form
      declares no checks of its own, only the model's required fields (all but
      `limitaciones` and the two dates): there is no budget sign check and no
      date-order check on edit. */
  function ErroresEdicion(e: EdicionEntrada): seq<ErrorFormulario>
  {
    Requerido("descripcion", e.descripcion)
    + Requerido("objetivos_generales", e.objetivosGenerales)
    + Requerido("objetivos_especificos", e.objetivosEspecificos)
    + Requerido("alcance", e.alcance)
    + ErrorPresupuestoEdicion(e.presupuestoEstimado)
    + Requerido("cronograma_tentativo", e.cronogramaTentativo)
    + Requerido("recursos_necesarios", e.recursosNecesarios)
    + Requerido("beneficiarios_esperados", e.beneficiariosEsperados)
    + Requerido("indicadores_exito", e.indicadoresExito)
    + RequeridoOpcion("estado", e.estado)
    + RequeridoOpcion("porcentaje_completitud", e.porcentajeCompletitud)
  }

  /** `ActualizarProyectoForm.is_valid()` followed by its cleaned data. */
  function ValidarEdicion(e: EdicionEntrada): (r: Result<Edicion, seq<ErrorFormulario>>)
    ensures r.Ok? <==>
      e.descripcion != "" && e.objetivosGenerales != "" && e.objetivosEspecificos != ""
      && e.alcance != "" && e.presupuestoEstimado.Some? && CabeEnColumna(e.presupuestoEstimado.value)
      && e.cronogramaTentativo != ""
      && e.recursosNecesarios != "" && e.beneficiariosEsperados != "" && e.indicadoresExito != ""
      && e.estado.Some? && e.porcentajeCompletitud.Some?
    ensures r.Err? ==> r.error != []
    ensures r.Ok? ==> EntradaEdicionDe(r.value) == e
    ensures r.Ok? ==> r.value.estado == e.estado.value && r.value.presupuestoEstimado == e.presupuestoEstimado.value
    ensures r.Ok? ==> r.value.fechaInicioEstimada == e.fechaInicioEstimada && r.value.fechaFinalizacionEstimada == e.fechaFinalizacionEstimada
  {
    var errores := ErroresEdicion(e);
    if errores == [] then
      Ok(Edicion(e.descripcion, e.objetivosGenerales, e.objetivosEspecificos, e.alcance,
        e.limitaciones, e.presupuestoEstimado.value, e.cronogramaTentativo,
        e.recursosNecesarios, e.beneficiariosEsperados, e.indicadoresExito,
        e.estado.value, e.porcentajeCompletitud.value,
        e.fechaInicioEstimada, e.fechaFinalizacionEstimada))
    else
      Err(errores)
  }

  /** The submission that carries exactly the cleaned edit values `ed`. */
  function EntradaEdicionDe(ed: Edicion): EdicionEntrada
  {
    EdicionEntrada(ed.descripcion, ed.objetivosGenerales, ed.objetivosEspecificos, ed.alcance,
      ed.limitaciones, Some(ed.presupuestoEstimado), ed.cronogramaTentativo,
      ed.recursosNecesarios, ed.beneficiariosEsperados, ed.indicadoresExito,
      Some(ed.estado), Some(ed.porcentajeCompletitud),
      ed.fechaInicioEstimada, ed.fechaFinalizacionEstimada)
  }

  /** The values of the edit form's fields that a project row holds. */
  function EdicionDe(p: Proyecto): Edicion
  {
    Edicion(p.descripcion, p.objetivosGenerales, p.objetivosEspecificos, p.alcance,
      p.limitaciones, p.presupuestoEstimado, p.cronogramaTentativo,
      p.recursosNecesarios, p.beneficiariosEsperados, p.indicadoresExito,
      p.estado, p.porcentajeCompletitud,
      p.fechaInicioEstimada, p.fechaFinalizacionEstimada)
  }

  /** Whether the edit changes field `c` of `p`. */
  predicate Cambia(p: Proyecto, ed: Edicion, c: Campo)
  {
    match c
    case CampoDescripcion => ed.descripcion != p.descripcion
    case CampoObjetivosGenerales => ed.objetivosGenerales != p.objetivosGenerales
    case CampoObjetivosEspecificos => ed.objetivosEspecificos != p.objetivosEspecificos
    case CampoAlcance => ed.alcance != p.alcance
    case CampoLimitaciones => ed.limitaciones != p.limitaciones
    case CampoPresupuestoEstimado => ed.presupuestoEstimado != p.presupuestoEstimado
    case CampoCronogramaTentativo => ed.cronogramaTentativo != p.cronogramaTentativo
    case CampoRecursosNecesarios => ed.recursosNecesarios != p.recursosNecesarios
    case CampoBeneficiariosEsperados => ed.beneficiariosEsperados != p.beneficiariosEsperados
    case CampoIndicadoresExito => ed.indicadoresExito != p.indicadoresExito
    case CampoEstado => ed.estado != p.estado
    case CampoPorcentajeCompletitud => ed.porcentajeCompletitud != p.porcentajeCompletitud
    case CampoFechaInicioEstimada => ed.fechaInicioEstimada != p.fechaInicioEstimada
    case CampoFechaFinalizacionEstimada => ed.fechaFinalizacionEstimada != p.fechaFinalizacionEstimada
    case _ => false
  }

  /** The fields of `cs` that the edit changes, in the order of `cs`. */
  function CambiadosEn(p: Proyecto, ed: Edicion, cs: seq<Campo>): (r: seq<Campo>)
    ensures r == [] <==> forall i :: 0 <= i < |cs| ==> !Cambia(p, ed, cs[i])
  {
    if cs == [] then []
    else
      var resto := CambiadosEn(p, ed, cs[1..]);
      assert forall i :: 1 <= i < |cs| ==> cs[i] == cs[1..][i - 1];
      (if Cambia(p, ed, cs[0]) then [cs[0]] else []) + resto
  }

  lemma {:induction false} CambiadosEnContiene(p: Proyecto, ed: Edicion, cs: seq<Campo>, c: Campo)
    ensures c in CambiadosEn(p, ed, cs) <==> c in cs && Cambia(p, ed, c)
  {
    if cs != [] {
      CambiadosEnContiene(p, ed, cs[1..], c);
      assert c in cs <==> c == cs[0] || c in cs[1..];
    }
  }

  /** `changed_data`: the edited fields whose new value differs from the
      stored one, in field order. */
  function CamposCambiados(p: Proyecto, ed: Edicion): (r: seq<Campo>)
  {
    CambiadosEn(p, ed, CAMPOS_EDICION)
  }

  /** A field is reported as changed exactly when the edit changes it. */
  lemma CambiadoSiCambia(p: Proyecto, ed: Edicion, c: Campo)
    ensures c in CamposCambiados(p, ed) <==> Cambia(p, ed, c)
  {
    CambiadosEnContiene(p, ed, CAMPOS_EDICION, c);
    if !(c.CampoTitulo? || c.CampoAreaProponente? || c.CampoResponsable?) {
      assert c in CAMPOS_EDICION;
    }
  }

  /** The stored project with the edited values written over it (what
      `form.save(commit=False)` leaves in the instance); nothing else moves. */
  function AplicarEdicion(p: Proyecto, ed: Edicion): (q: Proyecto)
    ensures q.id == p.id && q.titulo == p.titulo && q.areaProponente == p.areaProponente
    ensures q.responsable == p.responsable && q.colaboradores == p.colaboradores
    ensures q.fechaCreacion == p.fechaCreacion && q.fechaFinalizacionReal == p.fechaFinalizacionReal
    ensures q.activo == p.activo && q.version == p.version
    ensures q.estado == ed.estado
    ensures EdicionDe(q) == ed
  {
    p.(descripcion := ed.descripcion, objetivosGenerales := ed.objetivosGenerales,
       objetivosEspecificos := ed.objetivosEspecificos, alcance := ed.alcance,
       limitaciones := ed.limitaciones, presupuestoEstimado := ed.presupuestoEstimado,
       cronogramaTentativo := ed.cronogramaTentativo, recursosNecesarios := ed.recursosNecesarios,
       beneficiariosEsperados := ed.beneficiariosEsperados, indicadoresExito := ed.indicadoresExito,
       estado := ed.estado, porcentajeCompletitud := ed.porcentajeCompletitud,
       fechaInicioEstimada := ed.fechaInicioEstimada,
       fechaFinalizacionEstimada := ed.fechaFinalizacionEstimada)
  }

  /** An edit reports no changed field exactly when it leaves the project as
      it was. */
  lemma SinCambiosSiIgual(p: Proyecto, ed: Edicion)
    ensures CamposCambiados(p, ed) == [] <==> AplicarEdicion(p, ed) == p
  {
    var cambios := CamposCambiados(p, ed);
    if cambios == [] {
      CambiadoSiCambia(p, ed, CampoDescripcion);
      CambiadoSiCambia(p, ed, CampoObjetivosGenerales);
      CambiadoSiCambia(p, ed, CampoObjetivosEspecificos);
      CambiadoSiCambia(p, ed, CampoAlcance);
      CambiadoSiCambia(p, ed, CampoLimitaciones);
      CambiadoSiCambia(p, ed, CampoPresupuestoEstimado);
      CambiadoSiCambia(p, ed, CampoCronogramaTentativo);
      CambiadoSiCambia(p, ed, CampoRecursosNecesarios);
      CambiadoSiCambia(p, ed, CampoBeneficiariosEsperados);
      CambiadoSiCambia(p, ed, CampoIndicadoresExito);
      CambiadoSiCambia(p, ed, CampoEstado);
      CambiadoSiCambia(p, ed, CampoPorcentajeCompletitud);
      CambiadoSiCambia(p, ed, CampoFechaInicioEstimada);
      CambiadoSiCambia(p, ed, CampoFechaFinalizacionEstimada);
    } else {
      CambiadoSiCambia(p, ed, cambios[0]);
    }
  }

  // ----- ComentarioForm -----

  const CALIFICACION_OBLIGATORIA: string := "La calificación es obligatoria para evaluaciones"
  const CALIFICACION_FUERA_DE_RANGO: string := "La calificación debe estar entre 1 y 5"

  /** The rating check. `tipo` is None when the type field itself failed. A
      rating of 0 is falsy in Python, so it counts as missing for an
      evaluation and skips the range check for every other type. */
  function CleanCalificacion(calificacion: Option<int>, tipo: Option<TipoComentario>): (r: Result<Option<int>, string>)
    ensures r.Ok? <==>
      (calificacion.Some? && 1 <= calificacion.value <= 5)
      || (tipo != Some(Evaluacion) && (calificacion.None? || calificacion.value == 0))
    ensures r.Ok? ==> r.value == calificacion
    ensures tipo == Some(Evaluacion) && (calificacion.None? || calificacion == Some(0)) ==> r == Err(CALIFICACION_OBLIGATORIA)
    ensures calificacion.Some? && calificacion.value != 0 && !(1 <= calificacion.value <= 5) ==> r.Err?
  {
    if tipo == Some(Evaluacion) && (calificacion.None? || calificacion.value == 0) then
      Err(CALIFICACION_OBLIGATORIA)
    else if calificacion.Some? && calificacion.value != 0 && (calificacion.value < 1 || calificacion.value > 5) then
      Err(CALIFICACION_FUERA_DE_RANGO)
    else
      Ok(calificacion)
  }

  lemma CalificacionCasos()
    ensures CleanCalificacion(Some(3), Some(Evaluacion)) == Ok(Some(3))
    ensures CleanCalificacion(Some(6), Some(Evaluacion)) == Err(CALIFICACION_FUERA_DE_RANGO)
    ensures CleanCalificacion(Some(0), Some(Evaluacion)) == Err(CALIFICACION_OBLIGATORIA)
    ensures CleanCalificacion(None, Some(Evaluacion)) == Err(CALIFICACION_OBLIGATORIA)
    ensures CleanCalificacion(Some(0), Some(Sugerencia)) == Ok(Some(0))
    ensures CleanCalificacion(None, Some(ComentarioSimple)) == Ok(None)
  {
  }

  datatype ComentarioEntrada = ComentarioEntrada(texto: string, tipo: Option<TipoComentario>, calificacion: Option<int>)

  datatype DatosComentario = DatosComentario(texto: string, tipo: TipoComentario, calificacion: Option<int>)

  /** `ComentarioForm.is_valid()`: text and type required, then the rating. */
  function ValidarComentario(e: ComentarioEntrada): (r: Result<DatosComentario, seq<ErrorFormulario>>)
    ensures r.Ok? <==> e.texto != "" && e.tipo.Some? && CleanCalificacion(e.calificacion, e.tipo).Ok?
    ensures r.Ok? ==> r.value == DatosComentario(e.texto, e.tipo.value, e.calificacion)
    ensures r.Ok? && r.value.tipo == Evaluacion ==> r.value.calificacion.Some? && 1 <= r.value.calificacion.value <= 5
  {
    var errores :=
      Requerido("texto", e.texto)
      + RequeridoOpcion("tipo", e.tipo)
      + (match CleanCalificacion(e.calificacion, e.tipo)
         case Err(m) => [ErrorCampo("calificacion", m)]
         case Ok(_) => []);
    if errores == [] then Ok(DatosComentario(e.texto, e.tipo.value, e.calificacion)) else Err(errores)
  }

  // ----- DocumentoForm -----

  const TAMANO_MAXIMO: nat := 50 * 1024 * 1024
  const ARCHIVO_DEMASIADO_GRANDE: string := "El archivo no puede exceder 50MB"

  /** The upload ceiling, on the file's size in bytes. */
  function CleanArchivo(tamano: Option<nat>): (r: Result<Option<nat>, string>)
    ensures r.Err? <==> tamano.Some? && tamano.value > 52428800
    ensures r.Ok? ==> r.value == tamano
    ensures r.Err? ==> r.error == ARCHIVO_DEMASIADO_GRANDE
  {
    if tamano.Some? && tamano.value > TAMANO_MAXIMO then Err(ARCHIVO_DEMASIADO_GRANDE) else Ok(tamano)
  }

  lemma LimiteArchivoInclusivo()
    ensures CleanArchivo(Some(50 * 1024 * 1024)).Ok?
    ensures CleanArchivo(Some(50 * 1024 * 1024 + 1)).Err?
  {
  }

  /** An uploaded file, as far as this model sees it: its name and size. */
  datatype Archivo = Archivo(nombre: string, tamano: nat)

  datatype DocumentoEntrada = DocumentoEntrada(
    nombreArchivo: string,
    archivo: Option<Archivo>,
    tipo: Option<TipoDocumento>,
    descripcion: string,
    version: string)

  datatype DatosDocumento = DatosDocumento(
    nombreArchivo: string,
    archivo: Archivo,
    tipo: TipoDocumento,
    descripcion: string,
    version: string)

  /** `DocumentoForm.is_valid()`: name, file, type and version required; the
      file not empty (the framework's own file check) and at most 50 MiB. */
  function ValidarDocumento(e: DocumentoEntrada): (r: Result<DatosDocumento, seq<ErrorFormulario>>)
    ensures r.Ok? <==> e.nombreArchivo != "" && e.archivo.Some? && 0 < e.archivo.value.tamano <= TAMANO_MAXIMO
                       && e.tipo.Some? && e.version != ""
    ensures e.archivo.Some? && e.archivo.value.tamano == 0 ==> r.Err? && ErrorCampo("archivo", ARCHIVO_VACIO) in r.error
    ensures r.Ok? ==> r.value == DatosDocumento(e.nombreArchivo, e.archivo.value, e.tipo.value, e.descripcion, e.version)
  {
    var errores :=
      Requerido("nombre_archivo", e.nombreArchivo)
      + (match e.archivo
         case None => [ErrorCampo("archivo", REQUERIDO)]
         case Some(a) =>
           if a.tamano == 0 then [ErrorCampo("archivo", ARCHIVO_VACIO)] else
           match CleanArchivo(Some(a.tamano))
           case Err(m) => [ErrorCampo("archivo", m)]
           case Ok(_) => [])
      + RequeridoOpcion("tipo", e.tipo)
      + Requerido("version", e.version);
    if errores == [] then
      Ok(DatosDocumento(e.nombreArchivo, e.archivo.value, e.tipo.value, e.descripcion, e.version))
    else
      Err(errores)
  }
}
