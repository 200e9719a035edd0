# SENA project tracking and learner registry, modelled in Dafny

This project models the business rules of two Django applications of the SENA
system.

**`proyectos`** tracks institutional projects:
- system users with a role and an area;
- projects with a six-valued state, an estimated budget and estimated dates;
- threaded comments and uploaded documents;
- an append-only history of what happened to each project.

The model covers:
- the derived status a project computes from its fields and the clock (days left, behind schedule);
- the validation rules of its four forms (create, edit, comment, document) and of the listing's filter form;
- the views that change the store (create, edit, soft-delete, comment, reply, upload), with their permission rules and the history entries they write;
- the read-only queries behind the listing, "my projects" and the dashboard.

**`aprendices`** is a registry of learners:
- its registration form, with the document/phone checks and the "document already registered" check;
- the searchable list, ordered by surname and name;
- the counts on its start page.

Modules:

| file | module | models |
|---|---|---|
| `wrappers.dfy` | `Wrappers` | `Option` and `Result` |
| `tiempo.dfy` | `Tiempo` | dates as day numbers, timestamps as microseconds, midnight and "date of" |
| `secuencias.dfy` | `Secuencias` | the query primitives: filter, slice, stable order_by, character-code lexicographic order, ASCII `icontains` |
| `formularios.dfy` | `Formularios` | a form's field-level and record-level errors; the framework's "required" rule |
| `proyectos_models.dfy` | `ProyectosModels` | `proyectos/models.py` |
| `proyectos_forms.dfy` | `ProyectosForms` | `proyectos/forms.py` |
| `proyectos_views.dfy` | `ProyectosViews` | `proyectos/views.py`, with the store as class `GestorProyectos` |
| `aprendices_forms.dfy` | `AprendicesForms` | `aprendices/forms.py`, with the learner store as class `RegistroAprendices` |
| `aprendices_views.dfy` | `AprendicesViews` | `aprendices/views.py` |

Modelling conventions:
- The database is a set of sequences held by a class. A row's id is its position.
- A view that changes rows is a method whose `ensures` gives the whole new state. The history is only ever appended to.
- A Django form is a function from the submitted values to `Result<cleaned data, errors>`. Field errors come in field order, followed by the record-level `clean` error.
- A field that fails its own check is absent from `cleaned_data` when `clean` runs.
- Python truthiness is written out: a budget or rating of `0` is falsy.
- The clock, the signed-in user and the set of active users arrive as parameters.
- Money is an integer number of cents (`decimal_places=2`).

Facts about the code that the model keeps:
- `clean_documento_identidad` checks the document against every stored learner, active or not, and so does `CleanDocumentoIdentidad`.
- No modelled code path adds or checks collaborators, so collaborators are just a set of user ids.
- The creation form flags eleven fields as required. `cronograma_tentativo` is required as well, because the model field is declared without `blank=True`. So `ValidarProyecto` requires twelve fields.
- The budget column is `DecimalField(max_digits=12, decimal_places=2)`. It takes at most 10 digits before the decimal point, so a budget must be less than 10^12 cents in absolute value. Both project forms check this.
- Without `order_by`, a project query follows the model's default ordering `-fecha_creacion`, which puts the newest first. The dashboard's overdue list is such a query.

## Model

| member | source | states |
|---|---|---|
| ProyectosModels.EstadoDeCodigo | SENA_APP/proyectos/models.py:37-44 | a submitted code selects a state only if it is that state's stored code |
| ProyectosModels.EstadosSonSeis | SENA_APP/proyectos/models.py:37-44 | there are six states, their codes are pairwise distinct, and every state's code reads back as that state |
| ProyectosModels.CodigoEstado | SENA_APP/proyectos/models.py:37-44 | definition: the code stored for each of the six state choices |
| ProyectosModels.EnCurso | SENA_APP/proyectos/views.py:30-32 | definition: `estado__in=['aprobado', 'en_ejecucion']`, also the state gate of models.py:88 |
| ProyectosModels.AreaDeCodigo | SENA_APP/proyectos/models.py:15-20 | a submitted code selects an area only if it is that area's stored code |
| ProyectosModels.AreasSonCuatro | SENA_APP/proyectos/models.py:15-20 | every area is among the four choices and its code reads back as that area |
| ProyectosModels.CodigoArea | SENA_APP/proyectos/models.py:15-20 | definition: the code stored for each of the four area choices |
| ProyectosModels.NuevoProyecto | SENA_APP/proyectos/models.py:36-73 | a new row holds every submitted value (its submitted part reads back as the submission), the given id, the creation time and the declared defaults: state propuesto, 0 %, active, version 1, no collaborators, no real end date |
| ProyectosModels.DiasRestantes | SENA_APP/proyectos/models.py:81-85 | None exactly when there is no end date; otherwise never negative, the exact distance to the end while it lies ahead, 0 once it has passed |
| ProyectosModels.IsAtrasado | SENA_APP/proyectos/models.py:87-90 | behind exactly when there is an end date, the state is aprobado or en_ejecucion, and today is strictly after the end date |
| ProyectosModels.NoAtrasadoFueraDeCurso | SENA_APP/proyectos/models.py:88 | a proposed, in-review, finished or cancelled project is never behind |
| ProyectosModels.NoAtrasadoEnFechaFin | SENA_APP/proyectos/models.py:89 | on the end date itself a project is not yet behind |
| ProyectosModels.AtrasadoPersiste | SENA_APP/proyectos/models.py:81-90 | once behind a project stays behind as days pass, and it then has 0 days left |
| ProyectosModels.NuevoNoAtrasado | SENA_APP/proyectos/models.py:64 | a newly created project (state propuesto) is never behind |
| ProyectosModels.CreadoDespuesOrdena | SENA_APP/proyectos/models.py:98 | newest-first is a total preorder, so sorting by it is well defined |
| ProyectosModels.CanEdit | SENA_APP/proyectos/models.py:123-126 | editable exactly by the author while less than 30 minutes have passed since creation |
| ProyectosModels.VentanaEdicionCierra | SENA_APP/proyectos/models.py:123-126 | the window closes at exactly 30 minutes, is open a microsecond earlier, and never reopens |
| ProyectosModels.GetRespuestas | SENA_APP/proyectos/models.py:128-129 | exactly the active replies to the comment, each as often as stored, oldest first |
| ProyectosModels.CodigoTipoComentario | SENA_APP/proyectos/models.py:101-106 | definition: the code stored for each of the four comment types |
| ProyectosForms.CleanPresupuestoEstimado | SENA_APP/proyectos/forms.py:100-104 | rejects exactly a negative budget, with the "mayor a 0" message; a missing or zero budget passes unchanged |
| ProyectosForms.PresupuestoCeroAceptado | SENA_APP/proyectos/forms.py:102 | a budget of 0 is accepted and -1 rejected |
| ProyectosForms.CleanFechas | SENA_APP/proyectos/forms.py:106-116 | errs exactly when both dates are given and the end is not strictly after the start, and then with the date-order message |
| ProyectosForms.ErrorResponsable | SENA_APP/proyectos/forms.py:87 | no error exactly when the chosen user is active; "required" when none is chosen, "invalid choice" for an inactive one |
| ProyectosForms.ErrorPresupuesto | SENA_APP/proyectos/forms.py:90-104 | no error exactly when a budget is given, is not negative and has at most 10 whole digits; otherwise the required message, the whole-digits message or the sign message, in that order |
| ProyectosForms.CabeEnColumna | SENA_APP/proyectos/models.py:57 | definition: a value in cents fits `max_digits=12, decimal_places=2`, that is, it has fewer than 13 digits |
| ProyectosForms.ErroresCamposProyecto | SENA_APP/proyectos/forms.py:84-104 | the field-level pass yields only field errors |
| ProyectosForms.ErroresRegistroProyecto | SENA_APP/proyectos/forms.py:106-116 | the record-level pass yields nothing exactly when the dates are in order, otherwise the single date-order error |
| ProyectosForms.ValidarProyecto | SENA_APP/proyectos/forms.py:6-116 | accepts exactly the submissions with the twelve required fields, an active responsible user, a non-negative budget that fits the column and dates in order; a rejection carries at least one error; the cleaned data are the submitted values |
| ProyectosForms.ValidarProyectoIdempotente | SENA_APP/proyectos/forms.py:6-116 | resubmitting the cleaned data yields the same cleaned data |
| ProyectosForms.ObligatorioReportado | SENA_APP/proyectos/forms.py:90-98 | any required field left empty rejects the form with a "required" error against that very field |
| ProyectosForms.FechasDesordenadasRechazadas | SENA_APP/proyectos/forms.py:111-114 | an end date on or before the start date rejects the form with the record-level date error |
| ProyectosForms.SinFechasSinErrorGeneral | SENA_APP/proyectos/forms.py:111 | with either date missing there is no record-level error |
| ProyectosForms.ValidarEdicion | SENA_APP/proyectos/forms.py:118-158 | accepts exactly the edits with every model-required field filled and a budget that fits the column (no budget sign check, no date check); a rejection carries at least one error; the cleaned data read back as the submission |
| ProyectosForms.ErrorPresupuestoEdicion | SENA_APP/proyectos/models.py:57 | on edit, no budget error exactly when a budget is given and fits the column; otherwise the required or the whole-digits message |
| ProyectosForms.ErroresEdicion | SENA_APP/proyectos/forms.py:118-158 | definition: the edit form's field errors in field order, only the model's required fields and the budget column limit |
| ProyectosForms.CambiadosEn | SENA_APP/proyectos/views.py:242 | no field is reported changed exactly when none of the fields considered changes |
| ProyectosForms.CambiadosEnContiene | SENA_APP/proyectos/views.py:248 | a field is reported changed exactly when it is among those considered and its value changes |
| ProyectosForms.CambiadoSiCambia | SENA_APP/proyectos/views.py:248 | `changed_data` names a field exactly when the edit gives it a new value |
| ProyectosForms.AplicarEdicion | SENA_APP/proyectos/views.py:239 | saving the form writes the edited fields and only those: the edited part of the result reads back as the edit; id, title, area, responsible user, collaborators, creation time, real end date, active flag and version are kept |
| ProyectosForms.CamposCambiados | SENA_APP/proyectos/views.py:242-259 | definition: `changed_data`, the edited fields whose new value differs from the stored one, in form field order |
| ProyectosForms.SinCambiosSiIgual | SENA_APP/proyectos/views.py:242 | `changed_data` is empty exactly when the edit leaves the project as it was |
| ProyectosForms.CleanCalificacion | SENA_APP/proyectos/forms.py:185-195 | accepts exactly a rating from 1 to 5, or a missing/zero rating on a non-evaluation; a missing or zero rating on an evaluation gets the "obligatoria" message |
| ProyectosForms.CalificacionCasos | SENA_APP/proyectos/forms.py:189-193 | the rating rule on six concrete inputs, including 0 on an evaluation and on a suggestion |
| ProyectosForms.ValidarComentario | SENA_APP/proyectos/forms.py:160-195 | accepts exactly a non-empty text, a type and an acceptable rating; an accepted evaluation always has a rating from 1 to 5 |
| ProyectosForms.CleanArchivo | SENA_APP/proyectos/forms.py:229-235 | rejects exactly a file larger than 50 MiB |
| ProyectosForms.LimiteArchivoInclusivo | SENA_APP/proyectos/forms.py:233 | exactly 50 MiB is accepted and one byte more rejected |
| ProyectosForms.ValidarDocumento | SENA_APP/proyectos/forms.py:197-235 | accepts exactly a named, non-empty file of at most 50 MiB with a type and a version; an empty file is rejected with the framework's empty-file message; the cleaned data are the submitted name, file, type, description and version |
| ProyectosViews.EliminarImplicaEditar | SENA_APP/proyectos/views.py:229-230 | whoever may delete may edit; the only other editor is the responsible user |
| ProyectosViews.PuedeEditar | SENA_APP/proyectos/views.py:229-230 | definition: the responsible user, an admin or a coordinator may edit |
| ProyectosViews.PuedeEliminar | SENA_APP/proyectos/views.py:287 | definition: only an admin or a coordinator may delete |
| ProyectosViews.EntradaCreado | SENA_APP/proyectos/views.py:203-208 | definition: the "Proyecto creado" history row |
| ProyectosViews.EntradaEliminado | SENA_APP/proyectos/views.py:296-301 | definition: the "Proyecto eliminado" history row |
| ProyectosViews.EntradaComentario | SENA_APP/proyectos/views.py:168-173 | definition: the "Comentario agregado" history row, naming the comment type |
| ProyectosViews.EntradaDocumento | SENA_APP/proyectos/views.py:327-332 | definition: the "Documento subido" history row, naming the file |
| ProyectosViews.EntradaEstado | SENA_APP/proyectos/views.py:249-256 | definition: the "Estado actualizado" history row with its old and new state |
| ProyectosViews.EntradaActualizado | SENA_APP/proyectos/views.py:258-265 | definition: the "Proyecto actualizado" history row listing the changed fields |
| ProyectosViews.Unir | SENA_APP/proyectos/views.py:259 | definition: `', '.join`, the names with the separator between them |
| ProyectosViews.NombresCampos | SENA_APP/proyectos/views.py:259 | one name per changed field, in the same order |
| ProyectosViews.EntradasEdicion | SENA_APP/proyectos/views.py:247-265 | corrected history of an edit: nothing when nothing changed; one "updated" entry otherwise; preceded by a state entry from the old to the new state when the state changed; all entries for that project and user |
| ProyectosViews.EntradasEdicionComoEscrito | SENA_APP/proyectos/views.py:236-256 | history as the view writes it: the same as the corrected entries except that the state entry records the new state as the old one |
| ProyectosViews.EstadoAnteriorPerdido | SENA_APP/proyectos/views.py:235-256 | on a real state change the as-written entry loses the previous state, while the corrected entry keeps it |
| ProyectosViews.Editado | SENA_APP/proyectos/views.py:239-245 | the saved project has the edited values and the same id; its version goes up by one exactly when `changed_data` is not empty |
| ProyectosViews.VersionSubeSiCambia | SENA_APP/proyectos/views.py:242-243 | the version rises by one exactly when the edit alters the project; an edit that alters nothing saves the project unchanged |
| ProyectosViews.ValidarFiltro | SENA_APP/proyectos/forms.py:237-282 | the filter form is valid exactly when each choice is blank or a listed code and any responsible user is active; the cleaned filter carries those values |
| ProyectosViews.FiltroInvalidoListaTodo | SENA_APP/proyectos/views.py:90-123 | an invalid filter form applies no filter: every active project, newest first |
| ProyectosViews.HastaExcluyeElMismoDia | SENA_APP/proyectos/views.py:119-120 | as written, a project created at noon on the "to" day is dropped although it was created that day |
| ProyectosViews.HastaIncluyeElDia | SENA_APP/proyectos/views.py:119-120 | the corrected "to" bound keeps exactly the projects created before the end of that day |
| ProyectosViews.DesdeEsPorDia | SENA_APP/proyectos/views.py:116-117 | the "from" bound against midnight means "created on or after that day" |
| ProyectosViews.HastaComoEscrito | SENA_APP/proyectos/views.py:119-120 | definition: the "to" bound as written, created at or before midnight starting that day |
| ProyectosViews.Hasta | SENA_APP/proyectos/views.py:119-120 | definition: the corrected "to" bound, created on or before that day |
| ProyectosViews.HastaComoEscritoImplicaHasta | SENA_APP/proyectos/views.py:119-120 | whatever the as-written bound keeps, the corrected one keeps too |
| ProyectosViews.CoincideBusqueda | SENA_APP/proyectos/views.py:95-101 | definition: the search text occurs, ignoring ASCII case, in the title, the description or the general objectives |
| ProyectosViews.CumpleSalvoHasta | SENA_APP/proyectos/views.py:95-117 | definition: every given filter holds except the "to" date |
| ProyectosViews.CumpleFiltro | SENA_APP/proyectos/views.py:95-120 | definition: every given filter holds, with the "to" date as written |
| ProyectosViews.CumpleFiltroCorregido | SENA_APP/proyectos/views.py:95-120 | definition: every given filter holds, with the corrected "to" date |
| ProyectosViews.Recientes | SENA_APP/proyectos/views.py:60-62 | exactly the active projects, each as often as stored, newest first |
| ProyectosViews.ListaProyectos | SENA_APP/proyectos/views.py:90-123 | as written: exactly the active projects meeting every given filter, with "to" compared against midnight, newest first; with an invalid form, every active project |
| ProyectosViews.ListaProyectosCorregida | SENA_APP/proyectos/views.py:90-123 | corrected: exactly the active projects meeting every given filter, with "to" meaning "on or before that day", newest first; with an invalid form, every active project |
| ProyectosViews.ListaComoEscritaIncluida | SENA_APP/proyectos/views.py:119-120 | every project the as-written listing shows, the corrected listing shows too |
| ProyectosViews.ListaComoEscritaOmite | SENA_APP/proyectos/views.py:119-120 | an active project that meets every other filter and was created at noon on the "to" day is missing from the as-written listing and present in the corrected one |
| ProyectosViews.FiltroVacio | SENA_APP/proyectos/views.py:93-120 | a valid but blank filter lists every active project |
| ProyectosViews.MisProyectos | SENA_APP/proyectos/views.py:455-464 | the active projects the user is responsible for, and those they collaborate on, each newest first |
| ProyectosViews.ContarActivos | SENA_APP/proyectos/views.py:29 | the active count is at most the number of rows |
| ProyectosViews.ContarActivosFiltra | SENA_APP/proyectos/views.py:29 | the active count is the length of the "active" filter of the store |
| ProyectosViews.ContarActivosEsRecientes | SENA_APP/proyectos/views.py:29-62 | the dashboard's total equals the length of the newest-first active listing that the recent projects are sliced from |
| ProyectosViews.ContarEstado | SENA_APP/proyectos/views.py:35-39 | a per-state count never exceeds the active count |
| ProyectosViews.ContarArea | SENA_APP/proyectos/views.py:42-46 | a per-area count never exceeds the active count |
| ProyectosViews.ContarEnCurso | SENA_APP/proyectos/views.py:30-33 | the in-course count never exceeds the active count |
| ProyectosViews.SumaPorEstado | SENA_APP/proyectos/views.py:29-39 | the six per-state counts add up to the active count |
| ProyectosViews.SumaPorArea | SENA_APP/proyectos/views.py:29-46 | the four per-area counts add up to the active count |
| ProyectosViews.EnCursoPorEstado | SENA_APP/proyectos/views.py:30-39 | the in-course count is the approved count plus the in-execution count |
| ProyectosViews.Atrasados | SENA_APP/proyectos/views.py:64-70 | the loop's filter keeps, in the order given, at most as many rows as it is given |
| ProyectosViews.AtrasadosSon | SENA_APP/proyectos/views.py:64-70 | the loop keeps exactly the given projects that are active and that `is_atrasado` would flag |
| ProyectosViews.ConsultaAtrasados | SENA_APP/proyectos/views.py:64-70 | definition: the overdue query, which has no `order_by` and so follows the default ordering of models.py:98: the loop's filter over the active projects, newest first |
| ProyectosViews.NuevosPrimero | SENA_APP/proyectos/models.py:98 | definition: newest first, no project before one created later |
| ProyectosViews.AtrasadosConservaOrden | SENA_APP/proyectos/views.py:64-70 | the loop's filter keeps a newest-first sequence newest first |
| ProyectosViews.ConsultaAtrasadosSon | SENA_APP/proyectos/views.py:64-70 | the overdue query, which follows the default ordering of models.py:98, holds exactly the stored projects that are active and overdue, newest first |
| ProyectosViews.FiltrarAtrasados | SENA_APP/proyectos/views.py:64-70 | the loop appends, in order, exactly the given projects that are active and overdue |
| ProyectosViews.AtrasadosMostrados | SENA_APP/proyectos/views.py:64-82 | the dashboard shows at most five overdue projects, each really overdue, none older than an overdue project it leaves out, and all of them when there are at most five |
| ProyectosViews.PrimerosSonNuevos | SENA_APP/proyectos/views.py:82 | the first n of a newest-first sequence come from it and are no older than any member they leave out |
| ProyectosViews.GestorProyectos.constructor | SENA_APP/proyectos/models.py:36-184 | an empty store satisfies the store invariant |
| ProyectosViews.GestorProyectos.CrearProyecto | SENA_APP/proyectos/views.py:192-208 | unknown user: 404 and no change; invalid form: its errors and no change; otherwise exactly one new project with the defaults and one "created" entry |
| ProyectosViews.GestorProyectos.EditarProyecto | SENA_APP/proyectos/views.py:225-265 | missing/deleted project or unknown user: 404; neither responsible user nor admin/coordinator: refusal; invalid form: errors; in none of these cases anything changes; otherwise only that project is replaced by its edited version, and the corrected edit entries are appended |
| ProyectosViews.GestorProyectos.EliminarProyecto | SENA_APP/proyectos/views.py:283-301 | only admins and coordinators may delete; a delete only clears the active flag, and logs one entry |
| ProyectosViews.GestorProyectos.AgregarComentario | SENA_APP/proyectos/views.py:141-173 | on an active project, a valid comment is appended as a top-level active comment by the user and logged once; otherwise nothing changes |
| ProyectosViews.GestorProyectos.ResponderComentario | SENA_APP/proyectos/views.py:349-359 | a valid reply to an active comment is appended under that comment and its project; nothing is logged |
| ProyectosViews.GestorProyectos.SubirDocumento | SENA_APP/proyectos/views.py:315-332 | on an active project, a valid upload is appended as an active document by the user and logged once; otherwise nothing changes |
| ProyectosViews.GestorProyectos.ContarPorEstado | SENA_APP/proyectos/views.py:35-39 | one entry per state choice, each the active count in that state |
| ProyectosViews.GestorProyectos.ContarPorArea | SENA_APP/proyectos/views.py:42-46 | one entry per area choice, each the active count in that area |
| ProyectosViews.GestorProyectos.ListarAtrasados | SENA_APP/proyectos/views.py:64-70 | the loop runs over the active projects newest first and builds exactly the overdue query's result |
| ProyectosViews.GestorProyectos.Dashboard | SENA_APP/proyectos/views.py:22-83 | nothing for an unknown user; otherwise every count, both tables, the five newest active projects and the five newest overdue ones |
| AprendicesForms.CleanDocumentoIdentidad | SENA_APP/aprendices/forms.py:84-93 | accepts exactly an all-digit document not yet registered; the digit check comes first, then the duplicate check, each with its own message |
| AprendicesForms.CleanTelefono | SENA_APP/aprendices/forms.py:95-99 | accepts exactly a blank or all-digit phone |
| AprendicesForms.SoloDigitos | SENA_APP/aprendices/forms.py:86 | definition: `str.isdigit`, non-empty and only the characters 0 to 9 |
| AprendicesForms.DigitosEjemplos | SENA_APP/aprendices/forms.py:84-99 | the two checks on concrete documents and phones |
| AprendicesForms.ErrorDocumento | SENA_APP/aprendices/forms.py:6-13 | no document error exactly when the document check passes |
| AprendicesForms.ErrorTelefono | SENA_APP/aprendices/forms.py:38-46 | no phone error exactly when the phone check passes |
| AprendicesForms.ErrorRegistro | SENA_APP/aprendices/forms.py:73-82 | the record-level check passes exactly when the document validated and name and surname are filled; otherwise its single message |
| AprendicesForms.ValidarAprendiz | SENA_APP/aprendices/forms.py:5-99 | accepts exactly an all-digit unregistered document, a name, a surname, a programme, a blank or all-digit phone and a birth date; the cleaned data are the submitted values |
| AprendicesForms.DocumentoRepetidoDobleError | SENA_APP/aprendices/forms.py:73-93 | an already registered document is reported both by its own check and by the record-level message |
| AprendicesForms.FaltaNombreError | SENA_APP/aprendices/forms.py:73-80 | a missing document, name or surname raises the record-level message |
| AprendicesForms.NuevoAprendiz | SENA_APP/aprendices/forms.py:103-119 | the inserted row has every cleaned value under the new id |
| AprendicesForms.Documentos | SENA_APP/aprendices/forms.py:90 | the registered documents are exactly those of the stored learners |
| AprendicesForms.AgregarConservaUnicos | SENA_APP/aprendices/forms.py:89-93 | adding a learner whose document is not registered keeps documents unique |
| AprendicesForms.RegistroAprendices.Guardar | SENA_APP/aprendices/forms.py:103-119 | save inserts exactly one row holding the cleaned data |
| AprendicesForms.RegistroAprendices.Registrar | SENA_APP/aprendices/forms.py:73-119 | a rejected submission leaves the store alone; an accepted one adds one row; a store without duplicate documents stays without them |
| AprendicesViews.PorApellidoNombreOrdena | SENA_APP/aprendices/views.py:21-23 | ordering by surname and then name is a total preorder |
| AprendicesViews.PorApellidoNombre | SENA_APP/aprendices/views.py:21-23 | definition: `order_by('apellido', 'nombre')`, surname first, then name |
| AprendicesViews.BusquedaVaciaCoincide | SENA_APP/aprendices/views.py:15-23 | every learner matches the empty query, so the unfiltered branch agrees with searching for "" |
| AprendicesViews.Coincide | SENA_APP/aprendices/views.py:16-21 | definition: the query occurs, ignoring ASCII case, in the name, surname, document or programme |
| AprendicesViews.Buscar | SENA_APP/aprendices/views.py:12-23 | every learner for an empty query, otherwise exactly the matching ones (each as often as stored), ordered by surname and name |
| AprendicesViews.Aprendices | SENA_APP/aprendices/views.py:27-31 | the total shown is the length of the list, at most the number stored, and all of them for an empty query |
| AprendicesViews.Programas | SENA_APP/aprendices/views.py:42-44 | the programmes are exactly the non-null, non-empty programmes of the learners, with no more entries than learners |
| AprendicesViews.ProgramasSonLosFiltrados | SENA_APP/aprendices/views.py:42-44 | the programme list has one entry per learner the "has a programme" filter keeps, and its i-th entry is the programme of the i-th such learner |
| AprendicesViews.Inicio | SENA_APP/aprendices/views.py:40-44 | the total, the number of learners with a non-null non-empty programme (at most the total) and the number of distinct programmes among them (at most that, and at least one when any exist) |
| Secuencias.Filter | SENA_APP/proyectos/views.py:91 | a filter keeps exactly the matching rows, each as often as stored |
| Secuencias.Take | SENA_APP/proyectos/views.py:62 | a slice `[:n]` is a prefix with at most n rows, and the whole sequence when it is shorter |
| Secuencias.Sort | SENA_APP/proyectos/views.py:123 | `order_by` is a permutation of its input |
| Secuencias.SortSorted | SENA_APP/proyectos/views.py:123 | `order_by` on a total preorder yields a sorted sequence |
| Secuencias.ContainsAt | SENA_APP/proyectos/views.py:98-100 | containment means an occurrence at some position |
| Secuencias.EmptyContained | SENA_APP/aprendices/views.py:15 | the empty text occurs in every text |
| Tiempo.FechaDe | SENA_APP/proyectos/views.py:117-120 | a timestamp lies between the midnight of its date and the next midnight |
| Tiempo.DesdeMedianoche | SENA_APP/proyectos/views.py:117 | a timestamp is at or after midnight of a day exactly when its date is on or after that day |
| Formularios.Requerido | SENA_APP/proyectos/forms.py:97-98 | a required text field errs exactly when it is empty, and then with the framework's "required" message |
| Formularios.RequeridoOpcion | SENA_APP/proyectos/forms.py:97-98 | a required choice, number or date errs exactly when it is missing, with the same message |

## Left out

- I/O and rendering are not modelled: templates, redirects, flash messages and pagination (`Paginator(proyectos, 10)` only slices the modelled list). GET requests only render, and they change nothing.
- Authentication and the lookup of the signed-in user are not modelled. They arrive as `Option<Usuario>`.
- The clock (`timezone.now()`) is a parameter, and the time zone is not modelled: dates and timestamps are one UTC-like timeline.
- Concurrency is not modelled. Two requests that race between the duplicate-document check and the insert can both succeed; each method is one atomic step.
- `reportes`, `api_buscar_usuarios`, `api_proyecto_estadisticas` and `Documento.get_size_mb` are not part of this model. `reportes` also calls `models.Sum` (views.py:374 and 394) although the name `models` is never imported.
- The project-detail page's read-only listings are not modelled: top-level comments, documents and the last ten history rows. Only its comment POST is.
- Framework field cleaning is not modelled: whitespace stripping, `max_length`, the e-mail syntax check of `correo`, and the parsing of dates and decimals. Submitted values arrive already typed.
- `SoloDigitos`: Python's `str.isdigit` also accepts non-ASCII digits, but the model accepts only `0`–`9`.
- Names sort by character code, not by the database collation. `icontains` lowers ASCII letters only.
- `changed_data` is approximated: it compares the cleaned values with the stored ones, rather than the rendered initial values. Values that render alike but differ in the store are not distinguished.
- `porcentaje_completitud` is not an invariant of the store: neither the edit form nor the model checks its 0–100 range, so the model accepts any integer.
- `aprendices/models.py` is not part of this model. The nullability of the learner columns (a programme can be null, used by the start page) is taken from how the views query them.
- `aprendices/views.py` has no registration view. `RegistroAprendices.Registrar` stands for the usual `is_valid()`-then-`save()` use of the form.
- `ValidarEdicion`: does not state which message each reported error carries; `ErrorPresupuestoEdicion` and `Formularios.Requerido` state that per field.
- `ErrorPresupuesto`: a budget with more than 12 digits in all gets the whole-digits message. Depending on how the number was written, the framework may instead report the total-digits message. More than two decimal places are not modelled, since the budget arrives as whole cents.
- The integer columns (`porcentaje_completitud`, `calificacion`) have database ranges that the model does not check.
- The `programas` application and the URL configuration are not part of this model.

## Findings

| source | as written | input that shows it | evidently intended | confidence | as-written member | corrected member |
|---|---|---|---|---|---|---|
| SENA_APP/proyectos/views.py:235-256 | the previous state is read from the instance after `form.is_valid()`. Validation has already copied the submitted values into the instance, so the history row logs the new state as both the old and the new state | a project in `propuesto`, edited by its responsible user with state `aprobado`: the entry reads "Estado cambiado de aprobado a aprobado" | read `estado_anterior` before validation; the entry records `propuesto` → `aprobado` | high; not executed | ProyectosViews.EntradasEdicionComoEscrito, ProyectosViews.EstadoAnteriorPerdido | ProyectosViews.EntradasEdicion |
| SENA_APP/proyectos/views.py:119-120 | `fecha_creacion__lte=fecha_hasta` compares a timestamp with a date, which means midnight at the start of that day | a project created at 12:00 on 2024-05-10, listed with "hasta" = 2024-05-10: it is excluded | include everything created on the "to" day (`fecha_creacion__date__lte`) | medium; not executed | ProyectosViews.HastaComoEscrito, ProyectosViews.HastaExcluyeElMismoDia, ProyectosViews.ListaProyectos, ProyectosViews.ListaComoEscritaOmite | ProyectosViews.Hasta, ProyectosViews.HastaIncluyeElDia, ProyectosViews.ListaProyectosCorregida |
