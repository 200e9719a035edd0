/** The learner form (`aprendices/forms.py`): its field checks, its
    record-level check, and `save` as an insert into the learner store. */
module AprendicesForms {
  import opened Wrappers
  import opened Tiempo
  import opened Formularios

  /** A stored learner. Text columns the form may leave blank, and the
      programme, may also be null in the store. */
  datatype Aprendiz = Aprendiz(
    id: nat,
    documentoIdentidad: string,
    nombre: string,
    apellido: string,
    programa: Option<string>,
    telefono: Option<string>,
    correo: Option<string>,
    fechaNacimiento: Fecha,
    ciudad: Option<string>)

  const DOCUMENTO_NO_NUMERICO: string := "El documento debe contener solo números."
  const DOCUMENTO_REPETIDO: string := "Ya existe un aprendiz con este documento."
  const TELEFONO_NO_NUMERICO: string := "El teléfono debe contener solo números."
  const FALTAN_OBLIGATORIOS: string := "Los campos documento, nombre y apellido son obligatorios."

  /** `str.isdigit()` on ASCII text: at least one character, and every
      character a decimal digit. */
  predicate SoloDigitos(s: string)
  {
    s != [] && forall i :: 0 <= i < |s| ==> '0' <= s[i] <= '9'
  }

  /** `clean_documento_identidad`, given the documents already stored (all
      learners, with no filter on any status). */
  function CleanDocumentoIdentidad(documento: string, existentes: set<string>): (r: Result<string, string>)
    ensures r.Ok? <==> SoloDigitos(documento) && documento !in existentes
    ensures r.Ok? ==> r.value == documento
    ensures !SoloDigitos(documento) ==> r == Err(DOCUMENTO_NO_NUMERICO)
    ensures SoloDigitos(documento) && documento in existentes ==> r == Err(DOCUMENTO_REPETIDO)
  {
    if !SoloDigitos(documento) then Err(DOCUMENTO_NO_NUMERICO)
    else if documento in existentes then Err(DOCUMENTO_REPETIDO)
    else Ok(documento)
  }

  /** `clean_telefono`: a blank phone passes; any other must be digits. */
  function CleanTelefono(telefono: string): (r: Result<string, string>)
    ensures r.Ok? <==> telefono == "" || SoloDigitos(telefono)
    ensures r.Ok? ==> r.value == telefono
    ensures r.Err? ==> r.error == TELEFONO_NO_NUMERICO
  {
    if telefono != "" && !SoloDigitos(telefono) then Err(TELEFONO_NO_NUMERICO) else Ok(telefono)
  }

  lemma DigitosEjemplos()
    ensures CleanDocumentoIdentidad("1020304050", {}) == Ok("1020304050")
    ensures CleanDocumentoIdentidad("10-20", {}) == Err(DOCUMENTO_NO_NUMERICO)
    ensures CleanDocumentoIdentidad("123", {"123"}) == Err(DOCUMENTO_REPETIDO)
    ensures CleanTelefono("") == Ok("")
    ensures CleanTelefono("300 123") == Err(TELEFONO_NO_NUMERICO)
  {
    assert !SoloDigitos("10-20") by { assert "10-20"[2] == '-'; }
    assert !SoloDigitos("300 123") by { assert "300 123"[3] == ' '; }
  }

  /** What the form receives: text as strings (empty when absent), the
      birth date None when absent. */
  datatype AprendizEntrada = AprendizEntrada(
    documentoIdentidad: string,
    nombre: string,
    apellido: string,
    programa: string,
    telefono: string,
    correo: string,
    fechaNacimiento: Option<Fecha>,
    ciudad: string)

  /** The cleaned data. */
  datatype DatosAprendiz = DatosAprendiz(
    documentoIdentidad: string,
    nombre: string,
    apellido: string,
    programa: string,
    telefono: string,
    correo: string,
    fechaNacimiento: Fecha,
    ciudad: string)

  /** Errors of the document field: required, then its own check (which
      only runs on a value that passed the required check). */
  function ErrorDocumento(documento: string, existentes: set<string>): (r: seq<ErrorFormulario>)
    ensures r == [] <==> CleanDocumentoIdentidad(documento, existentes).Ok?
  {
    if documento == "" then [ErrorCampo("documento_identidad", REQUERIDO)]
    else
      match CleanDocumentoIdentidad(documento, existentes)
      case Err(m) => [ErrorCampo("documento_identidad", m)]
      case Ok(_) => []
  }

  function ErrorTelefono(telefono: string): (r: seq<ErrorFormulario>)
    ensures r == [] <==> CleanTelefono(telefono).Ok?
  {
    match CleanTelefono(telefono)
    case Err(m) => [ErrorCampo("telefono", m)]
    case Ok(_) => []
  }

  /** `clean`: it sees a document only if the document field validated, so
      any document error also raises the record-level error. */
  function ErrorRegistro(e: AprendizEntrada, existentes: set<string>): (r: seq<ErrorFormulario>)
    ensures r == [] <==> CleanDocumentoIdentidad(e.documentoIdentidad, existentes).Ok? && e.nombre != "" && e.apellido != ""
    ensures r != [] ==> r == [ErrorGeneral(FALTAN_OBLIGATORIOS)]
  {
    if ErrorDocumento(e.documentoIdentidad, existentes) != [] || e.nombre == "" || e.apellido == "" then
      [ErrorGeneral(FALTAN_OBLIGATORIOS)]
    else []
  }

  /** `AprendizForm.is_valid()` and its cleaned data: the fields in order,
      then `clean`. `programa` and `fecha_nacimiento` are required too. */
  function ValidarAprendiz(e: AprendizEntrada, existentes: set<string>): (r: Result<DatosAprendiz, seq<ErrorFormulario>>)
    ensures r.Ok? <==>
      && SoloDigitos(e.documentoIdentidad) && e.documentoIdentidad !in existentes
      && e.nombre != "" && e.apellido != "" && e.programa != ""
      && (e.telefono == "" || SoloDigitos(e.telefono))
      && e.fechaNacimiento.Some?
    ensures r.Err? ==> r.error != []
    ensures r.Ok? ==> r.value == DatosAprendiz(e.documentoIdentidad, e.nombre, e.apellido, e.programa,
      e.telefono, e.correo, e.fechaNacimiento.value, e.ciudad)
  {
    var errores :=
      ErrorDocumento(e.documentoIdentidad, existentes)
      + Requerido("nombre", e.nombre)
      + Requerido("apellido", e.apellido)
      + Requerido("programa", e.programa)
      + ErrorTelefono(e.telefono)
      + RequeridoOpcion("fecha_nacimiento", e.fechaNacimiento)
      + ErrorRegistro(e, existentes);
    if errores == [] then
      Ok(DatosAprendiz(e.documentoIdentidad, e.nombre, e.apellido, e.programa,
        e.telefono, e.correo, e.fechaNacimiento.value, e.ciudad))
    else
      Err(errores)
  }

  /** A document that is already taken is reported twice: by its own check
      and, because the record-level check then finds no document, by the
      record-level error as well. */
  lemma DocumentoRepetidoDobleError(e: AprendizEntrada, existentes: set<string>)
    requires SoloDigitos(e.documentoIdentidad) && e.documentoIdentidad in existentes
    ensures ValidarAprendiz(e, existentes).Err?
    ensures ErrorCampo("documento_identidad", DOCUMENTO_REPETIDO) in ValidarAprendiz(e, existentes).error
    ensures ErrorGeneral(FALTAN_OBLIGATORIOS) in ValidarAprendiz(e, existentes).error
  {
  }

  /** A missing name or surname raises the record-level error. */
  lemma FaltaNombreError(e: AprendizEntrada, existentes: set<string>)
    requires e.nombre == "" || e.apellido == "" || e.documentoIdentidad == ""
    ensures ValidarAprendiz(e, existentes).Err?
    ensures ErrorGeneral(FALTAN_OBLIGATORIOS) in ValidarAprendiz(e, existentes).error
  {
  }

  /** The row `save` inserts: every cleaned value, the optional ones as
      given (blank text when left empty); `id` is the new row's id. */
  function NuevoAprendiz(id: nat, d: DatosAprendiz): (a: Aprendiz)
    ensures a.id == id && a.documentoIdentidad == d.documentoIdentidad
    ensures a.nombre == d.nombre && a.apellido == d.apellido && a.fechaNacimiento == d.fechaNacimiento
    ensures a.programa == Some(d.programa) && a.telefono == Some(d.telefono)
    ensures a.correo == Some(d.correo) && a.ciudad == Some(d.ciudad)
  {
    Aprendiz(id, d.documentoIdentidad, d.nombre, d.apellido, Some(d.programa),
      Some(d.telefono), Some(d.correo), d.fechaNacimiento, Some(d.ciudad))
  }

  /** The documents of the stored learners. */
  function Documentos(aprendices: seq<Aprendiz>): (r: set<string>)
    ensures forall d :: d in r <==> exists a :: a in aprendices && a.documentoIdentidad == d
  {
    set a | a in aprendices :: a.documentoIdentidad
  }

  /** No two stored learners share a document. */
  predicate DocumentosUnicos(aprendices: seq<Aprendiz>)
  {
    forall i, j :: 0 <= i < j < |aprendices| ==> aprendices[i].documentoIdentidad != aprendices[j].documentoIdentidad
  }

  /** A learner that passed validation against the store can be appended
      without creating a duplicate document. */
  lemma AgregarConservaUnicos(aprendices: seq<Aprendiz>, a: Aprendiz)
    requires DocumentosUnicos(aprendices)
    requires a.documentoIdentidad !in Documentos(aprendices)
    ensures DocumentosUnicos(aprendices + [a])
  {
    var s := aprendices + [a];
    forall i, j | 0 <= i < j < |s| ensures s[i].documentoIdentidad != s[j].documentoIdentidad {
      if j == |aprendices| {
        assert s[i] in aprendices;
      }
    }
  }

  /** The learner store. Row ids are positions. */
  class RegistroAprendices {
    var aprendices: seq<Aprendiz>

    ghost predicate Valid()
      reads this
    {
      forall i :: 0 <= i < |aprendices| ==> aprendices[i].id == i
    }

    constructor()
      ensures Valid() && aprendices == []
    {
      aprendices := [];
    }

    /** `save`: insert exactly one row holding the cleaned data. */
    method Guardar(d: DatosAprendiz) returns (a: Aprendiz)
      requires Valid()
      modifies this
      ensures Valid()
      ensures a == NuevoAprendiz(|old(aprendices)|, d)
      ensures aprendices == old(aprendices) + [a]
    {
      a := NuevoAprendiz(|aprendices|, d);
      aprendices := aprendices + [a];
    }

    /** The form's ordinary use, `is_valid()` and then `save()`: a rejected
        submission leaves the store alone; an accepted one adds one row, and
        a store without duplicate documents stays without them. */
    method Registrar(e: AprendizEntrada) returns (r: Result<Aprendiz, seq<ErrorFormulario>>)
      requires Valid()
      modifies this
      ensures Valid()
      ensures ValidarAprendiz(e, Documentos(old(aprendices))).Err? ==>
        r == Err(ValidarAprendiz(e, Documentos(old(aprendices))).error) && aprendices == old(aprendices)
      ensures ValidarAprendiz(e, Documentos(old(aprendices))).Ok? ==>
        && r == Ok(NuevoAprendiz(|old(aprendices)|, ValidarAprendiz(e, Documentos(old(aprendices))).value))
        && aprendices == old(aprendices) + [r.value]
      ensures DocumentosUnicos(old(aprendices)) ==> DocumentosUnicos(aprendices)
    {
      var v := ValidarAprendiz(e, Documentos(aprendices));
      if v.Err? {
        return Err(v.error);
      }
      ghost var antes := aprendices;
      var a := Guardar(v.value);
      if DocumentosUnicos(antes) {
        AgregarConservaUnicos(antes, a);
      }
      r := Ok(a);
    }
  }
}
