/** What a Django form reports when it does not validate: field-level errors
    (`form.errors[name]`) and record-level errors (`non_field_errors()`), in
    the order the form raised them. */
module Formularios {
  import opened Wrappers


  datatype ErrorFormulario =
    | ErrorCampo(campo: string, mensaje: string)
    | ErrorGeneral(mensaje: string)

  /** The framework's message for a required field left empty. */
  const REQUERIDO: string := "Este campo es obligatorio."

  /** The framework's message for a choice outside the allowed queryset. */
  const OPCION_INVALIDA: string := "Escoja una opción válida. Esa opción no está entre las disponibles."

  /** The framework's message for an uploaded file of zero bytes. */
  const ARCHIVO_VACIO: string := "El fichero enviado está vacío."

  /** The framework's message for a decimal with more whole digits than its
      column allows (`max_digits - decimal_places`, here ten). */
  const DEMASIADOS_DIGITOS: string := "Asegúrese de que no haya más de 10 dígitos antes del punto decimal."

  /** The field-level errors of a required text field: Django treats the empty
      string as a missing value. */
  function Requerido(campo: string, valor: string): (r: seq<ErrorFormulario>)
    ensures r == [] <==> valor != ""
    ensures r != [] ==> r == [ErrorCampo(campo, REQUERIDO)]
  {
    if valor == "" then [ErrorCampo(campo, REQUERIDO)] else []
  }

  /** Errors of a required choice field. */
  function RequeridoOpcion<T>(campo: string, valor: Option<T>): (r: seq<ErrorFormulario>)
    ensures r == [] <==> valor.Some?
    ensures r != [] ==> r == [ErrorCampo(campo, REQUERIDO)]
  {
    if valor.None? then [ErrorCampo(campo, REQUERIDO)] else []
  }
}
