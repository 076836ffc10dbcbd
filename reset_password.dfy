/**
 * The password-reset form: the four rules the new password must meet, and
 * what submitting the form does with them. The account update is a
 * parameter: the error message it answered with, or None on success.
 */
module ResetPassword {
  import opened Tipos

  const LONGITUD_MINIMA: nat := 8
  const ERROR_REQUISITOS: string := "La contraseña no cumple con los requisitos."

  /** The four rules, in the order the form lists them. */
  datatype Reglas = Reglas(longitud: bool, mayuscula: bool, numero: bool, coincide: bool)

  /** `/[A-Z]/`: an ASCII capital letter. */
  predicate EsMayuscula(c: char)
  {
    'A' <= c <= 'Z'
  }

  /** `/[0-9]/`: an ASCII digit. */
  predicate EsDigito(c: char)
  {
    '0' <= c <= '9'
  }

  /** `/[A-Z]/.test(password)`: scans the password for a capital letter. */
  function TieneMayuscula(p: string): (r: bool)
    ensures r <==> exists i :: 0 <= i < |p| && EsMayuscula(p[i])
  {
    if p == [] then false
    else if EsMayuscula(p[|p| - 1]) then true
    else
      var r0 := TieneMayuscula(p[..|p| - 1]);
      assert forall i :: 0 <= i < |p| - 1 ==> p[..|p| - 1][i] == p[i];
      r0
  }

  /** `/[0-9]/.test(password)`: scans the password for a digit. */
  function TieneDigito(p: string): (r: bool)
    ensures r <==> exists i :: 0 <= i < |p| && EsDigito(p[i])
  {
    if p == [] then false
    else if EsDigito(p[|p| - 1]) then true
    else
      var r0 := TieneDigito(p[..|p| - 1]);
      assert forall i :: 0 <= i < |p| - 1 ==> p[..|p| - 1][i] == p[i];
      r0
  }

  /** `rules`, evaluated on the two fields. */
  function ReglasDe(password: string, confirmacion: string): (r: Reglas)
    ensures r.longitud <==> |password| >= LONGITUD_MINIMA
    ensures r.mayuscula <==> exists i :: 0 <= i < |password| && EsMayuscula(password[i])
    ensures r.numero <==> exists i :: 0 <= i < |password| && EsDigito(password[i])
    ensures r.coincide <==> |password| > 0 && password == confirmacion
  {
    Reglas(|password| >= LONGITUD_MINIMA, TieneMayuscula(password), TieneDigito(password),
           |password| > 0 && password == confirmacion)
  }

  /** `allValid`: every rule holds. */
  predicate TodasValidas(r: Reglas)
  {
    r.longitud && r.mayuscula && r.numero && r.coincide
  }

  /**
   * A password the form accepts is at least eight characters long, holds a
   * capital letter and a digit, and is exactly what was typed again.
   */
  lemma AceptadaCumple(password: string, confirmacion: string)
    requires TodasValidas(ReglasDe(password, confirmacion))
    ensures |password| >= LONGITUD_MINIMA && password == confirmacion
    ensures exists i, j :: 0 <= i < |password| && 0 <= j < |password| && EsMayuscula(password[i]) && EsDigito(password[j])
  {
    var r := ReglasDe(password, confirmacion);
    var i :| 0 <= i < |password| && EsMayuscula(password[i]);
    var j :| 0 <= j < |password| && EsDigito(password[j]);
  }

  /** An empty password never matches, not even an empty confirmation, so the form refuses it. */
  lemma VaciaRechazada(confirmacion: string)
    ensures !ReglasDe("", confirmacion).coincide
    ensures !TodasValidas(ReglasDe("", confirmacion))
  {
  }

  /** A capital letter and a digit cannot be the same character, so an accepted password has two distinct positions for them. */
  lemma MayusculaYDigitoDistintos(password: string, confirmacion: string)
    requires TodasValidas(ReglasDe(password, confirmacion))
    ensures exists i, j :: 0 <= i < |password| && 0 <= j < |password| && i != j &&
                           EsMayuscula(password[i]) && EsDigito(password[j])
  {
    AceptadaCumple(password, confirmacion);
    var i, j :| 0 <= i < |password| && 0 <= j < |password| && EsMayuscula(password[i]) && EsDigito(password[j]);
    assert i != j;
  }

  /** The form's state that submitting changes. */
  datatype Formulario = Formulario(password: string, confirmacion: string, loading: bool, error: Option<string>)

  /** What submitting produced: the new state, whether the update was asked for, and whether the page moved on. */
  datatype Envio = Envio(estado: Formulario, actualiza: bool, navega: bool)

  /**
   * `handleSubmit`: a form whose rules do not all hold gets the fixed
   * message and no update; otherwise the update runs, loading is switched
   * off, and the page moves on only when the update reports no error, whose
   * message is shown otherwise.
   */
  function Enviar(f: Formulario, errorUpdate: Option<string>): (e: Envio)
    ensures e.estado.password == f.password && e.estado.confirmacion == f.confirmacion
    ensures !TodasValidas(ReglasDe(f.password, f.confirmacion)) ==>
              e.estado == f.(error := Some(ERROR_REQUISITOS)) && !e.actualiza && !e.navega
    ensures TodasValidas(ReglasDe(f.password, f.confirmacion)) ==>
              e.actualiza && !e.estado.loading && e.estado.error == errorUpdate && (e.navega <==> errorUpdate.None?)
  {
    var limpio := f.(error := None);
    if !TodasValidas(ReglasDe(f.password, f.confirmacion)) then
      Envio(limpio.(error := Some(ERROR_REQUISITOS)), false, false)
    else
      var tras := limpio.(loading := false);
      match errorUpdate
      case Some(msg) => Envio(tras.(error := Some(msg)), true, false)
      case None => Envio(tras, true, true)
  }

  /** A submit that moves on asked for the update with a password that meets every rule. */
  lemma NavegaSoloSiValida(f: Formulario, errorUpdate: Option<string>)
    requires Enviar(f, errorUpdate).navega
    ensures Enviar(f, errorUpdate).actualiza && errorUpdate.None? && Enviar(f, errorUpdate).estado.error.None?
    ensures |f.password| >= LONGITUD_MINIMA && f.password == f.confirmacion
  {
    AceptadaCumple(f.password, f.confirmacion);
  }
}
