/** Small value types shared by the pages of the barbershop panel. */
module Tipos {

  /** A value that may be absent: JavaScript's null/undefined. */
  datatype Option<+T> = None | Some(value: T)

  /** The outcome of one read from the hosted backend: the rows it returned, or the error object. */
  datatype Respuesta<+T> = Ok(datos: T) | Falla

  /** `m[k]` on a JavaScript object used as a dictionary, with the value a missing key reads as. */
  function Get<K, V>(m: map<K, V>, k: K, ausente: V): V
  {
    if k in m then m[k] else ausente
  }
}
