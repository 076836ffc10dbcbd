/**
 * The daily availability page: each barber's stored status row, the form
 * state the page keeps per barber, the validation a save must pass, the row
 * a save writes, and the one-line summary shown under each barber.
 *
 * Empty and missing values are the same here, as JavaScript's truthiness
 * makes them: a missing or null text is "", a missing check box is false.
 */
module EstadoDiario {
  import opened Tipos

  type Id = string

  const DISPONIBLE: string := "disponible"
  const EN_ALMUERZO: string := "en_almuerzo"
  const NO_DISPONIBLE: string := "no_disponible"

  const ERROR_HORAS: string := "Debes indicar la hora de colación y la hora de regreso, o marcar “Todo el día”."
  const ERROR_REGRESO: string := "Debes indicar la hora de regreso."

  datatype Barbero = Barbero(id: Id, nombre: string)

  /** A row of `estado_actual`; a null time column reads as "". */
  datatype FilaEstado = FilaEstado(barberoId: Id, estado: string, horaVuelve: string, horaColacion: string)

  /** The row a save upserts (keyed by barber); None is a null column. */
  datatype Upsert = Upsert(barberoId: Id, estado: string, horaColacion: Option<string>, horaVuelve: Option<string>)

  /* ---------------- Pure helpers ---------------- */

  /**
   * `formatTimeValue`: an empty value has no text; otherwise the `HH:MM`
   * head of a `HH:MM:SS` column, a shorter text as it is.
   */
  function FormatTimeValue(t: string): (r: Option<string>)
    ensures r.Some? <==> t != ""
    ensures r.Some? ==> r.value <= t && |r.value| == (if |t| < 5 then |t| else 5)
  {
    if t == "" then None
    else if |t| >= 5 then Some(t[..5])
    else Some(t)
  }

  /** Formatting an already formatted time changes nothing. */
  lemma FormatTimeValueIdempotente(t: string)
    requires t != ""
    ensures FormatTimeValue(FormatTimeValue(t).value) == FormatTimeValue(t)
  {
    if |t| >= 5 {
      assert t[..5][..5] == t[..5];
    }
  }

  /** `todoElDia`: the check box counts for "disponible" and "no_disponible" only. */
  function TodoElDia(estado: string, marcado: bool): (r: bool)
    ensures r ==> marcado && (estado == DISPONIBLE || estado == NO_DISPONIBLE)
    ensures (estado == DISPONIBLE || estado == NO_DISPONIBLE) && marcado ==> r
  {
    if estado == DISPONIBLE || estado == NO_DISPONIBLE then marcado else false
  }

  /**
   * The checks `actualizarEstado` makes before it writes, in its order: the
   * message it shows, or None when the save may go ahead.
   */
  function Validar(estado: string, todoElDia: bool, colacion: string, vuelve: string): (r: Option<string>)
    ensures r == Some(ERROR_HORAS) <==> estado == DISPONIBLE && !todoElDia && (colacion == "" || vuelve == "")
    ensures r == Some(ERROR_REGRESO) <==>
      (estado == EN_ALMUERZO || estado == NO_DISPONIBLE) && !todoElDia && vuelve == ""
    ensures r.None? || r == Some(ERROR_HORAS) || r == Some(ERROR_REGRESO)
  {
    if estado == DISPONIBLE && !todoElDia && (colacion == "" || vuelve == "") then Some(ERROR_HORAS)
    else if (estado == EN_ALMUERZO || estado == NO_DISPONIBLE) && !todoElDia && vuelve == "" then Some(ERROR_REGRESO)
    else None
  }

  /** The row a save writes: lunch time only when available part of the day, return time unless all day. */
  function Payload(id: Id, estado: string, todoElDia: bool, colacion: string, vuelve: string): (u: Upsert)
    ensures u.barberoId == id && u.estado == estado
    ensures u.horaColacion.Some? <==> estado == DISPONIBLE && !todoElDia
    ensures u.horaColacion.Some? ==> u.horaColacion.value == colacion
    ensures u.horaVuelve.None? <==> todoElDia
    ensures u.horaVuelve.Some? ==> u.horaVuelve.value == vuelve
  {
    Upsert(id, estado,
           if estado == DISPONIBLE && !todoElDia then Some(colacion) else None,
           if todoElDia then None else Some(vuelve))
  }

  /**
   * What validation buys: for one of the three statuses, a row that passes
   * it never writes an empty time, a lunch status always writes its return
   * time, and "not available" writes none exactly when the box is checked.
   */
  lemma GuardadoSinHorasVacias(estado: string, marcado: bool, colacion: string, vuelve: string, id: Id)
    requires estado == DISPONIBLE || estado == EN_ALMUERZO || estado == NO_DISPONIBLE
    requires Validar(estado, TodoElDia(estado, marcado), colacion, vuelve).None?
    ensures var u := Payload(id, estado, TodoElDia(estado, marcado), colacion, vuelve);
            (u.horaColacion.Some? ==> u.horaColacion.value != "") &&
            (u.horaVuelve.Some? ==> u.horaVuelve.value != "") &&
            (estado == EN_ALMUERZO ==> u.horaVuelve.Some? && u.horaColacion.None?) &&
            (estado == NO_DISPONIBLE ==> (u.horaVuelve.None? <==> marcado) && u.horaColacion.None?) &&
            (estado == DISPONIBLE ==> (u.horaColacion.None? <==> marcado) && (u.horaVuelve.None? <==> marcado))
  {
  }

  /**
   * The summary line under a barber: the return time when away, "not back
   * today" when away for the day, the lunch time or "all day" when
   * available; nothing for a lunch without a time, an unknown status or no row.
   */
  function Resumen(actual: Option<FilaEstado>): (r: Option<string>)
    ensures r.None? <==>
      actual.None? ||
      (actual.value.estado != DISPONIBLE && actual.value.estado != EN_ALMUERZO && actual.value.estado != NO_DISPONIBLE) ||
      (actual.value.estado == EN_ALMUERZO && actual.value.horaVuelve == "")
  {
    match actual
    case None => None
    case Some(a) =>
      if a.estado == NO_DISPONIBLE then
        if a.horaVuelve != "" then Some(TextoVuelve(a.horaVuelve)) else Some("No vuelve hoy.")
      else if a.estado == EN_ALMUERZO then
        if a.horaVuelve != "" then Some(TextoVuelve(a.horaVuelve)) else None
      else if a.estado == DISPONIBLE then
        if a.horaColacion != "" then Some("Se va a colación a las " + FormatTimeValue(a.horaColacion).value + ".")
        else Some("Disponible todo el día.")
      else None
  }

  /** "Vuelve a las HH:MM.": the shown time is the head of the stored one, at most five characters. */
  function TextoVuelve(hora: string): (r: string)
    requires hora != ""
    ensures |r| >= 15 && r[..13] == "Vuelve a las " && r[|r| - 1] == '.'
    ensures r[13..|r| - 1] <= hora && |r[13..|r| - 1]| <= 5
  {
    "Vuelve a las " + FormatTimeValue(hora).value + "."
  }

  /**
   * The summary's text for each status: a stored return time is always
   * shown (in `HH:MM`) for the two away statuses, a stored lunch time for
   * "disponible".
   */
  lemma ResumenTextos(a: FilaEstado)
    ensures a.estado == NO_DISPONIBLE ==>
      Resumen(Some(a)) == Some(if a.horaVuelve == "" then "No vuelve hoy." else TextoVuelve(a.horaVuelve))
    ensures a.estado == EN_ALMUERZO && a.horaVuelve != "" ==> Resumen(Some(a)) == Some(TextoVuelve(a.horaVuelve))
    ensures a.estado == DISPONIBLE ==>
      Resumen(Some(a)) == Some(if a.horaColacion == "" then "Disponible todo el día."
                               else "Se va a colación a las " + FormatTimeValue(a.horaColacion).value + ".")
  {
  }

  /* ---------------- Reload ---------------- */

  /** The rows by barber, a later row for the same barber replacing an earlier one. */
  function Indexar(rows: seq<FilaEstado>): (r: map<Id, FilaEstado>)
    ensures forall id :: id in r ==> r[id].barberoId == id
  {
    if rows == [] then map[]
    else Indexar(rows[..|rows| - 1])[rows[|rows| - 1].barberoId := rows[|rows| - 1]]
  }

  /** The index holds exactly the barbers that have a row. */
  lemma {:induction false} IndexarDominio(rows: seq<FilaEstado>, id: Id)
    ensures id in Indexar(rows) <==> exists i :: 0 <= i < |rows| && rows[i].barberoId == id
  {
    if rows != [] {
      var pre, x := rows[..|rows| - 1], rows[|rows| - 1];
      IndexarDominio(pre, id);
      assert Indexar(rows) == Indexar(pre)[x.barberoId := x];
      if x.barberoId == id {
        assert rows[|rows| - 1].barberoId == id;
      } else if id in Indexar(pre) {
        var i :| 0 <= i < |pre| && pre[i].barberoId == id;
        assert rows[i] == pre[i];
      } else {
        forall i | 0 <= i < |rows| ensures rows[i].barberoId != id {
          if i < |pre| { assert rows[i] == pre[i]; }
        }
      }
    }
  }

  /** Each indexed barber's entry is the last row for that barber. */
  lemma {:induction false} IndexarUltima(rows: seq<FilaEstado>, id: Id)
    requires id in Indexar(rows)
    ensures exists i :: 0 <= i < |rows| && rows[i] == Indexar(rows)[id] &&
                        forall j :: i < j < |rows| ==> rows[j].barberoId != id
  {
    var pre, x := rows[..|rows| - 1], rows[|rows| - 1];
    assert Indexar(rows) == Indexar(pre)[x.barberoId := x];
    if x.barberoId == id {
      var i := |rows| - 1;
      assert rows[i] == Indexar(rows)[id];
    } else {
      IndexarUltima(pre, id);
      var i :| 0 <= i < |pre| && pre[i] == Indexar(pre)[id] &&
               forall j :: i < j < |pre| ==> pre[j].barberoId != id;
      assert rows[i] == Indexar(rows)[id];
      forall j | i < j < |rows| ensures rows[j].barberoId != id {
        if j < |pre| { assert rows[j] == pre[j]; }
      }
    }
  }

  /** `sel`: each indexed barber's stored status. */
  function Seleccion(idx: map<Id, FilaEstado>): (r: map<Id, string>)
    ensures r.Keys == idx.Keys
  {
    map id | id in idx :: idx[id].estado
  }

  /** `horas` and `colacion`: a blank time for each indexed barber. */
  function EnBlanco(idx: map<Id, FilaEstado>): (r: map<Id, string>)
    ensures r.Keys == idx.Keys
  {
    map id | id in idx :: ""
  }

  /** `checks`: each indexed barber's box, checked exactly when no return time is stored. */
  function Marcados(idx: map<Id, FilaEstado>): (r: map<Id, bool>)
    ensures r.Keys == idx.Keys
  {
    map id | id in idx :: idx[id].horaVuelve == ""
  }

  /** Indexing one more row changes the selection at that barber only, to the row's status. */
  lemma SeleccionPaso(idx: map<Id, FilaEstado>, e: FilaEstado)
    ensures Seleccion(idx[e.barberoId := e]) == Seleccion(idx)[e.barberoId := e.estado]
  {
    assert Seleccion(idx[e.barberoId := e]).Keys == Seleccion(idx)[e.barberoId := e.estado].Keys;
  }

  /** Indexing one more row adds at most that barber's blank time. */
  lemma EnBlancoPaso(idx: map<Id, FilaEstado>, e: FilaEstado)
    ensures EnBlanco(idx[e.barberoId := e]) == EnBlanco(idx)[e.barberoId := ""]
  {
    assert EnBlanco(idx[e.barberoId := e]).Keys == EnBlanco(idx)[e.barberoId := ""].Keys;
  }

  /** Indexing one more row changes the boxes at that barber only, from the row's return time. */
  lemma MarcadosPaso(idx: map<Id, FilaEstado>, e: FilaEstado)
    ensures Marcados(idx[e.barberoId := e]) == Marcados(idx)[e.barberoId := e.horaVuelve == ""]
  {
    assert Marcados(idx[e.barberoId := e]).Keys == Marcados(idx)[e.barberoId := e.horaVuelve == ""].Keys;
  }

  /** The `forEach` of `cargarTodo` as the loop it is. */
  method ConstruirMapas(rows: seq<FilaEstado>)
    returns (mapa: map<Id, FilaEstado>, sel: map<Id, string>, horas: map<Id, string>,
             colacion: map<Id, string>, checks: map<Id, bool>)
    ensures mapa == Indexar(rows)
    ensures sel == Seleccion(mapa) && horas == EnBlanco(mapa) && colacion == EnBlanco(mapa) && checks == Marcados(mapa)
  {
    mapa, sel, horas, colacion, checks := map[], map[], map[], map[], map[];
    var i := 0;
    while i < |rows|
      invariant 0 <= i <= |rows|
      invariant mapa == Indexar(rows[..i])
      invariant sel == Seleccion(mapa) && horas == EnBlanco(mapa) && colacion == EnBlanco(mapa) && checks == Marcados(mapa)
    {
      var e := rows[i];
      assert rows[..i + 1][..i] == rows[..i];
      SeleccionPaso(mapa, e);
      EnBlancoPaso(mapa, e);
      MarcadosPaso(mapa, e);
      mapa := mapa[e.barberoId := e];
      sel := sel[e.barberoId := e.estado];
      horas := horas[e.barberoId := ""];
      colacion := colacion[e.barberoId := ""];
      checks := checks[e.barberoId := e.horaVuelve == ""];
      i := i + 1;
    }
    assert rows[..i] == rows;
  }

  /* ---------------- The page's state ---------------- */

  /**
   * The reads of `cargarTodo` and the rebuilt dictionaries: whether both
   * reads answered, and what the reload loop builds from the status rows.
   */
  method LeerEstados(barberosData: Option<seq<Barbero>>, leerEstados: seq<Id> -> Option<seq<FilaEstado>>)
    returns (ok: bool, mapa: map<Id, FilaEstado>, sel: map<Id, string>, horas: map<Id, string>,
             colacion: map<Id, string>, checks: map<Id, bool>)
    ensures ok <==> barberosData.Some? && leerEstados(Ids(barberosData.value)).Some?
    ensures ok ==> mapa == Indexar(leerEstados(Ids(barberosData.value)).value) &&
                   sel == Seleccion(mapa) && horas == EnBlanco(mapa) && colacion == EnBlanco(mapa) &&
                   checks == Marcados(mapa)
  {
    ok, mapa, sel, horas, colacion, checks := false, map[], map[], map[], map[], map[];
    if barberosData.Some? {
      var estadosData := leerEstados(Ids(barberosData.value));
      if estadosData.Some? {
        ok := true;
        mapa, sel, horas, colacion, checks := ConstruirMapas(estadosData.value);
      }
    }
  }

  class PaginaEstadoDiario {
    var loading: bool
    var barberos: seq<Barbero>
    var estadoMap: map<Id, FilaEstado>
    var selectedEstado: map<Id, string>
    var horaVuelve: map<Id, string>
    var horaColacion: map<Id, string>
    var checkMarcado: map<Id, bool>
    var saving: map<Id, bool>
    var error: map<Id, Option<string>>

    constructor ()
      ensures loading && barberos == [] && estadoMap == map[] && selectedEstado == map[]
      ensures horaVuelve == map[] && horaColacion == map[] && checkMarcado == map[]
      ensures saving == map[] && error == map[]
    {
      loading := true;
      barberos := [];
      estadoMap := map[];
      selectedEstado := map[];
      horaVuelve := map[];
      horaColacion := map[];
      checkMarcado := map[];
      saving := map[];
      error := map[];
    }

    /**
     * `cargarTodo`. `barberosData` is the barber read; `leerEstados` answers
     * the status read for the barbers' ids. A null answer makes the next
     * step throw: loading stays on and nothing else changes. Otherwise every
     * per-barber dictionary but `saving` is rebuilt from the rows and the
     * error messages are cleared.
     */
    method CargarTodo(barberosData: Option<seq<Barbero>>, leerEstados: seq<Id> -> Option<seq<FilaEstado>>)
      modifies this`loading, this`barberos, this`estadoMap, this`selectedEstado, this`horaVuelve,
               this`horaColacion, this`checkMarcado, this`error
      ensures barberosData.None? || leerEstados(Ids(barberosData.value)).None? ==>
        loading && barberos == old(barberos) && estadoMap == old(estadoMap) &&
        selectedEstado == old(selectedEstado) && horaVuelve == old(horaVuelve) &&
        horaColacion == old(horaColacion) && checkMarcado == old(checkMarcado) && error == old(error)
      ensures barberosData.Some? && leerEstados(Ids(barberosData.value)).Some? ==>
        !loading && barberos == barberosData.value &&
        estadoMap == Indexar(leerEstados(Ids(barberosData.value)).value) &&
        selectedEstado == Seleccion(estadoMap) && horaVuelve == EnBlanco(estadoMap) &&
        horaColacion == EnBlanco(estadoMap) && checkMarcado == Marcados(estadoMap) &&
        error == map[]
    {
      loading := true;
      var ok, mapa, sel, horas, colacion, checks := LeerEstados(barberosData, leerEstados);
      if ok {
        barberos, estadoMap, selectedEstado, horaVuelve, horaColacion, checkMarcado, error, loading :=
          barberosData.value, mapa, sel, horas, colacion, checks, map[], false;
      }
    }

    /**
     * `actualizarEstado(id)`: validates the form for that barber and, when
     * it passes, returns the row to upsert. Only that barber's error and
     * saving entries change; the reload that follows is the caller's
     * `CargarTodo`.
     */
    method ActualizarEstado(id: Id) returns (upsert: Option<Upsert>)
      modifies this`error, this`saving
      ensures var estado := Get(selectedEstado, id, "");
              var todo := TodoElDia(estado, Get(checkMarcado, id, false));
              var v := Validar(estado, todo, Get(horaColacion, id, ""), Get(horaVuelve, id, ""));
              error == old(error)[id := v] &&
              (v.Some? ==> upsert.None? && saving == old(saving)) &&
              (v.None? ==> upsert == Some(Payload(id, estado, todo, Get(horaColacion, id, ""), Get(horaVuelve, id, ""))) &&
                           saving == old(saving)[id := false])
    {
      var estado := Get(selectedEstado, id, "");
      var todoElDia := TodoElDia(estado, Get(checkMarcado, id, false));
      var colacion := Get(horaColacion, id, "");
      var vuelve := Get(horaVuelve, id, "");
      var fallo := Validar(estado, todoElDia, colacion, vuelve);
      error := error[id := fallo];
      if fallo.Some? {
        return None;
      }
      saving := saving[id := true];
      upsert := Some(Payload(id, estado, todoElDia, colacion, vuelve));
      saving := saving[id := false];
    }

    /** The status selector: choosing "no_disponible" also checks that barber's box. */
    method SeleccionarEstado(id: Id, value: string)
      modifies this`selectedEstado, this`checkMarcado
      ensures selectedEstado == old(selectedEstado)[id := value]
      ensures checkMarcado == if value == NO_DISPONIBLE then old(checkMarcado)[id := true] else old(checkMarcado)
    {
      selectedEstado := selectedEstado[id := value];
      if value == NO_DISPONIBLE {
        checkMarcado := checkMarcado[id := true];
      }
    }

    /** The "all day" / "not back" check box. */
    method MarcarCheck(id: Id, marcado: bool)
      modifies this`checkMarcado
      ensures checkMarcado == old(checkMarcado)[id := marcado]
    {
      checkMarcado := checkMarcado[id := marcado];
    }

    method EscribirHoraColacion(id: Id, hora: string)
      modifies this`horaColacion
      ensures horaColacion == old(horaColacion)[id := hora]
    {
      horaColacion := horaColacion[id := hora];
    }

    method EscribirHoraVuelve(id: Id, hora: string)
      modifies this`horaVuelve
      ensures horaVuelve == old(horaVuelve)[id := hora]
    {
      horaVuelve := horaVuelve[id := hora];
    }
  }

  /** `barberosData.map((b) => b.id)`. */
  function Ids(bs: seq<Barbero>): (r: seq<Id>)
    ensures |r| == |bs|
    ensures forall i :: 0 <= i < |bs| ==> r[i] == bs[i].id
  {
    seq(|bs|, i requires 0 <= i < |bs| => bs[i].id)
  }

  /**
   * Choosing "no_disponible" checks the box, so a save right after it passes
   * validation whatever times are typed, and writes no return time.
   */
  lemma NoDisponibleTrasSeleccionNoPideHora(id: Id, checks: map<Id, bool>, colacion: string, vuelve: string)
    ensures var marcado := Get(checks[id := true], id, false);
            Validar(NO_DISPONIBLE, TodoElDia(NO_DISPONIBLE, marcado), colacion, vuelve).None? &&
            Payload(id, NO_DISPONIBLE, TodoElDia(NO_DISPONIBLE, marcado), colacion, vuelve).horaVuelve.None?
  {
  }
}
