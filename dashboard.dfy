/**
 * The home dashboard: the barbers grouped by their current status, the day's
 * and the month's revenue, and the month's revenue ranking by barber with
 * the barber of the month at its head.
 *
 * The reads are parameters: each method receives what its query returned.
 * A missing amount reads as 0 and a missing name as "".
 */
module Dashboard {
  import opened Tipos
  import opened Seqs
  import opened Sorting

  type Id = string

  const DISPONIBLE: string := "disponible"
  const EN_ALMUERZO: string := "en_almuerzo"
  const NO_DISPONIBLE: string := "no_disponible"
  const SIN_NOMBRE: string := "Sin nombre"

  /** A row of the status query: the status and the joined barber's name. */
  datatype FilaEstado = FilaEstado(estado: string, nombre: string)

  /** A row of the daily accounting summary. */
  datatype FilaIngreso = FilaIngreso(totalIngresos: int)

  /** A row of the per-barber daily summary with the joined barber's name. */
  datatype FilaRanking = FilaRanking(barberoId: Id, totalIngresos: int, nombre: string)

  /** An entry of the ranking (and of the chart). */
  datatype EntradaRanking = EntradaRanking(nombre: string, total: int)

  /* ---------------- Status buckets ---------------- */

  /** The names `cargarEstadoActual` pushes into bucket k, in input order. */
  function NombresCon(rows: seq<FilaEstado>, k: string): (r: seq<string>)
    ensures |r| <= |rows|
    ensures k == "" ==> r == []
  {
    if rows == [] then []
    else
      var r := rows[|rows| - 1];
      NombresCon(rows[..|rows| - 1], k) + (if r.estado == k && r.estado != "" && r.nombre != "" then [r.nombre] else [])
  }

  /** The three buckets and nothing else. */
  function Agrupado(rows: seq<FilaEstado>): (r: map<string, seq<string>>)
    ensures r.Keys == {DISPONIBLE, EN_ALMUERZO, NO_DISPONIBLE}
  {
    map[DISPONIBLE := NombresCon(rows, DISPONIBLE),
        EN_ALMUERZO := NombresCon(rows, EN_ALMUERZO),
        NO_DISPONIBLE := NombresCon(rows, NO_DISPONIBLE)]
  }

  /** The `forEach` of `cargarEstadoActual` as the loop it is. */
  method AgruparEstados(rows: seq<FilaEstado>) returns (agrupado: map<string, seq<string>>)
    ensures agrupado == Agrupado(rows)
  {
    agrupado := map[DISPONIBLE := [], EN_ALMUERZO := [], NO_DISPONIBLE := []];
    var i := 0;
    while i < |rows|
      invariant 0 <= i <= |rows|
      invariant agrupado == Agrupado(rows[..i])
    {
      var row := rows[i];
      assert rows[..i + 1] == rows[..i] + [row];
      AgrupadoSnoc(rows[..i], row);
      if row.estado != "" && row.nombre != "" {
        if row.estado in agrupado {
          agrupado := agrupado[row.estado := agrupado[row.estado] + [row.nombre]];
        }
      }
      i := i + 1;
    }
    assert rows[..i] == rows;
  }

  /** One more row appends its name to its status's bucket, when it has both and the status is one of the three. */
  lemma AgrupadoSnoc(rows: seq<FilaEstado>, r: FilaEstado)
    ensures var a := Agrupado(rows);
            Agrupado(rows + [r]) ==
              if r.estado != "" && r.nombre != "" && r.estado in a then a[r.estado := a[r.estado] + [r.nombre]] else a
  {
    assert (rows + [r])[..|rows|] == rows;
    var a, b := Agrupado(rows), Agrupado(rows + [r]);
    if r.estado != "" && r.nombre != "" && r.estado in a {
      var c := a[r.estado := a[r.estado] + [r.nombre]];
      assert b.Keys == c.Keys;
      forall k | k in b ensures b[k] == c[k] { }
    } else {
      assert b.Keys == a.Keys;
      forall k | k in b ensures b[k] == a[k] { }
    }
  }

  /** Bucketing keeps input order: the rows of a concatenation fill each bucket one after the other. */
  lemma {:induction false} NombresConConcat(a: seq<FilaEstado>, b: seq<FilaEstado>, k: string)
    ensures NombresCon(a + b, k) == NombresCon(a, k) + NombresCon(b, k)
  {
    if b == [] {
      assert a + b == a;
    } else {
      assert (a + b)[..|a + b| - 1] == a + b[..|b| - 1];
      NombresConConcat(a, b[..|b| - 1], k);
    }
  }

  /** Every name in bucket k came from a row with status k and that name. */
  lemma {:induction false} NombresConProcedencia(rows: seq<FilaEstado>, k: string, j: int)
    requires 0 <= j < |NombresCon(rows, k)|
    ensures NombresCon(rows, k)[j] != ""
    ensures exists i :: 0 <= i < |rows| && rows[i].estado == k && rows[i].nombre == NombresCon(rows, k)[j]
  {
    var pre, r := rows[..|rows| - 1], rows[|rows| - 1];
    if j < |NombresCon(pre, k)| {
      NombresConProcedencia(pre, k, j);
      var i :| 0 <= i < |pre| && pre[i].estado == k && pre[i].nombre == NombresCon(pre, k)[j];
      assert rows[i] == pre[i];
    } else {
      assert rows[|rows| - 1] == r;
    }
  }

  /**
   * A row with no status, no name, or a status outside the three lands in
   * no bucket; the buckets hold no more names than there are rows.
   */
  lemma {:induction false} BucketsAcotados(rows: seq<FilaEstado>)
    ensures |NombresCon(rows, DISPONIBLE)| + |NombresCon(rows, EN_ALMUERZO)| + |NombresCon(rows, NO_DISPONIBLE)| <= |rows|
  {
    if rows != [] {
      BucketsAcotados(rows[..|rows| - 1]);
    }
  }

  lemma FilaDescartada(rows: seq<FilaEstado>, r: FilaEstado)
    requires r.estado == "" || r.nombre == "" ||
             (r.estado != DISPONIBLE && r.estado != EN_ALMUERZO && r.estado != NO_DISPONIBLE)
    ensures Agrupado(rows + [r]) == Agrupado(rows)
  {
    AgrupadoSnoc(rows, r);
  }

  /* ---------------- Revenue ---------------- */

  function TotalDeFila(r: FilaIngreso): int { r.totalIngresos }

  /** `totalDia`: the day's row's revenue, 0 without a row. */
  function TotalDia(hoyRow: Option<FilaIngreso>): (t: int)
    ensures hoyRow.None? ==> t == 0
    ensures hoyRow.Some? ==> t == hoyRow.value.totalIngresos
  {
    match hoyRow
    case None => 0
    case Some(r) => r.totalIngresos
  }

  /** The `totalMes += …` loop over the month's rows, a null answer read as no rows. */
  method SumarMes(mesRows: Option<seq<FilaIngreso>>) returns (totalMes: int)
    ensures totalMes == Sum(if mesRows.Some? then mesRows.value else [], TotalDeFila)
  {
    var rows := if mesRows.Some? then mesRows.value else [];
    totalMes := 0;
    var i := 0;
    while i < |rows|
      invariant 0 <= i <= |rows|
      invariant totalMes == Sum(rows[..i], TotalDeFila)
    {
      assert rows[..i + 1] == rows[..i] + [rows[i]];
      SumSnoc(rows[..i], rows[i], TotalDeFila);
      totalMes := totalMes + rows[i].totalIngresos;
      i := i + 1;
    }
    assert rows[..i] == rows;
  }

  /* ---------------- Ranking ---------------- */

  function IdDe(r: FilaRanking): Id { r.barberoId }
  function IngresoDe(r: FilaRanking): int { r.totalIngresos }
  function MenosTotal(e: EntradaRanking): int { -e.total }
  function TotalEntrada(e: EntradaRanking): int { e.total }

  /** `r.barberos?.nombre || "Sin nombre"`. */
  function NombreO(nombre: string): string
  {
    if nombre == "" then SIN_NOMBRE else nombre
  }

  /** The barbers of the rows in the order first seen: the key order of `acumulado`. */
  function Barberos(rows: seq<FilaRanking>): seq<Id>
  {
    Keys(rows, IdDe)
  }

  /** The name a barber's entry takes: that of the barber's first row, "Sin nombre" when it has none. */
  function NombreDe(rows: seq<FilaRanking>, id: Id): (n: string)
    ensures n != ""
  {
    var f := FilterKey(rows, IdDe, id);
    if |f| == 0 then SIN_NOMBRE else NombreO(f[0].nombre)
  }

  /** The revenue of all of a barber's rows. */
  function TotalDe(rows: seq<FilaRanking>, id: Id): int
  {
    Sum(FilterKey(rows, IdDe, id), IngresoDe)
  }

  /** A barber's accumulated entry: never nameless. */
  function EntradaDe(rows: seq<FilaRanking>, id: Id): (e: EntradaRanking)
    ensures e.nombre != ""
  {
    EntradaRanking(NombreDe(rows, id), TotalDe(rows, id))
  }

  /** `Object.values(acumulado)`. */
  function Acumulado(ids: seq<Id>, rows: seq<FilaRanking>): (r: seq<EntradaRanking>)
    ensures |r| == |ids|
  {
    seq(|ids|, j requires 0 <= j < |ids| => EntradaDe(rows, ids[j]))
  }

  /** `rankingFinal`: the accumulated entries, one per barber, sorted descending by total (stable). */
  function RankingDe(rows: seq<FilaRanking>): (r: seq<EntradaRanking>)
    ensures |r| == |Barberos(rows)|
    ensures multiset(r) == multiset(Acumulado(Barberos(rows), rows))
  {
    SortBy(Acumulado(Barberos(rows), rows), MenosTotal)
  }

  /** `rankingFinal[0] || null`. */
  function BarberoDelMes(ranking: seq<EntradaRanking>): (b: Option<EntradaRanking>)
    ensures b.None? <==> ranking == []
    ensures b.Some? ==> b.value == ranking[0]
  {
    if ranking == [] then None else Some(ranking[0])
  }

  /** One more row adds its revenue to its barber's total and to no other total. */
  lemma TotalDeSnoc(pre: seq<FilaRanking>, r: FilaRanking, id: Id)
    ensures IdDe(r) == id ==> TotalDe(pre + [r], id) == TotalDe(pre, id) + IngresoDe(r)
    ensures IdDe(r) != id ==> TotalDe(pre + [r], id) == TotalDe(pre, id)
  {
    var f := FilterKey(pre, IdDe, id);
    FilterKeySnoc(pre, r, IdDe, id);
    if IdDe(r) == id {
      SumSnoc(f, r, IngresoDe);
    } else {
      assert f + [] == f;
    }
  }

  lemma NombreDeSnoc(pre: seq<FilaRanking>, r: FilaRanking, id: Id)
    ensures NombreDe(pre + [r], id) ==
      if r.barberoId == id && |FilterKey(pre, IdDe, id)| == 0 then NombreO(r.nombre) else NombreDe(pre, id)
  {
    var f := FilterKey(pre, IdDe, id);
    FilterKeySnoc(pre, r, IdDe, id);
    if r.barberoId == id {
      assert FilterKey(pre + [r], IdDe, id)[0] == (f + [r])[0];
    } else {
      assert f + [] == f;
    }
  }

  /** What `acumulado` holds after the rows of pre: the entry of each barber seen, keys in first-seen order. */
  ghost predicate Acumulados(acumulado: map<Id, EntradaRanking>, orden: seq<Id>, pre: seq<FilaRanking>)
  {
    orden == Barberos(pre) &&
    (forall id :: id in acumulado <==> id in orden) &&
    (forall id :: id in acumulado ==> acumulado[id] == EntradaDe(pre, id))
  }

  /** One more row: a new barber's entry takes the row's name, a known barber's keeps its name; the row's revenue is added. */
  lemma EntradaDePaso(pre: seq<FilaRanking>, r: FilaRanking, x: Id)
    ensures EntradaDe(pre + [r], x) ==
      if r.barberoId != x then EntradaDe(pre, x)
      else EntradaRanking(if x in Barberos(pre) then NombreDe(pre, x) else NombreO(r.nombre),
                          (if x in Barberos(pre) then TotalDe(pre, x) else 0) + r.totalIngresos)
  {
    TotalDeSnoc(pre, r, x);
    NombreDeSnoc(pre, r, x);
    if r.barberoId == x {
      if x in Barberos(pre) {
        FilterKeyOfPresent(pre, IdDe, x);
      } else {
        FilterKeyOfAbsent(pre, IdDe, x);
      }
    }
  }

  /**
   * One turn of the accumulation loop: a new barber gets an entry with the
   * row's name, appended to the key order; the row's revenue is added to
   * the barber's total; no other entry changes.
   */
  lemma AcumularPaso(a0: map<Id, EntradaRanking>, o0: seq<Id>, pre: seq<FilaRanking>, r: FilaRanking,
                     post: seq<FilaRanking>, a: map<Id, EntradaRanking>, o: seq<Id>)
    requires post == pre + [r]
    requires Acumulados(a0, o0, pre)
    requires o == if r.barberoId in a0 then o0 else o0 + [r.barberoId]
    requires a.Keys == a0.Keys + {r.barberoId}
    requires forall x :: x in a0 && x != r.barberoId ==> a[x] == a0[x]
    requires r.barberoId in a0 ==> a[r.barberoId] == a0[r.barberoId].(total := a0[r.barberoId].total + r.totalIngresos)
    requires r.barberoId !in a0 ==> a[r.barberoId] == EntradaRanking(NombreO(r.nombre), r.totalIngresos)
    ensures Acumulados(a, o, post)
  {
    KeysSnoc(pre, r, IdDe);
    forall x | x in a ensures a[x] == EntradaDe(post, x) {
      EntradaDePaso(pre, r, x);
    }
  }

  /** The `forEach` callback of `cargarDashboard`: a new barber gets an entry, then the row's revenue is added. */
  method Sumar(acumulado: map<Id, EntradaRanking>, orden: seq<Id>, ghost pre: seq<FilaRanking>, r: FilaRanking)
    returns (a: map<Id, EntradaRanking>, o: seq<Id>)
    requires Acumulados(acumulado, orden, pre)
    ensures Acumulados(a, o, pre + [r])
  {
    var id := r.barberoId;
    a, o := acumulado, orden;
    if id !in a {
      a := a[id := EntradaRanking(NombreO(r.nombre), 0)];
      o := o + [id];
    }
    a := a[id := a[id].(total := a[id].total + r.totalIngresos)];
    AcumularPaso(acumulado, orden, pre, r, pre + [r], a, o);
  }

  /** The accumulation loop of `cargarDashboard`: per barber, the first name seen and the running total. */
  method Acumular(rows: seq<FilaRanking>) returns (acumulado: map<Id, EntradaRanking>, orden: seq<Id>)
    ensures orden == Barberos(rows)
    ensures forall id :: id in acumulado <==> id in orden
    ensures forall id :: id in acumulado ==> acumulado[id] == EntradaDe(rows, id)
  {
    acumulado := map[];
    orden := [];
    var i := 0;
    while i < |rows|
      invariant 0 <= i <= |rows|
      invariant Acumulados(acumulado, orden, rows[..i])
    {
      assert rows[..i + 1] == rows[..i] + [rows[i]];
      acumulado, orden := Sumar(acumulado, orden, rows[..i], rows[i]);
      i := i + 1;
    }
    assert rows[..i] == rows;
  }

  /** The ranking step of `cargarDashboard`: accumulate, then sort descending by total. */
  method CalcularRanking(rows: seq<FilaRanking>) returns (ranking: seq<EntradaRanking>)
    ensures ranking == RankingDe(rows)
  {
    var acumulado, orden := Acumular(rows);
    var valores := seq(|orden|, j requires 0 <= j < |orden| && orden[j] in acumulado => acumulado[orden[j]]);
    assert valores == Acumulado(orden, rows);
    ranking := SortBy(valores, MenosTotal);
  }

  /**
   * Every ranking entry belongs to a barber id of the rows: its total is the
   * sum of that id's rows and its name is taken from that id's first row.
   */
  lemma RankingEntrada(rows: seq<FilaRanking>, i: int)
    requires 0 <= i < |RankingDe(rows)|
    ensures exists id :: id in KeySet(rows, IdDe) && RankingDe(rows)[i] == EntradaDe(rows, id)
  {
    var ids := Barberos(rows);
    var u := Acumulado(ids, rows);
    PermutationMember(u, RankingDe(rows), i);
    var j :| 0 <= j < |u| && u[j] == RankingDe(rows)[i];
    KeysMembers(rows, IdDe);
    assert ids[j] in ids;
  }

  /**
   * One entry per distinct barber id, not per name: two barbers sharing a
   * name keep separate entries.
   */
  lemma RankingPorId(rows: seq<FilaRanking>)
    ensures |RankingDe(rows)| == |KeySet(rows, IdDe)|
  {
    KeysCount(rows, IdDe);
  }

  /**
   * A barber's entry is named after the barber's first row (or "Sin nombre")
   * and totals all of that barber's rows.
   */
  lemma EntradaDeCorrecta(rows: seq<FilaRanking>, id: Id)
    requires id in KeySet(rows, IdDe)
    ensures exists k :: 0 <= k < |rows| && rows[k].barberoId == id &&
                        (forall j :: 0 <= j < k ==> rows[j].barberoId != id) &&
                        EntradaDe(rows, id).nombre == NombreO(rows[k].nombre)
    ensures EntradaDe(rows, id).total == Sum(FilterKey(rows, IdDe, id), IngresoDe)
  {
    var k :| 0 <= k < |rows| && IdDe(rows[k]) == id;
    FilterKeyMembers(rows, IdDe, id);
    assert rows[k] in FilterKey(rows, IdDe, id);
    FilterKeyFirst(rows, IdDe, id);
  }

  /** Every barber with a row has its entry in the ranking. */
  lemma TodoBarberoEnRanking(rows: seq<FilaRanking>, id: Id)
    requires id in KeySet(rows, IdDe)
    ensures EntradaDe(rows, id) in RankingDe(rows)
  {
    var ids := Barberos(rows);
    var u := Acumulado(ids, rows);
    KeysMembers(rows, IdDe);
    var m :| 0 <= m < |ids| && ids[m] == id;
    assert u[m] == EntradaDe(rows, id);
    assert u[m] in multiset(RankingDe(rows));
  }

  /**
   * The ranking is non-increasing by total, and as soon as there is a row
   * there is a barber of the month, whose total is at least every barber's.
   */
  lemma RankingOrdenado(rows: seq<FilaRanking>)
    ensures var r := RankingDe(rows);
            (forall i, j :: 0 <= i < j < |r| ==> r[i].total >= r[j].total) &&
            (forall id :: id in KeySet(rows, IdDe) ==>
               BarberoDelMes(r).Some? && BarberoDelMes(r).value.total >= TotalDe(rows, id))
  {
    var r := RankingDe(rows);
    assert SortedBy(r, MenosTotal);
    forall i, j | 0 <= i < j < |r| ensures r[i].total >= r[j].total {
      assert MenosTotal(r[i]) <= MenosTotal(r[j]);
    }
    forall id | id in KeySet(rows, IdDe)
      ensures BarberoDelMes(r).Some? && BarberoDelMes(r).value.total >= TotalDe(rows, id)
    {
      TodoBarberoEnRanking(rows, id);
      var m :| 0 <= m < |r| && r[m] == EntradaDe(rows, id);
      assert MenosTotal(r[0]) <= MenosTotal(r[m]);
    }
  }

  lemma {:induction false} SumaAcumulado(ids: seq<Id>, rows: seq<FilaRanking>)
    ensures Sum(Acumulado(ids, rows), TotalEntrada) == GroupedSum(ids, rows, IdDe, IngresoDe)
  {
    if ids != [] {
      var ids' := ids[..|ids| - 1];
      SumaAcumulado(ids', rows);
      assert Acumulado(ids, rows)[..|ids| - 1] == Acumulado(ids', rows);
    }
  }

  /** The ranking's totals add up to the month's revenue over all barbers' rows. */
  lemma RankingSuma(rows: seq<FilaRanking>)
    ensures Sum(RankingDe(rows), TotalEntrada) == Sum(rows, IngresoDe)
  {
    SortBySum(Acumulado(Barberos(rows), rows), MenosTotal, TotalEntrada);
    SumaAcumulado(Barberos(rows), rows);
    GroupedSumOfKeys(rows, IdDe, IngresoDe);
  }

  /* ---------------- The page's state ---------------- */

  class PaginaDashboard {
    var estadoResumen: map<string, seq<string>>
    var ranking: seq<EntradaRanking>
    var graficoPorBarbero: seq<EntradaRanking>
    var barberoDelMes: Option<EntradaRanking>
    var ingresosDia: int
    var ingresosMes: int
    var loading: bool

    constructor ()
      ensures estadoResumen == Agrupado([])
      ensures ranking == [] && graficoPorBarbero == [] && barberoDelMes.None?
      ensures ingresosDia == 0 && ingresosMes == 0 && loading
    {
      estadoResumen := map[DISPONIBLE := [], EN_ALMUERZO := [], NO_DISPONIBLE := []];
      ranking := [];
      graficoPorBarbero := [];
      barberoDelMes := None;
      ingresosDia := 0;
      ingresosMes := 0;
      loading := true;
    }

    /** `cargarEstadoActual`: a failed read changes nothing; otherwise the buckets are rebuilt (a null answer as no rows). */
    method CargarEstadoActual(resp: Respuesta<Option<seq<FilaEstado>>>)
      modifies this`estadoResumen
      ensures resp.Falla? ==> estadoResumen == old(estadoResumen)
      ensures resp.Ok? ==> estadoResumen == Agrupado(if resp.datos.Some? then resp.datos.value else [])
    {
      if resp.Falla? {
        return;
      }
      var rows := if resp.datos.Some? then resp.datos.value else [];
      estadoResumen := AgruparEstados(rows);
    }

    /**
     * `cargarDashboard`: the two revenue figures are set first; a failed
     * ranking read then only ends loading, leaving the ranking, the chart
     * and the barber of the month as they were.
     */
    method CargarDashboard(hoyRow: Option<FilaIngreso>, mesRows: Option<seq<FilaIngreso>>,
                           rankingResp: Respuesta<Option<seq<FilaRanking>>>)
      modifies this`ranking, this`graficoPorBarbero, this`barberoDelMes, this`ingresosDia,
               this`ingresosMes, this`loading
      ensures ingresosDia == TotalDia(hoyRow)
      ensures ingresosMes == Sum(if mesRows.Some? then mesRows.value else [], TotalDeFila)
      ensures !loading
      ensures rankingResp.Falla? ==>
        ranking == old(ranking) && graficoPorBarbero == old(graficoPorBarbero) && barberoDelMes == old(barberoDelMes)
      ensures rankingResp.Ok? ==>
        var rows := if rankingResp.datos.Some? then rankingResp.datos.value else [];
        ranking == RankingDe(rows) && graficoPorBarbero == ranking && barberoDelMes == BarberoDelMes(ranking)
    {
      loading := true;
      var totalDia := TotalDia(hoyRow);
      var totalMes := SumarMes(mesRows);
      ingresosDia := totalDia;
      ingresosMes := totalMes;
      if rankingResp.Falla? {
        loading := false;
        return;
      }
      var rows := if rankingResp.datos.Some? then rankingResp.datos.value else [];
      var rankingFinal := CalcularRanking(rows);
      ranking := rankingFinal;
      graficoPorBarbero := rankingFinal;
      barberoDelMes := if |rankingFinal| > 0 then Some(rankingFinal[0]) else None;
      loading := false;
    }
  }
}
