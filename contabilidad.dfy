/**
 * The accounting page: which ledger partition(s) one pass reads, how the
 * rows are enriched with barber names and merged, the top-3 revenue ranking,
 * the per-barber summary, the barber filter and the three totals.
 *
 * The backend is a parameter: `barberos` is the outcome of the read of the
 * barber table, and `backend` answers each partition read.
 */
module Contabilidad {
  import opened Tipos
  import opened Seqs
  import opened Sorting
  import opened Calendario

  type BarberoId = string

  /**
   * One row of `cortes` (today's live partition) or `cortes_historicos` (the
   * archive). Missing amounts read as 0; `createdAt` is the row's timestamp
   * in milliseconds.
   */
  datatype Corte = Corte(id: int, precio: int, montoBarbero: int, montoBarberia: int,
                         createdAt: int, barberoId: BarberoId)

  /** A row with the barber's display name attached (`c.barberos.nombre`). */
  datatype CorteConNombre = CorteConNombre(corte: Corte, nombre: string)

  /** An entry of the revenue ranking. */
  datatype TopEntry = TopEntry(nombre: string, total: int)

  /** An entry of the per-barber summary. */
  datatype ResumenEntry = ResumenEntry(nombre: string, cortes: int, ganado: int, generado: int)

  datatype Modo = Dia | Mes

  datatype Tabla = Cortes | CortesHistoricos

  /** One partition read: the table, the `created_at` range if bounded, and whether ascending order was asked for. */
  datatype Consulta = Consulta(tabla: Tabla, rango: Option<Rango>, ordenada: bool)

  const SIN_NOMBRE: string := "Sin nombre"
  const TODOS: string := "todos"
  const TOP: nat := 3

  /* ---------------- Name enrichment ---------------- */

  /** `barberosMap[id] || "Sin nombre"`. */
  function NombreDe(id: BarberoId, barberos: map<BarberoId, string>): (n: string)
    ensures n != ""
    ensures n == SIN_NOMBRE || (id in barberos && n == barberos[id])
    ensures id in barberos && barberos[id] != "" ==> n == barberos[id]
  {
    if id in barberos && barberos[id] != "" then barberos[id] else SIN_NOMBRE
  }

  /** `attachBarberoNombre`: keeps every row, in order, and adds its barber's name. */
  function AttachBarberoNombre(lista: seq<Corte>, barberos: map<BarberoId, string>): (r: seq<CorteConNombre>)
    ensures |r| == |lista|
    ensures forall i :: 0 <= i < |r| ==> r[i].corte == lista[i]
    ensures forall i :: 0 <= i < |r| ==> r[i].nombre == NombreDe(lista[i].barberoId, barberos)
    ensures forall i :: 0 <= i < |r| ==> r[i].nombre != ""
  {
    seq(|lista|, i requires 0 <= i < |lista| => CorteConNombre(lista[i], NombreDe(lista[i].barberoId, barberos)))
  }

  /* ---------------- Field accessors used as keys and summands ---------------- */

  function Nombre(c: CorteConNombre): string { c.nombre }
  function Precio(c: CorteConNombre): int { c.corte.precio }
  function MontoBarbero(c: CorteConNombre): int { c.corte.montoBarbero }
  function MontoBarberia(c: CorteConNombre): int { c.corte.montoBarberia }
  function CreatedAt(c: CorteConNombre): int { c.corte.createdAt }
  function Uno(c: CorteConNombre): int { 1 }

  /** The grouping key of both aggregations: `c.barberos?.nombre || "Sin nombre"`. */
  function NombreAgrupado(c: CorteConNombre): string
  {
    if c.nombre == "" then SIN_NOMBRE else c.nombre
  }

  function Total(e: TopEntry): int { e.total }
  function MenosTotal(e: TopEntry): int { -e.total }
  function NombreTop(e: TopEntry): string { e.nombre }
  function CuentaCortes(e: ResumenEntry): int { e.cortes }
  function Ganado(e: ResumenEntry): int { e.ganado }
  function Generado(e: ResumenEntry): int { e.generado }
  function MenosGanado(e: ResumenEntry): int { -e.ganado }
  function NombreResumen(e: ResumenEntry): string { e.nombre }

  /* ---------------- Partition selection ---------------- */

  /**
   * The partition reads one pass makes, in order, when none of them fails:
   * the policy of `fetchCortes` as a table. An unparsable date throws
   * before any partition is read.
   */
  function Lecturas(modo: Modo, fecha: Fecha, hoy: Fecha): (p: seq<Consulta>)
    ensures !EsValida(fecha) ==> p == []
    ensures EsValida(fecha) && modo == Dia ==>
      |p| == 1 && p[0].rango == RangoDia(fecha) && p[0].ordenada &&
      (p[0].tabla == Cortes <==> fecha == hoy)
    ensures EsValida(fecha) && modo == Mes ==>
      1 <= |p| <= 2 && p[0] == Consulta(CortesHistoricos, RangoMes(fecha), false) &&
      (|p| == 2 <==> fecha.year == hoy.year && fecha.month == hoy.month) &&
      (|p| == 2 ==> p[1] == Consulta(Cortes, None, false))
  {
    if !EsValida(fecha) then []
    else match modo
      case Dia => [Consulta(if fecha == hoy then Cortes else CortesHistoricos, RangoDia(fecha), true)]
      case Mes =>
        [Consulta(CortesHistoricos, RangoMes(fecha), false)] +
        (if fecha.year == hoy.year && fecha.month == hoy.month then [Consulta(Cortes, None, false)] else [])
  }

  /**
   * The outcome of one `fetchCortes` pass, written the way the source
   * branches: the enriched and merged rows, or None when a read failed or
   * the date did not parse (the catch branch).
   */
  function ResultadoCarga(modo: Modo, fecha: Fecha, hoy: Fecha,
                          barberos: Respuesta<map<BarberoId, string>>,
                          backend: Consulta -> Respuesta<seq<Corte>>): (r: Option<seq<CorteConNombre>>)
    ensures r.Some? ==> barberos.Ok? && EsValida(fecha)
    ensures r.Some? ==> forall c :: c in r.value ==> c.nombre != ""
  {
    match barberos
    case Falla => None
    case Ok(mapa) =>
      if modo == Dia then
        if RangoDia(fecha).None? then None
        else
          var tabla := if fecha == hoy then Cortes else CortesHistoricos;
          match backend(Consulta(tabla, RangoDia(fecha), true))
          case Falla => None
          case Ok(data) => Some(AttachBarberoNombre(data, mapa))
      else
        if RangoMes(fecha).None? then None
        else
          match backend(Consulta(CortesHistoricos, RangoMes(fecha), false))
          case Falla => None
          case Ok(historicos) =>
            var lista := AttachBarberoNombre(historicos, mapa);
            if fecha.year == hoy.year && fecha.month == hoy.month then
              match backend(Consulta(Cortes, None, false))
              case Falla => None
              case Ok(hoyData) =>
                var todas := lista + AttachBarberoNombre(hoyData, mapa);
                assert forall c :: c in SortBy(todas, CreatedAt) ==> c in multiset(todas);
                Some(SortBy(todas, CreatedAt))
            else
              assert forall c :: c in SortBy(lista, CreatedAt) ==> c in multiset(lista);
              Some(SortBy(lista, CreatedAt))
  }

  /**
   * A pass reads nothing but the planned partition reads: two backends that
   * agree on those give the same outcome.
   */
  lemma SoloLecturasPlaneadas(modo: Modo, fecha: Fecha, hoy: Fecha,
                              barberos: Respuesta<map<BarberoId, string>>,
                              b1: Consulta -> Respuesta<seq<Corte>>, b2: Consulta -> Respuesta<seq<Corte>>)
    requires forall q :: q in Lecturas(modo, fecha, hoy) ==> b1(q) == b2(q)
    ensures ResultadoCarga(modo, fecha, hoy, barberos, b1) == ResultadoCarga(modo, fecha, hoy, barberos, b2)
  {
    var p := Lecturas(modo, fecha, hoy);
    if EsValida(fecha) {
      assert p[0] in p;
      if |p| == 2 { assert p[1] in p; }
    }
  }

  /** A pass fails exactly when the barber read fails, the date does not parse, or a planned read fails. */
  lemma CargaFallaSiAlgunaLecturaFalla(modo: Modo, fecha: Fecha, hoy: Fecha,
                                        barberos: Respuesta<map<BarberoId, string>>,
                                        backend: Consulta -> Respuesta<seq<Corte>>)
    ensures ResultadoCarga(modo, fecha, hoy, barberos, backend).None? <==>
      barberos.Falla? || !EsValida(fecha) ||
      exists q :: q in Lecturas(modo, fecha, hoy) && backend(q).Falla?
  {
    var p := Lecturas(modo, fecha, hoy);
    if EsValida(fecha) {
      assert p[0] in p;
      if |p| == 2 { assert p[1] in p; }
      assert forall q :: q in p ==> q == p[0] || (|p| == 2 && q == p[1]);
    }
  }

  /** Day mode shows the single partition's rows, enriched, in the order the backend returned them. */
  lemma CargaDia(fecha: Fecha, hoy: Fecha, mapa: map<BarberoId, string>,
                 backend: Consulta -> Respuesta<seq<Corte>>)
    requires EsValida(fecha)
    requires backend(Lecturas(Dia, fecha, hoy)[0]).Ok?
    ensures ResultadoCarga(Dia, fecha, hoy, Ok(mapa), backend)
         == Some(AttachBarberoNombre(backend(Lecturas(Dia, fecha, hoy)[0]).datos, mapa))
  {
  }

  /**
   * Month mode shows the archived rows followed by the live ones (only for
   * the current month), reordered ascending by timestamp: a permutation of
   * those rows in which rows with equal timestamps keep that order.
   */
  lemma CargaMes(fecha: Fecha, hoy: Fecha, mapa: map<BarberoId, string>,
                 backend: Consulta -> Respuesta<seq<Corte>>, t: int)
    requires EsValida(fecha)
    requires forall q :: q in Lecturas(Mes, fecha, hoy) ==> backend(q).Ok?
    ensures var p := Lecturas(Mes, fecha, hoy);
            var unidas := AttachBarberoNombre(backend(p[0]).datos, mapa) +
                          (if |p| == 2 then AttachBarberoNombre(backend(p[1]).datos, mapa) else []);
            var r := ResultadoCarga(Mes, fecha, hoy, Ok(mapa), backend);
            r.Some? && multiset(r.value) == multiset(unidas) && SortedBy(r.value, CreatedAt) &&
            FilterKey(r.value, CreatedAt, t) == FilterKey(unidas, CreatedAt, t)
  {
    var p := Lecturas(Mes, fecha, hoy);
    assert p[0] in p;
    var hist := AttachBarberoNombre(backend(p[0]).datos, mapa);
    var unidas := hist + (if |p| == 2 then AttachBarberoNombre(backend(p[1]).datos, mapa) else []);
    if |p| == 2 {
      assert p[1] in p;
    } else {
      assert unidas == hist;
    }
    assert ResultadoCarga(Mes, fecha, hoy, Ok(mapa), backend) == Some(SortBy(unidas, CreatedAt));
    SortByStable(unidas, CreatedAt, t);
  }

  /**
   * The reads of one `fetchCortes` pass, as its `try` block makes them:
   * whether every read succeeded, and the rows it would show.
   */
  method LeerCortes(modo: Modo, fecha: Fecha, hoy: Fecha, barberos: Respuesta<map<BarberoId, string>>,
                    backend: Consulta -> Respuesta<seq<Corte>>) returns (ok: bool, lista: seq<CorteConNombre>)
    ensures ok ==> ResultadoCarga(modo, fecha, hoy, barberos, backend) == Some(lista)
    ensures !ok ==> ResultadoCarga(modo, fecha, hoy, barberos, backend).None?
  {
    ok := false;
    lista := [];
    if barberos.Ok? {
      var mapa := barberos.datos;
      if modo == Dia {
        var rango := RangoDia(fecha);
        if rango.Some? {
          var tabla := if fecha == hoy then Cortes else CortesHistoricos;
          var resp := backend(Consulta(tabla, rango, true));
          if resp.Ok? {
            lista := AttachBarberoNombre(resp.datos, mapa);
            ok := true;
          }
        }
      } else {
        var rango := RangoMes(fecha);
        if rango.Some? {
          var historicos := backend(Consulta(CortesHistoricos, rango, false));
          if historicos.Ok? {
            var listaFinal := AttachBarberoNombre(historicos.datos, mapa);
            ok := true;
            if fecha.year == hoy.year && fecha.month == hoy.month {
              var hoyData := backend(Consulta(Cortes, None, false));
              if hoyData.Ok? {
                listaFinal := listaFinal + AttachBarberoNombre(hoyData.datos, mapa);
              } else {
                ok := false;
              }
            }
            lista := SortBy(listaFinal, CreatedAt);
          }
        }
      }
    }
  }

  /* ---------------- Top barbers ---------------- */

  /** What `acc[nombre].total` holds after the loop: the revenue of the rows grouped under that name. */
  function TotalDe(lista: seq<CorteConNombre>, nombre: string): int
  {
    Sum(FilterKey(lista, NombreAgrupado, nombre), Precio)
  }

  lemma TotalDeSnoc(pre: seq<CorteConNombre>, c: CorteConNombre, n: string)
    ensures NombreAgrupado(c) == n ==> TotalDe(pre + [c], n) == TotalDe(pre, n) + Precio(c)
    ensures NombreAgrupado(c) != n ==> TotalDe(pre + [c], n) == TotalDe(pre, n)
  {
    SumFilterKeySnoc(pre, c, NombreAgrupado, n, Precio);
  }

  /** The grouping names of lista in the order they are first seen: the key order of the accumulators. */
  function Nombres(lista: seq<CorteConNombre>): seq<string>
  {
    Keys(lista, NombreAgrupado)
  }

  /** `Object.values(acc)` for the ranking accumulator, one entry per name of ns. */
  function TotalesPorNombre(ns: seq<string>, lista: seq<CorteConNombre>): (r: seq<TopEntry>)
    ensures |r| == |ns|
  {
    seq(|ns|, j requires 0 <= j < |ns| => TopEntry(ns[j], TotalDe(lista, ns[j])))
  }

  /** The whole ranking before `slice(0, 3)`: a rearrangement of the per-name totals, descending by total, stable. */
  function Ranking(lista: seq<CorteConNombre>): (r: seq<TopEntry>)
    ensures multiset(r) == multiset(TotalesPorNombre(Nombres(lista), lista))
  {
    SortBy(TotalesPorNombre(Nombres(lista), lista), MenosTotal)
  }

  /** `calcularTopBarberos`: the first three entries of the ranking, or all of them when there are fewer. */
  function TopBarberos(lista: seq<CorteConNombre>): (r: seq<TopEntry>)
    ensures |r| == if |Ranking(lista)| < TOP then |Ranking(lista)| else TOP
    ensures r == Ranking(lista)[..|r|]
  {
    var r := Ranking(lista);
    r[..if |r| < TOP then |r| else TOP]
  }

  /** The number of distinct grouping names in lista. */
  function NumeroDeNombres(lista: seq<CorteConNombre>): nat
  {
    |KeySet(lista, NombreAgrupado)|
  }

  /** Every ranking entry is the total of a name that occurs in lista. */
  lemma RankingEntradas(lista: seq<CorteConNombre>, i: int)
    requires 0 <= i < |Ranking(lista)|
    ensures Ranking(lista)[i].total == TotalDe(lista, Ranking(lista)[i].nombre)
    ensures exists k :: 0 <= k < |lista| && NombreAgrupado(lista[k]) == Ranking(lista)[i].nombre
  {
    var ks := Nombres(lista);
    var u := TotalesPorNombre(ks, lista);
    PermutationMember(u, Ranking(lista), i);
    var j :| 0 <= j < |u| && u[j] == Ranking(lista)[i];
    KeysMembers(lista, NombreAgrupado);
    assert ks[j] in ks;
  }

  lemma RankingLongitud(lista: seq<CorteConNombre>)
    ensures |Ranking(lista)| == NumeroDeNombres(lista)
  {
    KeysCount(lista, NombreAgrupado);
  }

  /**
   * The ranking has at most three entries, as many as there are distinct
   * names when fewer; it is non-increasing by total, every entry's total
   * is the revenue of the rows under its name, and no name is listed twice.
   */
  lemma TopBarberosCorrecto(lista: seq<CorteConNombre>)
    ensures var top := TopBarberos(lista);
            |top| == (if NumeroDeNombres(lista) < TOP then NumeroDeNombres(lista) else TOP) &&
            (forall i, j :: 0 <= i < j < |top| ==> top[i].total >= top[j].total) &&
            (forall i :: 0 <= i < |top| ==> top[i].total == TotalDe(lista, top[i].nombre)) &&
            (forall i :: 0 <= i < |top| ==> exists k :: 0 <= k < |lista| && NombreAgrupado(lista[k]) == top[i].nombre) &&
            (forall i, j :: 0 <= i < j < |top| ==> top[i].nombre != top[j].nombre)
  {
    var r := Ranking(lista);
    var top := TopBarberos(lista);
    RankingLongitud(lista);
    RankingSinRepetidos(lista);
    assert forall i :: 0 <= i < |top| ==> top[i] == r[i];
    assert SortedBy(r, MenosTotal);
    forall i, j | 0 <= i < j < |top| ensures top[i].total >= top[j].total {
      assert MenosTotal(r[i]) <= MenosTotal(r[j]);
    }
    forall i | 0 <= i < |top|
      ensures top[i].total == TotalDe(lista, top[i].nombre)
      ensures exists k :: 0 <= k < |lista| && NombreAgrupado(lista[k]) == top[i].nombre
    {
      RankingEntradas(lista, i);
    }
  }

  /** Every name that occurs has its entry in the ranking. */
  lemma RankingCompleto(lista: seq<CorteConNombre>, n: string)
    requires n in KeySet(lista, NombreAgrupado)
    ensures TopEntry(n, TotalDe(lista, n)) in Ranking(lista)
  {
    var ks := Nombres(lista);
    var u := TotalesPorNombre(ks, lista);
    KeysMembers(lista, NombreAgrupado);
    var m :| 0 <= m < |ks| && ks[m] == n;
    assert u[m] == TopEntry(n, TotalDe(lista, n));
    assert u[m] in multiset(Ranking(lista));
  }

  /** No name has two entries in the ranking. */
  lemma RankingSinRepetidos(lista: seq<CorteConNombre>)
    ensures forall i, j :: 0 <= i < j < |Ranking(lista)| ==> Ranking(lista)[i].nombre != Ranking(lista)[j].nombre
  {
    var ks := Nombres(lista);
    var u := TotalesPorNombre(ks, lista);
    var r := Ranking(lista);
    assert Distinct(u) by {
      forall i, j | 0 <= i < j < |u| ensures u[i] != u[j] {
        assert u[i].nombre == ks[i] && u[j].nombre == ks[j];
      }
    }
    DistinctPermutation(u, r);
    forall i, j | 0 <= i < j < |r| ensures r[i].nombre != r[j].nombre {
      RankingEntradas(lista, i);
      RankingEntradas(lista, j);
    }
  }

  /**
   * The top three are the largest totals: a name left out of the top list
   * has a total no larger than any listed one.
   */
  lemma TopSonLosMayores(lista: seq<CorteConNombre>, n: string, i: int)
    requires n in KeySet(lista, NombreAgrupado)
    requires forall k :: 0 <= k < |TopBarberos(lista)| ==> TopBarberos(lista)[k].nombre != n
    requires 0 <= i < |TopBarberos(lista)|
    ensures TopBarberos(lista)[i].total >= TotalDe(lista, n)
  {
    var r := Ranking(lista);
    var top := TopBarberos(lista);
    RankingCompleto(lista, n);
    var m :| 0 <= m < |r| && r[m] == TopEntry(n, TotalDe(lista, n));
    assert forall k :: 0 <= k < |top| ==> r[k] != r[m] by {
      forall k | 0 <= k < |top| ensures r[k] != r[m] {
        assert top[k] == r[k];
      }
    }
    assert top[i] == r[i];
    assert MenosTotal(r[i]) <= MenosTotal(r[m]);
  }

  /**
   * Equal totals keep first-seen order: for every total, the entries of the
   * ranking carrying it appear in the order their names were first seen.
   */
  lemma RankingEstable(lista: seq<CorteConNombre>, total: int)
    ensures FilterKey(Ranking(lista), Total, total)
         == FilterKey(TotalesPorNombre(Nombres(lista), lista), Total, total)
  {
    OrdenDescendenteEstable(TotalesPorNombre(Nombres(lista), lista), total);
  }

  /**
   * The top list keeps that order too: for every total, its entries with that
   * total are the first of the names with that total, in first-seen order.
   */
  lemma TopEstable(lista: seq<CorteConNombre>, total: int)
    ensures FilterKey(TopBarberos(lista), Total, total)
         <= FilterKey(TotalesPorNombre(Nombres(lista), lista), Total, total)
  {
    var r := Ranking(lista);
    var top := TopBarberos(lista);
    assert r == top + r[|top|..];
    FilterKeyAppend(top, r[|top|..], Total, total);
    RankingEstable(lista, total);
  }

  /** Sorting any entries descending by total keeps the entries of each total in their order. */
  lemma OrdenDescendenteEstable(u: seq<TopEntry>, total: int)
    ensures FilterKey(SortBy(u, MenosTotal), Total, total) == FilterKey(u, Total, total)
  {
    var r := SortBy(u, MenosTotal);
    SortByStable(u, MenosTotal, -total);
    assert FilterKey(r, MenosTotal, -total) == FilterKey(u, MenosTotal, -total);
    PorTotal(r, total);
    assert FilterKey(r, MenosTotal, -total) == FilterKey(r, Total, total);
    PorTotal(u, total);
    assert FilterKey(u, MenosTotal, -total) == FilterKey(u, Total, total);
  }

  /** Selecting by the descending sort key is selecting by total. */
  lemma PorTotal(s: seq<TopEntry>, total: int)
    ensures FilterKey(s, MenosTotal, -total) == FilterKey(s, Total, total)
  {
    FilterKeySameSelection(s, MenosTotal, -total, Total, total);
  }

  /** The ranking loses no revenue: its totals add up to the revenue of all rows. */
  lemma RankingSumaIngresos(lista: seq<CorteConNombre>)
    ensures Sum(Ranking(lista), Total) == Sum(lista, Precio)
  {
    var ks := Nombres(lista);
    SortBySum(TotalesPorNombre(ks, lista), MenosTotal, Total);
    SumaTotalesPorNombre(ks, lista);
    GroupedSumOfKeys(lista, NombreAgrupado, Precio);
  }

  lemma {:induction false} SumaTotalesPorNombre(ns: seq<string>, lista: seq<CorteConNombre>)
    ensures Sum(TotalesPorNombre(ns, lista), Total) == GroupedSum(ns, lista, NombreAgrupado, Precio)
  {
    if ns != [] {
      var ns' := ns[..|ns| - 1];
      SumaTotalesPorNombre(ns', lista);
      assert TotalesPorNombre(ns, lista)[..|ns| - 1] == TotalesPorNombre(ns', lista);
    }
  }

  /** What the ranking loop's dictionary holds after the rows of pre: the running total of each name seen, keys in first-seen order. */
  ghost predicate TotalesAcumulados(acc: map<string, int>, orden: seq<string>, pre: seq<CorteConNombre>)
  {
    orden == Nombres(pre) &&
    (forall n :: n in acc <==> n in orden) &&
    (forall n :: n in acc ==> acc[n] == TotalDe(pre, n))
  }

  /**
   * One turn of the ranking loop: a new name is appended to the key order
   * with total 0, then the row's price is added to its name's total; no
   * other total changes.
   */
  lemma TotalesPaso(a0: map<string, int>, o0: seq<string>, pre: seq<CorteConNombre>, c: CorteConNombre,
                    post: seq<CorteConNombre>, a: map<string, int>, o: seq<string>)
    requires post == pre + [c]
    requires TotalesAcumulados(a0, o0, pre)
    requires o == if NombreAgrupado(c) in a0 then o0 else o0 + [NombreAgrupado(c)]
    requires a.Keys == a0.Keys + {NombreAgrupado(c)}
    requires forall n :: n in a0 && n != NombreAgrupado(c) ==> a[n] == a0[n]
    requires NombreAgrupado(c) in a0 ==> a[NombreAgrupado(c)] == a0[NombreAgrupado(c)] + Precio(c)
    requires NombreAgrupado(c) !in a0 ==> a[NombreAgrupado(c)] == Precio(c)
    ensures TotalesAcumulados(a, o, post)
  {
    var k := NombreAgrupado(c);
    KeysSnoc(pre, c, NombreAgrupado);
    if k !in a0 {
      FilterKeyOfAbsent(pre, NombreAgrupado, k);
    }
    forall n | n in a ensures a[n] == TotalDe(post, n) {
      TotalDeSnoc(pre, c, n);
    }
  }

  /** The `forEach` callback of `calcularTopBarberos`: a new name starts at 0, then the row's price is added. */
  method SumarPrecio(acc: map<string, int>, orden: seq<string>, ghost pre: seq<CorteConNombre>, c: CorteConNombre)
    returns (a: map<string, int>, o: seq<string>)
    requires TotalesAcumulados(acc, orden, pre)
    ensures TotalesAcumulados(a, o, pre + [c])
  {
    var nombre := NombreAgrupado(c);
    a, o := acc, orden;
    if nombre !in a {
      a := a[nombre := 0];
      o := o + [nombre];
    }
    a := a[nombre := a[nombre] + Precio(c)];
    TotalesPaso(acc, orden, pre, c, pre + [c], a, o);
  }

  /**
   * The accumulation loop of `calcularTopBarberos`: a dictionary from name to
   * running total, whose keys are remembered in first-seen order.
   */
  method AcumularTotales(lista: seq<CorteConNombre>) returns (acc: map<string, int>, orden: seq<string>)
    ensures orden == Nombres(lista)
    ensures forall n :: n in acc <==> n in orden
    ensures forall n :: n in acc ==> acc[n] == TotalDe(lista, n)
  {
    acc := map[];
    orden := [];
    var i := 0;
    while i < |lista|
      invariant 0 <= i <= |lista|
      invariant TotalesAcumulados(acc, orden, lista[..i])
    {
      assert lista[..i + 1] == lista[..i] + [lista[i]];
      acc, orden := SumarPrecio(acc, orden, lista[..i], lista[i]);
      i := i + 1;
    }
    assert lista[..i] == lista;
  }

  /**
   * `calcularTopBarberos`: the accumulated totals in first-seen order,
   * sorted descending by total and cut to three.
   */
  method CalcularTopBarberos(lista: seq<CorteConNombre>) returns (top: seq<TopEntry>)
    ensures top == TopBarberos(lista)
  {
    var acc, orden := AcumularTotales(lista);
    var valores := seq(|orden|, j requires 0 <= j < |orden| && orden[j] in acc => TopEntry(orden[j], acc[orden[j]]));
    assert valores == TotalesPorNombre(orden, lista);
    var ranking := SortBy(valores, MenosTotal);
    top := ranking[..if |ranking| < TOP then |ranking| else TOP];
  }

  /* ---------------- Per-barber summary ---------------- */

  function EntradaDe(lista: seq<CorteConNombre>, nombre: string): ResumenEntry
  {
    var rows := FilterKey(lista, NombreAgrupado, nombre);
    ResumenEntry(nombre, |rows|, Sum(rows, MontoBarbero), Sum(rows, Precio))
  }

  lemma EntradaDeSnoc(pre: seq<CorteConNombre>, c: CorteConNombre, n: string)
    ensures NombreAgrupado(c) == n ==> EntradaDe(pre + [c], n) == Contar(EntradaDe(pre, n), c)
    ensures NombreAgrupado(c) != n ==> EntradaDe(pre + [c], n) == EntradaDe(pre, n)
  {
    var rows := FilterKey(pre, NombreAgrupado, n);
    var rows1 := FilterKey(pre + [c], NombreAgrupado, n);
    FilterKeySnoc(pre, c, NombreAgrupado, n);
    SumFilterKeySnoc(pre, c, NombreAgrupado, n, Precio);
    SumFilterKeySnoc(pre, c, NombreAgrupado, n, MontoBarbero);
    if NombreAgrupado(c) == n {
      assert |rows1| == |rows| + 1;
    } else {
      assert |rows1| == |rows|;
    }
  }

  function ResumenPorNombre(ns: seq<string>, lista: seq<CorteConNombre>): (r: seq<ResumenEntry>)
    ensures |r| == |ns|
  {
    seq(|ns|, j requires 0 <= j < |ns| => EntradaDe(lista, ns[j]))
  }

  /** `calcularResumenBarberos`: one entry per name, sorted descending by what the barber earned (stable). */
  function ResumenBarberos(lista: seq<CorteConNombre>): (r: seq<ResumenEntry>)
    ensures multiset(r) == multiset(ResumenPorNombre(Nombres(lista), lista))
  {
    SortBy(ResumenPorNombre(Nombres(lista), lista), MenosGanado)
  }

  lemma {:induction false} SumaCount<T>(s: seq<T>, f: T -> int)
    requires forall x :: f(x) == 1
    ensures Sum(s, f) == |s|
  {
    if s != [] { SumaCount(s[..|s| - 1], f); }
  }

  lemma {:induction false} SumasResumenPorNombre(ns: seq<string>, lista: seq<CorteConNombre>)
    ensures Sum(ResumenPorNombre(ns, lista), Generado) == GroupedSum(ns, lista, NombreAgrupado, Precio)
    ensures Sum(ResumenPorNombre(ns, lista), Ganado) == GroupedSum(ns, lista, NombreAgrupado, MontoBarbero)
    ensures Sum(ResumenPorNombre(ns, lista), CuentaCortes) == GroupedSum(ns, lista, NombreAgrupado, Uno)
  {
    if ns != [] {
      var ns' := ns[..|ns| - 1];
      SumasResumenPorNombre(ns', lista);
      assert ResumenPorNombre(ns, lista)[..|ns| - 1] == ResumenPorNombre(ns', lista);
      SumaCount(FilterKey(lista, NombreAgrupado, ns[|ns| - 1]), Uno);
    }
  }

  /**
   * The summary adds up: its counts sum to the number of rows, its `generado`
   * to the revenue and its `ganado` to the barbers' share of all rows.
   */
  lemma ResumenSumas(lista: seq<CorteConNombre>)
    ensures Sum(ResumenBarberos(lista), CuentaCortes) == |lista|
    ensures Sum(ResumenBarberos(lista), Generado) == Sum(lista, Precio)
    ensures Sum(ResumenBarberos(lista), Ganado) == Sum(lista, MontoBarbero)
  {
    var ks := Nombres(lista);
    var u := ResumenPorNombre(ks, lista);
    SortBySum(u, MenosGanado, CuentaCortes);
    SortBySum(u, MenosGanado, Generado);
    SortBySum(u, MenosGanado, Ganado);
    SumasResumenPorNombre(ks, lista);
    GroupedSumOfKeys(lista, NombreAgrupado, Precio);
    GroupedSumOfKeys(lista, NombreAgrupado, MontoBarbero);
    GroupedSumOfKeys(lista, NombreAgrupado, Uno);
    SumaCount(lista, Uno);
  }

  /** Every summary entry is computed from the rows under its name. */
  lemma ResumenEntradas(lista: seq<CorteConNombre>, i: int)
    requires 0 <= i < |ResumenBarberos(lista)|
    ensures ResumenBarberos(lista)[i] == EntradaDe(lista, ResumenBarberos(lista)[i].nombre)
  {
    var u := ResumenPorNombre(Nombres(lista), lista);
    PermutationMember(u, ResumenBarberos(lista), i);
  }

  lemma ResumenSinRepetidos(lista: seq<CorteConNombre>)
    ensures Distinct(ResumenBarberos(lista))
  {
    var ks := Nombres(lista);
    var u := ResumenPorNombre(ks, lista);
    assert Distinct(u) by {
      forall i, j | 0 <= i < j < |u| ensures u[i] != u[j] {
        assert u[i].nombre == ks[i] && u[j].nombre == ks[j];
      }
    }
    DistinctPermutation(u, ResumenBarberos(lista));
  }

  /**
   * The summary has one entry per distinct name, no name twice, every entry
   * computed from the rows under its name, and is non-increasing by `ganado`.
   */
  lemma ResumenCorrecto(lista: seq<CorteConNombre>)
    ensures var r := ResumenBarberos(lista);
            |r| == NumeroDeNombres(lista) &&
            (forall i, j :: 0 <= i < j < |r| ==> r[i].nombre != r[j].nombre) &&
            (forall i :: 0 <= i < |r| ==> r[i] == EntradaDe(lista, r[i].nombre)) &&
            (forall i, j :: 0 <= i < j < |r| ==> r[i].ganado >= r[j].ganado)
  {
    var r := ResumenBarberos(lista);
    KeysCount(lista, NombreAgrupado);
    ResumenSinRepetidos(lista);
    forall i | 0 <= i < |r| ensures r[i] == EntradaDe(lista, r[i].nombre) {
      ResumenEntradas(lista, i);
    }
    forall i, j | 0 <= i < j < |r| ensures r[i].nombre != r[j].nombre && r[i].ganado >= r[j].ganado {
      ResumenEntradas(lista, i);
      ResumenEntradas(lista, j);
      assert MenosGanado(r[i]) <= MenosGanado(r[j]);
    }
  }

  /** Every name of the top three is also a name of the summary. */
  lemma TopEnResumen(lista: seq<CorteConNombre>, i: int)
    requires 0 <= i < |TopBarberos(lista)|
    ensures exists j :: 0 <= j < |ResumenBarberos(lista)| && ResumenBarberos(lista)[j].nombre == TopBarberos(lista)[i].nombre
  {
    var ks := Nombres(lista);
    var u := ResumenPorNombre(ks, lista);
    var r := ResumenBarberos(lista);
    var nombre := TopBarberos(lista)[i].nombre;
    KeysMembers(lista, NombreAgrupado);
    RankingEntradas(lista, i);
    assert TopBarberos(lista)[i] == Ranking(lista)[i];
    var k :| 0 <= k < |lista| && NombreAgrupado(lista[k]) == nombre;
    assert nombre in KeySet(lista, NombreAgrupado);
    var m :| 0 <= m < |ks| && ks[m] == nombre;
    assert u[m].nombre == nombre;
    PermutationMember(r, u, m);
    var j :| 0 <= j < |r| && r[j] == u[m];
  }

  /** What the summary loop's dictionary holds after the rows of pre: the entry of each name seen, keys in first-seen order. */
  ghost predicate ResumenAcumulado(acc: map<string, ResumenEntry>, orden: seq<string>, pre: seq<CorteConNombre>)
  {
    orden == Nombres(pre) &&
    (forall n :: n in acc <==> n in orden) &&
    (forall n :: n in acc ==> acc[n] == EntradaDe(pre, n))
  }

  /** A row counted into an entry: one more cut, its barber share and its price. */
  function Contar(e: ResumenEntry, c: CorteConNombre): ResumenEntry
  {
    e.(cortes := e.cortes + 1, ganado := e.ganado + MontoBarbero(c), generado := e.generado + Precio(c))
  }

  /**
   * One turn of the summary loop: a new name is appended to the key order
   * with an empty entry, then the row is counted into its name's entry; no
   * other entry changes.
   */
  lemma ResumenPaso(a0: map<string, ResumenEntry>, o0: seq<string>, pre: seq<CorteConNombre>, c: CorteConNombre,
                    post: seq<CorteConNombre>, a: map<string, ResumenEntry>, o: seq<string>)
    requires post == pre + [c]
    requires ResumenAcumulado(a0, o0, pre)
    requires o == if NombreAgrupado(c) in a0 then o0 else o0 + [NombreAgrupado(c)]
    requires a.Keys == a0.Keys + {NombreAgrupado(c)}
    requires forall n :: n in a0 && n != NombreAgrupado(c) ==> a[n] == a0[n]
    requires NombreAgrupado(c) in a0 ==> a[NombreAgrupado(c)] == Contar(a0[NombreAgrupado(c)], c)
    requires NombreAgrupado(c) !in a0 ==> a[NombreAgrupado(c)] == Contar(ResumenEntry(NombreAgrupado(c), 0, 0, 0), c)
    ensures ResumenAcumulado(a, o, post)
  {
    var k := NombreAgrupado(c);
    KeysSnoc(pre, c, NombreAgrupado);
    if k !in a0 {
      FilterKeyOfAbsent(pre, NombreAgrupado, k);
    }
    forall n | n in a ensures a[n] == EntradaDe(post, n) {
      EntradaDeSnoc(pre, c, n);
    }
  }

  /** The `forEach` callback of `calcularResumenBarberos`: a new name starts empty, then the row is counted. */
  method ContarCorte(acc: map<string, ResumenEntry>, orden: seq<string>, ghost pre: seq<CorteConNombre>, c: CorteConNombre)
    returns (a: map<string, ResumenEntry>, o: seq<string>)
    requires ResumenAcumulado(acc, orden, pre)
    ensures ResumenAcumulado(a, o, pre + [c])
  {
    var nombre := NombreAgrupado(c);
    a, o := acc, orden;
    if nombre !in a {
      a := a[nombre := ResumenEntry(nombre, 0, 0, 0)];
      o := o + [nombre];
    }
    a := a[nombre := Contar(a[nombre], c)];
    ResumenPaso(acc, orden, pre, c, pre + [c], a, o);
  }

  /**
   * The accumulation loop of `calcularResumenBarberos`: three running sums
   * per name, the names remembered in first-seen order.
   */
  method AcumularResumen(lista: seq<CorteConNombre>) returns (acc: map<string, ResumenEntry>, orden: seq<string>)
    ensures orden == Nombres(lista)
    ensures forall n :: n in acc <==> n in orden
    ensures forall n :: n in acc ==> acc[n] == EntradaDe(lista, n)
  {
    acc := map[];
    orden := [];
    var i := 0;
    while i < |lista|
      invariant 0 <= i <= |lista|
      invariant ResumenAcumulado(acc, orden, lista[..i])
    {
      assert lista[..i + 1] == lista[..i] + [lista[i]];
      acc, orden := ContarCorte(acc, orden, lista[..i], lista[i]);
      i := i + 1;
    }
    assert lista[..i] == lista;
  }

  /** `calcularResumenBarberos`: the accumulated entries in first-seen order, sorted descending by `ganado`. */
  method CalcularResumenBarberos(lista: seq<CorteConNombre>) returns (resumen: seq<ResumenEntry>)
    ensures resumen == ResumenBarberos(lista)
  {
    var acc, orden := AcumularResumen(lista);
    var valores := seq(|orden|, j requires 0 <= j < |orden| && orden[j] in acc => acc[orden[j]]);
    assert valores == ResumenPorNombre(orden, lista);
    resumen := SortBy(valores, MenosGanado);
  }

  /* ---------------- Filter, totals and the barber list ---------------- */

  /** Every row carries a name, as every row of a pass does after `attachBarberoNombre`. */
  predicate ConNombre(cortes: seq<CorteConNombre>)
  {
    forall i :: 0 <= i < |cortes| ==> cortes[i].nombre != ""
  }

  /** `cortesFiltrados`: everything for "todos", else the rows whose attached name is the filter. */
  function CortesFiltrados(cortes: seq<CorteConNombre>, filtro: string): (r: seq<CorteConNombre>)
    ensures |r| <= |cortes|
    ensures forall c :: c in r ==> c in cortes && (filtro == TODOS || c.nombre == filtro)
  {
    if filtro == TODOS then cortes
    else
      FilterKeyMembers(cortes, Nombre, filtro);
      FilterKey(cortes, Nombre, filtro)
  }

  /** `totalIngresos`: the revenue of the filtered rows; for one barber, what the summary says that barber generated. */
  function TotalIngresos(cortes: seq<CorteConNombre>, filtro: string): (t: int)
    ensures filtro != TODOS && ConNombre(cortes) ==> t == EntradaDe(cortes, filtro).generado
  {
    MismoFiltro(cortes, filtro);
    Sum(CortesFiltrados(cortes, filtro), Precio)
  }

  /** `totalBarberos`: the barbers' share of the filtered rows; for one barber, what the summary says that barber earned. */
  function TotalBarberos(cortes: seq<CorteConNombre>, filtro: string): (t: int)
    ensures filtro != TODOS && ConNombre(cortes) ==> t == EntradaDe(cortes, filtro).ganado
  {
    MismoFiltro(cortes, filtro);
    Sum(CortesFiltrados(cortes, filtro), MontoBarbero)
  }

  /**
   * `totalLocal`: the shop's share of the filtered rows. Over all rows it is
   * the sum of every barber's shop share; for one barber it is the shop's
   * share of the rows grouped under that barber's name.
   */
  function TotalLocal(cortes: seq<CorteConNombre>, filtro: string): (t: int)
    ensures filtro == TODOS ==> t == GroupedSum(Nombres(cortes), cortes, NombreAgrupado, MontoBarberia)
    ensures filtro != TODOS && ConNombre(cortes) ==> t == Sum(FilterKey(cortes, NombreAgrupado, filtro), MontoBarberia)
  {
    MismoFiltro(cortes, filtro);
    GroupedSumOfKeys(cortes, NombreAgrupado, MontoBarberia);
    Sum(CortesFiltrados(cortes, filtro), MontoBarberia)
  }

  /**
   * The filter keeps exactly the rows whose attached name is the chosen one,
   * and keeps their order (it distributes over concatenation); "todos" keeps
   * every row.
   */
  lemma FiltroCorrecto(cortes: seq<CorteConNombre>, otros: seq<CorteConNombre>, filtro: string)
    ensures CortesFiltrados(cortes, TODOS) == cortes
    ensures filtro != TODOS ==>
      (forall c :: c in CortesFiltrados(cortes, filtro) <==> c in cortes && c.nombre == filtro)
    ensures CortesFiltrados(cortes + otros, filtro) == CortesFiltrados(cortes, filtro) + CortesFiltrados(otros, filtro)
  {
    FilterKeyAppend(cortes, otros, Nombre, filtro);
    FilterKeyMembers(cortes, Nombre, filtro);
  }

  /**
   * With "todos" the three totals are the sums over all rows and agree with
   * the summary; with one barber's name they equal that barber's summary
   * entry (rows from the enrichment always carry a non-empty name).
   */
  lemma TotalesCoincidenConResumen(cortes: seq<CorteConNombre>, filtro: string)
    requires ConNombre(cortes)
    ensures TotalIngresos(cortes, TODOS) == Sum(ResumenBarberos(cortes), Generado)
    ensures TotalBarberos(cortes, TODOS) == Sum(ResumenBarberos(cortes), Ganado)
    ensures filtro != TODOS ==>
      |CortesFiltrados(cortes, filtro)| == EntradaDe(cortes, filtro).cortes &&
      TotalIngresos(cortes, filtro) == EntradaDe(cortes, filtro).generado &&
      TotalBarberos(cortes, filtro) == EntradaDe(cortes, filtro).ganado
  {
    ResumenSumas(cortes);
    MismoFiltro(cortes, filtro);
  }

  /** On rows that all carry a name, the filter's key and the grouping key select the same rows. */
  lemma {:induction false} MismoFiltro(cortes: seq<CorteConNombre>, filtro: string)
    ensures ConNombre(cortes) ==> FilterKey(cortes, Nombre, filtro) == FilterKey(cortes, NombreAgrupado, filtro)
  {
    if cortes != [] {
      MismoFiltro(cortes[..|cortes| - 1], filtro);
    }
  }

  function EsVacio(s: string): bool { s == "" }

  /** `barberosDisponibles`: the non-empty attached names, each once, in string order. */
  function BarberosDisponibles(cortes: seq<CorteConNombre>): (r: seq<string>)
    ensures LexSorted(r)
  {
    SortStrings(FilterKey(Keys(cortes, Nombre), EsVacio, false))
  }

  lemma BarberosDisponiblesMiembro(cortes: seq<CorteConNombre>, n: string)
    ensures n in BarberosDisponibles(cortes) <==> n != "" && n in KeySet(cortes, Nombre)
  {
    var ks := Keys(cortes, Nombre);
    var f := FilterKey(ks, EsVacio, false);
    var b := BarberosDisponibles(cortes);
    KeysMembers(cortes, Nombre);
    FilterKeyMembers(ks, EsVacio, false);
    assert n in b <==> n in multiset(b);
    assert n in f <==> n in multiset(f);
  }

  /**
   * The barber list holds every non-empty attached name of the rows and
   * nothing else, each once, in string order.
   */
  lemma BarberosDisponiblesCorrecto(cortes: seq<CorteConNombre>)
    ensures var b := BarberosDisponibles(cortes);
            LexSorted(b) && Distinct(b) &&
            (forall n :: n in b <==> n != "" && exists i :: 0 <= i < |cortes| && cortes[i].nombre == n)
  {
    var ks := Keys(cortes, Nombre);
    var b := BarberosDisponibles(cortes);
    FilterKeyDistinct(ks, EsVacio, false);
    DistinctPermutation(FilterKey(ks, EsVacio, false), b);
    forall n ensures n in b <==> n != "" && exists i :: 0 <= i < |cortes| && cortes[i].nombre == n {
      BarberosDisponiblesMiembro(cortes, n);
      assert n in KeySet(cortes, Nombre) <==> exists i :: 0 <= i < |cortes| && Nombre(cortes[i]) == n;
    }
  }

  /* ---------------- The page's state ---------------- */

  class PaginaContabilidad {
    var fecha: Fecha
    var modo: Modo
    var barberoFiltro: string
    var cortes: seq<CorteConNombre>
    var topBarberos: seq<TopEntry>
    var resumenBarberos: seq<ResumenEntry>
    var loading: bool

    /** The initial state; `hoyUtc` is the UTC date the source takes the default date from. */
    constructor (hoyUtc: Fecha)
      ensures fecha == hoyUtc && modo == Dia && barberoFiltro == TODOS
      ensures cortes == [] && topBarberos == [] && resumenBarberos == [] && loading
    {
      fecha := hoyUtc;
      modo := Dia;
      barberoFiltro := TODOS;
      cortes := [];
      topBarberos := [];
      resumenBarberos := [];
      loading := true;
    }

    /**
     * `fetchCortes`: one pass over the selected date and mode. `hoy` is the
     * viewer's local date. On success the rows and both aggregations over
     * them are replaced; on any failure all three are cleared; loading ends
     * false on every path; the selection is untouched.
     */
    method FetchCortes(hoy: Fecha, barberos: Respuesta<map<BarberoId, string>>,
                       backend: Consulta -> Respuesta<seq<Corte>>)
      modifies this
      ensures !loading
      ensures fecha == old(fecha) && modo == old(modo) && barberoFiltro == old(barberoFiltro)
      ensures match ResultadoCarga(old(modo), old(fecha), hoy, barberos, backend)
              case None => cortes == [] && topBarberos == [] && resumenBarberos == []
              case Some(lista) =>
                cortes == lista && topBarberos == TopBarberos(lista) && resumenBarberos == ResumenBarberos(lista)
    {
      loading := true;
      var ok, lista := LeerCortes(modo, fecha, hoy, barberos, backend);
      if ok {
        cortes := lista;
        topBarberos := CalcularTopBarberos(lista);
        resumenBarberos := CalcularResumenBarberos(lista);
      } else {
        cortes := [];
        topBarberos := [];
        resumenBarberos := [];
      }
      loading := false;
    }

    method SetFecha(f: Fecha)
      modifies this`fecha
      ensures fecha == f
    {
      fecha := f;
    }

    method SetModo(m: Modo)
      modifies this`modo
      ensures modo == m
    {
      modo := m;
    }

    method SetBarberoFiltro(f: string)
      modifies this`barberoFiltro
      ensures barberoFiltro == f
    {
      barberoFiltro := f;
    }
  }
}
