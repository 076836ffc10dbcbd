/**
 * Calendar arithmetic behind the accounting page's query ranges: a local
 * date, JavaScript's `new Date(year, monthIndex, day)` with its roll-over
 * into neighbouring months, and the day and month ranges built from them.
 */
module Calendario {
  import opened Tipos

  /** A local calendar date as the `yyyy-mm-dd` text of a date input spells it (month 1..12). */
  datatype Fecha = Fecha(year: int, month: int, day: int)

  /** A local wall-clock instant at millisecond precision. */
  datatype Instante = Instante(fecha: Fecha, hora: int, minuto: int, segundo: int, ms: int)

  /** Both ends are included (`gte` and `lte`). */
  datatype Rango = Rango(inicio: Instante, fin: Instante)

  /** Gregorian leap years. */
  predicate EsBisiesto(y: int)
  {
    (y % 4 == 0 && y % 100 != 0) || y % 400 == 0
  }

  function DiasDelMes(y: int, m: int): (d: int)
    requires 1 <= m <= 12
    ensures 28 <= d <= 31
    ensures d == 29 <==> m == 2 && EsBisiesto(y)
  {
    if m == 2 then (if EsBisiesto(y) then 29 else 28)
    else if m == 4 || m == 6 || m == 9 || m == 11 then 30
    else 31
  }

  /** A date that `new Date("yyyy-mm-ddT00:00:00")` accepts. */
  predicate EsValida(f: Fecha)
  {
    1 <= f.month <= 12 && 1 <= f.day <= DiasDelMes(f.year, f.month)
  }

  /**
   * The date part of `new Date(year, monthIndex, day)`: the month index counts
   * from 0 and carries into the year (floor division), and a day outside the
   * month carries into the months before or after it, so day 0 is the last
   * day of the month before.
   */
  function DesdeComponentes(year: int, monthIndex: int, day: int): (f: Fecha)
    ensures EsValida(f)
    decreases if day < 1 then 1 - day else 0, if day < 1 then 0 else day
  {
    var y := year + monthIndex / 12;
    var m := monthIndex % 12;
    if day < 1 then
      var py := if m == 0 then y - 1 else y;
      var pm := if m == 0 then 11 else m - 1;
      DesdeComponentes(py, pm, day + DiasDelMes(py, pm + 1))
    else if day > DiasDelMes(y, m + 1) then
      DesdeComponentes(y, m + 1, day - DiasDelMes(y, m + 1))
    else
      Fecha(y, m + 1, day)
  }

  /** A valid date comes back unchanged from its own components. */
  lemma DesdeComponentesValida(f: Fecha)
    requires EsValida(f)
    ensures DesdeComponentes(f.year, f.month - 1, f.day) == f
  {
    assert (f.month - 1) / 12 == 0 && (f.month - 1) % 12 == f.month - 1;
  }

  /** "Day 0 of the next month" is the last day of this month, in December too. */
  lemma DiaCeroDelMesSiguiente(y: int, m: int)
    requires 1 <= m <= 12
    ensures DesdeComponentes(y, m, 0) == Fecha(y, m, DiasDelMes(y, m))
  {
    if m == 12 {
      assert 12 / 12 == 1 && 12 % 12 == 0;
      assert (11 / 12 == 0) && (11 % 12 == 11);
      assert DesdeComponentes(y + 1 - 1, 11, DiasDelMes(y, 12)) == Fecha(y, 12, DiasDelMes(y, 12));
    } else {
      assert m / 12 == 0 && m % 12 == m;
      assert (m - 1) / 12 == 0 && (m - 1) % 12 == m - 1;
      assert DesdeComponentes(y, m - 1, DiasDelMes(y, m)) == Fecha(y, m, DiasDelMes(y, m));
    }
  }

  /** `getRangoDiaISO`: local 00:00:00.000 to 23:59:59.999 of the date; an unparsable date throws. */
  function RangoDia(f: Fecha): (r: Option<Rango>)
    ensures r.Some? <==> EsValida(f)
    ensures r.Some? ==> r.value.inicio == Instante(f, 0, 0, 0, 0) && r.value.fin == Instante(f, 23, 59, 59, 999)
  {
    if EsValida(f) then Some(Rango(Instante(f, 0, 0, 0, 0), Instante(f, 23, 59, 59, 999)))
    else None
  }

  /**
   * `getRangoMesISO`: from day 1 of the date's month at 00:00:00.000 to day 0
   * of the next month at 23:59:59.999; an unparsable date throws.
   */
  function RangoMes(f: Fecha): (r: Option<Rango>)
    ensures r.Some? <==> EsValida(f)
  {
    if EsValida(f) then
      Some(Rango(Instante(DesdeComponentes(f.year, f.month - 1, 1), 0, 0, 0, 0),
                 Instante(DesdeComponentes(f.year, f.month, 0), 23, 59, 59, 999)))
    else None
  }

  /**
   * The month range runs from the first to the last calendar day of the
   * selected date's month, so it contains that date.
   */
  lemma RangoMesCubreElMes(f: Fecha)
    requires EsValida(f)
    ensures RangoMes(f) == Some(Rango(Instante(Fecha(f.year, f.month, 1), 0, 0, 0, 0),
                                      Instante(Fecha(f.year, f.month, DiasDelMes(f.year, f.month)), 23, 59, 59, 999)))
    ensures RangoMes(f).value.inicio.fecha.day <= f.day <= RangoMes(f).value.fin.fecha.day
  {
    DesdeComponentesValida(Fecha(f.year, f.month, 1));
    DiaCeroDelMesSiguiente(f.year, f.month);
  }
}
