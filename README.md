# barber-panel core, modelled in Dafny

This project models the logic of four pages of the barber-shop owner panel
and proves what they promise. The backend reads are replaced by parameters.

- **Accounting** (`src/pages/Contabilidad.jsx`), modules `Calendario` and `Contabilidad`:
  - the day and month query ranges, built with calendar arithmetic;
  - which partition a pass reads: the live `cortes` or the archive `cortes_historicos`;
  - attaching barber names to the sale rows;
  - the month merge and its stable sort by timestamp;
  - the top-3 revenue ranking and the per-barber summary, both grouped by name;
  - the barber filter, the three totals and the sorted list of barber names;
  - the page state that `fetchCortes` replaces, or clears on any failure.
- **Daily status** (`src/pages/EstadoDiario.jsx`), module `EstadoDiario`:
  - `formatTimeValue` and the summary line under each barber;
  - the validation that decides whether a save may go ahead, and its two messages;
  - the row a save upserts;
  - the per-barber dictionaries that a reload rebuilds;
  - the selector that checks the "not back today" box.
- **Dashboard** (`src/pages/Dashboard.jsx`), module `Dashboard`:
  - barber names bucketed by status;
  - the day's and the month's revenue;
  - the month's ranking, keyed by barber id and sorted descending by total;
  - the barber of the month.
- **Password reset** (`src/pages/reset-password.jsx`), module `ResetPassword`:
  - the four password rules;
  - the submit guard in front of the account update.

Shared pieces:

- `Tipos`: `Option`, and `Respuesta` (a read that answered or failed).
- `Seqs`: sums, filtering by a key, and first-seen key lists. These are the shapes of the pages' `reduce`, `filter` and accumulator-dictionary loops.
- `Sorting`: JavaScript's `Array.prototype.sort`, modelled as a stable insertion sort.
  - A descending comparator `b.x - a.x` is an ascending sort on `-x`.
  - The default string sort is a lexicographic order on characters.

Modelling conventions:

- Values that JavaScript reads as falsy are normalised. A missing amount is 0, a missing or null text is `""`, and a missing check box is `false`.
- Amounts are unbounded integers.
- Where the pages keep state in React hooks, the state is a class with one field per hook. The methods state the whole new state.
- The accumulation loops are non-modifying methods. Each is proved equal to a function, and the properties are proved as lemmas about that function.
- The top-3 ranking and the summary are computed over the whole loaded list (`recalcular(lista)`, `src/pages/Contabilidad.jsx:188`), not over the barber-filtered list the page shows beside them. The model follows the code here.

## Model

| member | source | states |
|---|---|---|
| Calendario.DiasDelMes | src/pages/Contabilidad.jsx:36-37 | Gregorian month lengths: always between 28 and 31, and 29 exactly for February of a leap year |
| Calendario.DesdeComponentes | src/pages/Contabilidad.jsx:36-37 | `new Date(year, monthIndex, day)` carries an out-of-range month into the year and an out-of-range day into neighbouring months, and always yields a valid date |
| Calendario.DesdeComponentesValida | src/pages/Contabilidad.jsx:32-36 | a valid date rebuilt from its own year, month index and day is unchanged |
| Calendario.DiaCeroDelMesSiguiente | src/pages/Contabilidad.jsx:37 | day 0 of the next month is the last day of this month, across a year boundary too |
| Calendario.RangoDia | src/pages/Contabilidad.jsx:25-29 | the day range exists exactly when the date parses, and runs from 00:00:00.000 to 23:59:59.999 of that date |
| Calendario.RangoMes | src/pages/Contabilidad.jsx:31-45 | the month range exists exactly when the date parses |
| Calendario.RangoMesCubreElMes | src/pages/Contabilidad.jsx:31-45 | the month range runs from day 1 at 00:00:00.000 to the month's last calendar day at 23:59:59.999, so it contains the selected date |
| Contabilidad.NombreDe | src/pages/Contabilidad.jsx:68 | the attached name is the map's entry for the barber id when that entry is non-empty, and "Sin nombre" otherwise, so it is never empty |
| Contabilidad.AttachBarberoNombre | src/pages/Contabilidad.jsx:64-70 | keeps every row, in order and unchanged, and attaches to each row the name `NombreDe` picks |
| Contabilidad.Lecturas | src/pages/Contabilidad.jsx:87-183 | the read plan. Day mode makes one ordered read over the day range: `cortes` exactly when the date is today, `cortes_historicos` otherwise. Month mode reads `cortes_historicos` over the month range, and adds an unbounded `cortes` read exactly when the year and month are the current ones. An unparsable date reads nothing |
| Contabilidad.ResultadoCarga | src/pages/Contabilidad.jsx:80-194 | a pass yields rows only when the barber read answered and the date parses, and every row it yields carries a non-empty name |
| Contabilidad.SoloLecturasPlaneadas | src/pages/Contabilidad.jsx:80-188 | a pass depends only on the answers to its planned reads: two backends that agree on them give the same outcome |
| Contabilidad.CargaFallaSiAlgunaLecturaFalla | src/pages/Contabilidad.jsx:80-194 | a pass fails exactly when the barber read fails, the date does not parse, or one of its planned reads fails |
| Contabilidad.CargaDia | src/pages/Contabilidad.jsx:87-136 | day mode shows the single read's rows, with names attached, in the backend's order |
| Contabilidad.CargaMes | src/pages/Contabilidad.jsx:142-188 | month mode shows a permutation of the archived rows followed by the live ones, ascending by timestamp; rows with equal timestamps keep that order |
| Contabilidad.LeerCortes | src/pages/Contabilidad.jsx:80-188 | the reads of one pass succeed exactly when the read plan's outcome is a list, and then they yield that list |
| Contabilidad.TotalDeSnoc | src/pages/Contabilidad.jsx:217-222 | one more row adds its price to its name's running total and to no other total |
| Contabilidad.TotalesPaso | src/pages/Contabilidad.jsx:216-222 | one loop turn keeps the dictionary equal to the first-seen names of the rows so far, each with the revenue of its rows |
| Contabilidad.SumarPrecio | src/pages/Contabilidad.jsx:216-222 | the loop callback (a new name starts at 0, then the price is added) moves the dictionary from the rows before to the rows including this one |
| Contabilidad.AcumularTotales | src/pages/Contabilidad.jsx:216-222 | the accumulator holds exactly the grouping names, in first-seen order, each with the sum of the prices of its rows |
| Contabilidad.CalcularTopBarberos | src/pages/Contabilidad.jsx:215-227 | the loop-and-sort computation equals the ranking function `TopBarberos` |
| Contabilidad.Ranking | src/pages/Contabilidad.jsx:225 | the sorted ranking is a rearrangement of the per-name totals |
| Contabilidad.TopBarberos | src/pages/Contabilidad.jsx:225 | the top list is the ranking's first three entries, or all of them when there are fewer |
| Contabilidad.RankingEntradas | src/pages/Contabilidad.jsx:215-225 | every ranking entry's total is the revenue of the rows under its name, and its name occurs in the list |
| Contabilidad.RankingLongitud | src/pages/Contabilidad.jsx:215-225 | the unsliced ranking has one entry per distinct grouping name |
| Contabilidad.TopBarberosCorrecto | src/pages/Contabilidad.jsx:215-227 | the top list has min(3, number of distinct names) entries. It is non-increasing by total. Each total is the sum of the prices under its name, each name occurs in the list, and no name is listed twice |
| Contabilidad.RankingCompleto | src/pages/Contabilidad.jsx:215-225 | every name that occurs in the list has its entry, with its revenue, in the ranking |
| Contabilidad.RankingSinRepetidos | src/pages/Contabilidad.jsx:215-225 | no name has two ranking entries |
| Contabilidad.TopSonLosMayores | src/pages/Contabilidad.jsx:215-227 | the top three are the largest: a name that occurs but is not listed has a revenue no larger than any listed total |
| Contabilidad.RankingEstable | src/pages/Contabilidad.jsx:220-225 | for every total, the ranking's entries with that total are in the order in which their names were first seen |
| Contabilidad.TopEstable | src/pages/Contabilidad.jsx:225 | for every total, the top list's entries with that total are the first of the names with that total, in first-seen order |
| Contabilidad.OrdenDescendenteEstable | src/pages/Contabilidad.jsx:225 | sorting with `b.total - a.total` keeps the entries of each total in their input order |
| Contabilidad.PorTotal | src/pages/Contabilidad.jsx:225 | the descending sort key selects exactly the entries of the corresponding total |
| Contabilidad.RankingSumaIngresos | src/pages/Contabilidad.jsx:215-225 | the ranking's totals add up to the revenue of all rows |
| Contabilidad.SumaTotalesPorNombre | src/pages/Contabilidad.jsx:225 | summing the per-name totals gives the sum, over the names, of each name's rows |
| Contabilidad.EntradaDeSnoc | src/pages/Contabilidad.jsx:233-238 | one more row adds one cut, its barber share and its price to its name's summary entry, and changes no other entry |
| Contabilidad.ResumenPaso | src/pages/Contabilidad.jsx:230-239 | one loop turn keeps the dictionary equal to the first-seen names of the rows so far, each with its count, earned and generated sums |
| Contabilidad.ContarCorte | src/pages/Contabilidad.jsx:231-238 | the loop callback (a new name starts empty, then the row is counted) moves the dictionary from the rows before to the rows including this one |
| Contabilidad.AcumularResumen | src/pages/Contabilidad.jsx:230-239 | the accumulator holds exactly the grouping names, in first-seen order, each with its row count, earned and generated sums |
| Contabilidad.CalcularResumenBarberos | src/pages/Contabilidad.jsx:229-242 | the loop-and-sort computation equals the summary function `ResumenBarberos` |
| Contabilidad.ResumenBarberos | src/pages/Contabilidad.jsx:241 | the sorted summary is a rearrangement of the per-name entries |
| Contabilidad.SumaCount | src/pages/Contabilidad.jsx:236 | adding 1 per row counts the rows |
| Contabilidad.SumasResumenPorNombre | src/pages/Contabilidad.jsx:236-238 | summing the per-name counts, earned and generated amounts gives the grouped sums of rows, barber shares and prices |
| Contabilidad.ResumenSumas | src/pages/Contabilidad.jsx:229-241 | the counts add up to the number of rows, `generado` to the total revenue and `ganado` to the total barber share |
| Contabilidad.ResumenEntradas | src/pages/Contabilidad.jsx:229-241 | every summary entry is computed from exactly the rows under its name |
| Contabilidad.ResumenSinRepetidos | src/pages/Contabilidad.jsx:229-241 | no summary entry occurs twice |
| Contabilidad.ResumenCorrecto | src/pages/Contabilidad.jsx:229-242 | one entry per distinct name, no name twice, each entry computed from its name's rows, non-increasing by `ganado` |
| Contabilidad.TopEnResumen | src/pages/Contabilidad.jsx:210-242 | every name among the top three also names a summary entry |
| Contabilidad.CortesFiltrados | src/pages/Contabilidad.jsx:202-205 | the filter never adds rows: it keeps at most the rows it is given, and under a barber filter only rows with that name |
| Contabilidad.TotalIngresos | src/pages/Contabilidad.jsx:250-253 | on rows that all carry a name, the revenue shown for one barber is what the summary says that barber generated |
| Contabilidad.TotalBarberos | src/pages/Contabilidad.jsx:254-257 | on rows that all carry a name, the barber share shown for one barber is what the summary says that barber earned |
| Contabilidad.TotalLocal | src/pages/Contabilidad.jsx:258-261 | over all rows the shop's share is the sum of every barber's shop share; on rows that carry a name, one barber's is the shop share of the rows grouped under that name |
| Contabilidad.FiltroCorrecto | src/pages/Contabilidad.jsx:202-205 | "todos" keeps the list as it is. Any other filter keeps exactly the rows whose attached name is the filter, and keeps their order |
| Contabilidad.MismoFiltro | src/pages/Contabilidad.jsx:204 | on rows that all carry a name, filtering by attached name and grouping by name select the same rows |
| Contabilidad.TotalesCoincidenConResumen | src/pages/Contabilidad.jsx:250-261 | with "todos" the revenue and barber totals agree with the summary's sums. With one barber's name, the filtered count and totals equal that barber's summary entry |
| Contabilidad.BarberosDisponibles | src/pages/Contabilidad.jsx:244-248 | the barber list is in string order |
| Contabilidad.BarberosDisponiblesMiembro | src/pages/Contabilidad.jsx:244-248 | a name is listed exactly when it is non-empty and attached to some row |
| Contabilidad.BarberosDisponiblesCorrecto | src/pages/Contabilidad.jsx:244-248 | the barber list is sorted, duplicate-free, and holds exactly the non-empty attached names |
| Contabilidad.PaginaContabilidad.constructor | src/pages/Contabilidad.jsx:5-15 | starts on the given UTC date, in day mode, with filter "todos", no rows, and loading on |
| Contabilidad.PaginaContabilidad.FetchCortes | src/pages/Contabilidad.jsx:75-197 | after a pass, loading is off and the selection is untouched. On success the rows, top list and summary are those of the loaded list. On any failure all three are empty |
| Contabilidad.PaginaContabilidad.SetFecha | src/pages/Contabilidad.jsx:5 | sets the selected date and nothing else |
| Contabilidad.PaginaContabilidad.SetModo | src/pages/Contabilidad.jsx:8 | sets the mode and nothing else |
| Contabilidad.PaginaContabilidad.SetBarberoFiltro | src/pages/Contabilidad.jsx:9 | sets the barber filter and nothing else |
| Sorting.SortBy | src/pages/Contabilidad.jsx:185 | the sort returns a permutation of its input, ordered by the key |
| Sorting.SortByStable | src/pages/Contabilidad.jsx:185 | the sort is stable: elements with equal keys keep their input order |
| Sorting.SortBySum | src/pages/Contabilidad.jsx:225 | sorting changes no sum over the elements |
| Sorting.SortStrings | src/pages/Contabilidad.jsx:247 | the default string sort returns a permutation of its input in lexicographic order |
| Sorting.LexLeTotal | src/pages/Contabilidad.jsx:247 | any two strings are comparable |
| Sorting.LexLeTransitive | src/pages/Contabilidad.jsx:247 | the string order is transitive |
| Sorting.LexLeAntisymmetric | src/pages/Contabilidad.jsx:247 | strings that are ordered both ways are equal |
| Seqs.FilterKeyMembers | src/pages/Contabilidad.jsx:204 | a key filter keeps exactly the elements with that key |
| Seqs.KeysMembers | src/pages/Contabilidad.jsx:220 | the first-seen keys of an accumulator dictionary are exactly the keys that occur |
| Seqs.KeysCount | src/pages/Contabilidad.jsx:220 | there are as many first-seen keys as distinct keys |
| Seqs.GroupedSumOfKeys | src/pages/Contabilidad.jsx:216-222 | grouping loses and invents nothing: the per-key sums add up to the sum over the whole list |
| EstadoDiario.FormatTimeValue | src/pages/EstadoDiario.jsx:19-23 | null exactly for an empty value; otherwise a prefix of the value, 5 characters long or the whole value when shorter |
| EstadoDiario.FormatTimeValueIdempotente | src/pages/EstadoDiario.jsx:19-23 | formatting a formatted time changes nothing |
| EstadoDiario.TodoElDia | src/pages/EstadoDiario.jsx:105-108 | "all day" holds exactly for a checked box with status "disponible" or "no_disponible"; it never holds for "en_almuerzo" |
| EstadoDiario.Validar | src/pages/EstadoDiario.jsx:110-131 | the two error messages and the exact condition of each. "disponible" not all day with either time empty gives the first. "en_almuerzo" or "no_disponible" not all day with no return time gives the second. Otherwise the save may go ahead |
| EstadoDiario.Payload | src/pages/EstadoDiario.jsx:136-146 | the upserted row: the lunch time only for "disponible" not all day, the return time null exactly when all day |
| EstadoDiario.GuardadoSinHorasVacias | src/pages/EstadoDiario.jsx:110-146 | a save that passes validation writes no empty time. "en_almuerzo" always writes its return time. For "no_disponible" and "disponible", the times are null exactly when the box is checked |
| EstadoDiario.Resumen | src/pages/EstadoDiario.jsx:181-203 | there is no summary exactly when there is no row, the status is unknown, or it is a lunch without a return time |
| EstadoDiario.TextoVuelve | src/pages/EstadoDiario.jsx:185 | the return text is "Vuelve a las " and a period around the head of the stored time, at most five characters of it |
| EstadoDiario.ResumenTextos | src/pages/EstadoDiario.jsx:183-203 | the texts: return time or "No vuelve hoy." when not available, return time at lunch, lunch time or "Disponible todo el día." when available |
| EstadoDiario.Indexar | src/pages/EstadoDiario.jsx:57-58 | every entry of the status index is filed under its own barber id |
| EstadoDiario.IndexarDominio | src/pages/EstadoDiario.jsx:57-58 | the status index holds exactly the barbers that have a row |
| EstadoDiario.IndexarUltima | src/pages/EstadoDiario.jsx:57-58 | each indexed barber's entry is that barber's last row |
| EstadoDiario.Seleccion | src/pages/EstadoDiario.jsx:59 | the selected statuses have one entry per indexed barber |
| EstadoDiario.EnBlanco | src/pages/EstadoDiario.jsx:60-61 | the two time dictionaries have one entry per indexed barber |
| EstadoDiario.Marcados | src/pages/EstadoDiario.jsx:62 | the boxes have one entry per indexed barber |
| EstadoDiario.SeleccionPaso | src/pages/EstadoDiario.jsx:58-59 | indexing one more row sets that barber's selected status to the row's status and changes no other entry |
| EstadoDiario.EnBlancoPaso | src/pages/EstadoDiario.jsx:58-61 | indexing one more row gives that barber a blank time and changes no other entry |
| EstadoDiario.MarcadosPaso | src/pages/EstadoDiario.jsx:58-62 | indexing one more row checks that barber's box exactly when the row has no return time, and changes no other entry |
| EstadoDiario.ConstruirMapas | src/pages/EstadoDiario.jsx:51-63 | the reload loop builds the status index and four dictionaries, one entry per barber with a row: the stored status, two blank times, and the box checked exactly when no return time is stored |
| EstadoDiario.LeerEstados | src/pages/EstadoDiario.jsx:39-63 | the reload's reads succeed exactly when both answers are non-null, and then the dictionaries are the index of the status rows and the four dictionaries built from it |
| EstadoDiario.PaginaEstadoDiario.constructor | src/pages/EstadoDiario.jsx:26-34 | starts loading, with every dictionary empty |
| EstadoDiario.PaginaEstadoDiario.CargarTodo | src/pages/EstadoDiario.jsx:36-73 | a null answer leaves loading on and changes nothing else. Otherwise the barbers and the dictionaries come from the rows, the errors are cleared and loading ends. `saving` is untouched |
| EstadoDiario.PaginaEstadoDiario.ActualizarEstado | src/pages/EstadoDiario.jsx:101-150 | only this barber's error entry changes, to the validation message or to none. A failed validation makes no upsert and leaves `saving` unchanged. A passing one returns the payload row and ends with this barber's `saving` entry false |
| EstadoDiario.PaginaEstadoDiario.SeleccionarEstado | src/pages/EstadoDiario.jsx:231-237 | sets this barber's selected status. Choosing "no_disponible" also checks this barber's box; other choices leave the boxes alone |
| EstadoDiario.PaginaEstadoDiario.MarcarCheck | src/pages/EstadoDiario.jsx:252-256 | sets this barber's box and nothing else |
| EstadoDiario.PaginaEstadoDiario.EscribirHoraColacion | src/pages/EstadoDiario.jsx:274-278 | sets this barber's lunch time and nothing else |
| EstadoDiario.PaginaEstadoDiario.EscribirHoraVuelve | src/pages/EstadoDiario.jsx:292-296 | sets this barber's return time and nothing else |
| EstadoDiario.Ids | src/pages/EstadoDiario.jsx:44 | the barber ids, one per barber, in order |
| EstadoDiario.NoDisponibleTrasSeleccionNoPideHora | src/pages/EstadoDiario.jsx:231-237 | right after choosing "no_disponible" a save passes validation whatever times are typed, and writes no return time |
| Dashboard.NombresCon | src/pages/Dashboard.jsx:56-61 | a bucket holds at most one name per row, and a row without a status lands in no bucket |
| Dashboard.Agrupado | src/pages/Dashboard.jsx:50-61 | there are exactly the three status buckets |
| Dashboard.AgruparEstados | src/pages/Dashboard.jsx:50-61 | the bucketing loop yields exactly the three status buckets, each holding the names of its rows in input order |
| Dashboard.AgrupadoSnoc | src/pages/Dashboard.jsx:56-61 | one more row appends its name to its status's bucket when it has a status and a name and the status is one of the three; otherwise nothing changes |
| Dashboard.FilaDescartada | src/pages/Dashboard.jsx:59-60 | a row with no status, no name, or an unknown status changes no bucket |
| Dashboard.NombresConConcat | src/pages/Dashboard.jsx:56-61 | the buckets keep input order: the rows of a concatenation fill each bucket one part after the other |
| Dashboard.NombresConProcedencia | src/pages/Dashboard.jsx:56-61 | every name in bucket k is non-empty and comes from a row whose status is k |
| Dashboard.BucketsAcotados | src/pages/Dashboard.jsx:56-61 | the three buckets hold at most as many names as there are rows |
| Dashboard.TotalDia | src/pages/Dashboard.jsx:100 | the day's revenue is the day row's total, or 0 without a row |
| Dashboard.SumarMes | src/pages/Dashboard.jsx:102-105 | the month loop sums the totals of the month's rows, with a null answer read as no rows |
| Dashboard.BarberoDelMes | src/pages/Dashboard.jsx:147 | the barber of the month is absent exactly for an empty ranking, and is its first entry otherwise |
| Dashboard.NombreDe | src/pages/Dashboard.jsx:131-136 | a barber's entry name is never empty |
| Dashboard.EntradaDe | src/pages/Dashboard.jsx:129-138 | a barber's entry is never nameless |
| Dashboard.RankingDe | src/pages/Dashboard.jsx:140-142 | the ranking is a rearrangement of the accumulated entries, one per barber id |
| Dashboard.TotalDeSnoc | src/pages/Dashboard.jsx:137 | one more row adds its revenue to its barber's total and to no other total |
| Dashboard.NombreDeSnoc | src/pages/Dashboard.jsx:131-136 | a barber's name is set by the barber's first row and never changed by later rows |
| Dashboard.EntradaDePaso | src/pages/Dashboard.jsx:129-138 | one more row: a new barber's entry takes the row's name, a known barber keeps its name, and the row's revenue is added |
| Dashboard.AcumularPaso | src/pages/Dashboard.jsx:129-138 | one loop turn keeps `acumulado` equal to the first-seen barber ids of the rows so far, each with its entry |
| Dashboard.Sumar | src/pages/Dashboard.jsx:129-138 | the loop callback (a new barber gets its row's name and 0, then the revenue is added) moves `acumulado` from the rows before to the rows including this one |
| Dashboard.Acumular | src/pages/Dashboard.jsx:127-138 | the accumulation loop holds exactly the barber ids, in first-seen order, each with its entry |
| Dashboard.CalcularRanking | src/pages/Dashboard.jsx:127-142 | the loop-and-sort computation equals the ranking function `RankingDe` |
| Dashboard.RankingEntrada | src/pages/Dashboard.jsx:127-142 | every ranking entry is the entry of a barber id that occurs in the rows |
| Dashboard.RankingPorId | src/pages/Dashboard.jsx:127-142 | there is one entry per distinct barber id, not per name |
| Dashboard.TodoBarberoEnRanking | src/pages/Dashboard.jsx:127-142 | every barber id that has a row has its entry in the ranking |
| Dashboard.EntradaDeCorrecta | src/pages/Dashboard.jsx:129-138 | a barber's entry is named after the barber's first row, or "Sin nombre" when that row has no name, and totals all of that barber's rows |
| Dashboard.RankingOrdenado | src/pages/Dashboard.jsx:127-147 | the ranking is non-increasing by total; as soon as there is a row there is a barber of the month, and its total is at least every barber's revenue |
| Dashboard.SumaAcumulado | src/pages/Dashboard.jsx:140 | the accumulated totals add up to the sum, over the ids, of each id's rows |
| Dashboard.RankingSuma | src/pages/Dashboard.jsx:127-142 | the ranking's totals add up to the revenue of all ranking rows |
| Dashboard.PaginaDashboard.constructor | src/pages/Dashboard.jsx:15-27 | starts with three empty buckets, no ranking, no barber of the month, zero revenue and loading on |
| Dashboard.PaginaDashboard.CargarEstadoActual | src/pages/Dashboard.jsx:37-64 | a failed read leaves the buckets unchanged. Otherwise they are rebuilt from the rows, with a null answer read as no rows |
| Dashboard.PaginaDashboard.CargarDashboard | src/pages/Dashboard.jsx:80-150 | sets both revenue figures and ends with loading off. A failed ranking read leaves the ranking, the chart and the barber of the month unchanged. Otherwise the ranking and the chart are `RankingDe` of the rows and the barber of the month is its head |
| ResetPassword.TieneMayuscula | src/pages/reset-password.jsx:14 | true exactly when some character is an ASCII capital letter |
| ResetPassword.TieneDigito | src/pages/reset-password.jsx:15 | true exactly when some character is an ASCII digit |
| ResetPassword.ReglasDe | src/pages/reset-password.jsx:12-17 | length holds iff at least 8 characters. Uppercase holds iff there is an A–Z character. Number holds iff there is a 0–9 character. Match holds iff the password is non-empty and equals the confirmation |
| ResetPassword.TodasValidas | src/pages/reset-password.jsx:19 | the form accepts exactly when all four rules hold |
| ResetPassword.AceptadaCumple | src/pages/reset-password.jsx:19 | an accepted password has at least 8 characters, a capital letter and a digit, and equals its confirmation |
| ResetPassword.VaciaRechazada | src/pages/reset-password.jsx:16-19 | an empty password never matches, so it is never accepted |
| ResetPassword.MayusculaYDigitoDistintos | src/pages/reset-password.jsx:14-19 | an accepted password holds its capital letter and its digit at two different positions |
| ResetPassword.Enviar | src/pages/reset-password.jsx:21-44 | submit never changes the two fields. Failing rules set the fixed message, make no update call and leave loading as it was. Passing rules make the update call, end with loading off, show the update's error message if any, and navigate exactly when there is none |
| ResetPassword.NavegaSoloSiValida | src/pages/reset-password.jsx:25-43 | navigating implies the update was called and succeeded with a password of at least 8 characters that equals its confirmation |

## Left out

- Backend reads and writes are parameters.
  - The Supabase queries, the upsert and the auth update are not modelled.
  - The upsert's own result is not checked by the daily status page, and is not modelled.
  - The barber list's `order("nombre")` is the backend's business: the model takes the list as given.
- The realtime subscription of the daily status page (`src/pages/EstadoDiario.jsx:80-99`) is left out. It is transport: it re-runs the reload.
- Concurrency is left out: the async interleaving of overlapping fetches and stale results.
- Timezones and locales are left out.
  - Dates are (year, month, day) values and timestamps are integers.
  - The accounting page's default date is the UTC date (`src/pages/Contabilidad.jsx:6`), while "today" is the local date (`src/pages/Contabilidad.jsx:78`). Both are parameters, so the mismatch between them is not modelled.
  - The dashboard's `startOfDay`/`startOfMonth` and its date filters are queries, left out.
  - `formatHora`'s locale formatting is left out.
- Contabilidad.PaginaContabilidad.SetFecha, Contabilidad.PaginaContabilidad.SetModo: the `useEffect` re-fetch on a date or mode change (`src/pages/Contabilidad.jsx:17-20`) is not part of these methods. A caller runs `FetchCortes` after them.
- Contabilidad.PaginaContabilidad.FetchCortes: "the current month" is judged against the local date `hoy`; the source reads it from a separate `new Date()`.
- A date text whose day overflows its month is treated as unparsable. How engines parse such text differs, and a date input never produces it.
- Years 0–99 are left out. They get JavaScript `Date`'s 1900 offset in the component constructor.
- JavaScript number coercion is left out. That covers `Number(...)`, floating point, and string concatenation when an amount arrives as text. Amounts are integers, and a missing amount is 0.
- `undefined`, `null` and `""` are one value here. This is how the pages' truthiness tests treat them.
- Dictionary keys are unrelated to `Object.prototype`. A status or barber name such as `toString` would behave differently in JavaScript.
- `Object.values` lists integer-like keys first in JavaScript; the model keeps first-seen order for all keys.
- Strings are sequences of characters, not UTF-16 code units. This affects `length` and the default sort order for characters outside the Basic Multilingual Plane.
- EstadoDiario.PaginaEstadoDiario.ActualizarEstado: the transient `saving = true` while the upsert runs is not visible in the contract. The reload after a save is the caller's `CargarTodo`.
- EstadoDiario.PaginaEstadoDiario.CargarTodo: a null barber list and a null status answer both stop the reload with loading on. In the source these are the `TypeError`s thrown by `barberosData.map` and `estadosData.forEach`.
- The `updated_at` column and its clock are not modelled.
- Rendering is left out: the JSX, the status labels and colours, the chart, and the rule list's colours.
- `src/pages/AgendaDelDia.jsx` is not part of this model. It is UI around a single update call.
