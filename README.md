# Allocation engine of hono-deno-final, in Dafny

This project models the allocation engine of `services/calculos.service.ts`. The engine takes:

- a catalogue of instruments (`Banco`), each with an optional rate per term;
- the sofipo "nicap" records (`Sofipo`);
- two deposit-insurance ceilings (`seguro_bancos`, `seguro_sofipos`);
- an amount and a term code.

It recommends how to spread the amount over the best-paying instruments. `getResultado` runs these steps:

1. It enriches every instrument with its rate for the term and its sofipo value (`calcularRendimientosBancos`).
2. It sorts the enriched list in place by rate, highest first.
3. It splits the list into a bank pool (sofipo value 0) and a sofipo pool (sofipo value above 0).
4. It picks one of three tiered cases (`distribuirMonto`).
5. It computes the simple-interest yield of every line (`calcularRendimientoFondo`).
6. It returns the plan with the total yield rounded once, at the end.

Modules:

- `Tipos` holds the records: `Banco`, `Plazos`, `Sofipo`, `Nicap`, the enriched `Candidato`, the plan line `Inversion`, `Distribucion` and `Resultado`.
- `Secuencias` holds `Array.prototype.filter` as `Filtrar`.
- `Texto` holds the name normalisation `toLowerCase().replace(/\s/g, '')`.
- `Ordenamiento` holds the sort of line 51.
  - `Ordenar` is its specification: a stable descending insertion sort.
  - `OrdenarPorTasa` sorts an `array` in place by adjacent swaps and is proved to produce exactly `Ordenar` of the old contents.
- `Calculos` holds the helpers: the term lookups, sofipo matching, enrichment, the yield formula, the per-pool line builder and the three-case distribution.
- `Servicio` holds `getResultado`. It is a method over an array, specified by the function `ResultadoEsperado`, and comes with the lemmas that relate the plan to the catalogue.

Modelling choices:

- Money, rates and yields are exact `real`s.
- Day counts are `nat`.
- The rounded total is an `int`: `Math.round(x)` is `floor(x + 1/2)`.
- An absent `plazos` field is `None`.
- The JavaScript idiom `x || 0` is `GetOr(0.0)`.
- The three fetches at lines 45-47 become the parameters `tasas`, `valoresSofipos`, `seguroSofipos` and `seguroBancos`.
- The ceilings are taken as already multiplied.

## Behaviour of the source the model keeps

- **Term codes.** The recognised codes are the literal strings `DIA`, `SEMANA`, `MES`, `TRIMESTRE`, `SEMESTRE` and `YEAR`, plus one two-year code whose spelling depends on the lookup.
- **Two-year spelling.** The rate lookup spells the two-year code `"TWO YEARS"`, while the day table spells it `"TWO_YEARS"`. Both spellings are kept, and the model proves that neither spelling ever earns anything.
- **Sort key.** The sort key is the term rate; the sofipo value only chooses the pool.
- **Pools.** Pool membership depends only on the sign of the sofipo value, with values matched by normalised name.
- **Line labels.** A line's `tipo` is "sofipo" exactly when its rate is 0. This is independent of the pool the line came from, so a bank without a rate is labelled "sofipo".

## Model

| member | source | states |
|---|---|---|
| `Calculos.DiasInversion` | services/calculos.service.ts:58-66 | the day count is positive exactly for the seven table keys and equals the table entry (1, 7, 30, 90, 180, 365, 730); any other code gets 0 |
| `Calculos.ObtenerTasaPorModelo` | services/calculos.service.ts:126-146 | for each of the seven recognised codes the rate is that term's `plazos` field, or 0 when the field is absent; every other code gives 0 |
| `Tipos.Option.GetOr` | services/calculos.service.ts:129-141 | the logical-or default of an optional number to 0: the value when present, the default otherwise; `Calculos.ObtenerTasaPorModelo` states its use |
| `Calculos.DosAnosSinTasa` | services/calculos.service.ts:126-146 | "TWO_YEARS" falls to the default case and gives rate 0; "TWO YEARS" gives the two-year field |
| `Calculos.DosAnosSinDias` | services/calculos.service.ts:58-66 | "TWO_YEARS" gets 730 days; "TWO YEARS" is not a key and gets 0 days |
| `Texto.AMinuscula` | services/calculos.service.ts:150 | an upper-case letter becomes its lower-case partner (0x20 higher); every other character is kept; no upper-case letter remains and white space stays white space |
| `Texto.Normalizar` | services/calculos.service.ts:150-152 | the normal form is no longer than the name and contains neither white space nor upper-case letters; what it keeps is stated by `Texto.NormalizadoFijo`, `Texto.EspacioIgnorado` and `Texto.MayusculaIgnorada` |
| `Texto.NormalizadoFijo` | services/calculos.service.ts:150-152 | a name without white space or upper case is its own normal form |
| `Texto.NormalizarIdempotente` | services/calculos.service.ts:150-152 | normalising twice is normalising once |
| `Texto.NormalizarConcat` | services/calculos.service.ts:150-152 | normalisation distributes over concatenation |
| `Texto.EspacioIgnorado` | services/calculos.service.ts:150-152 | deleting one white-space character anywhere in a name leaves its normal form unchanged |
| `Texto.MayusculaIgnorada` | services/calculos.service.ts:150-152 | replacing one upper-case letter anywhere in a name by its lower-case partner leaves its normal form unchanged |
| `Texto.EsEspacio` | services/calculos.service.ts:150-152 | the characters `\s` matches: tab, line feed, vertical tab, form feed, carriage return, space, U+00A0, U+1680, U+2000-U+200A, U+2028, U+2029, U+202F, U+205F, U+3000, U+FEFF; `Texto.AMinuscula` and `Texto.EspacioIgnorado` state how they are treated |
| `Texto.EjemploNormalizacion` | services/calculos.service.ts:150-152 | " Ka\tB " and "kab" have the same normal form "kab" |
| `Calculos.Buscar` | services/calculos.service.ts:151-153 | `find`: the index of the first record whose normalised name equals the key, and none exactly when no record matches |
| `Calculos.Coincide` | services/calculos.service.ts:151-152 | the `find` test: the record's normalised name equals the instrument's; `Calculos.ObtenerValorSofipo` states its use |
| `Calculos.ObtenerValorSofipo` | services/calculos.service.ts:149-155 | the `nicap.difference` of the first record whose normalised name equals the instrument's; 0 when no record matches |
| `Calculos.ValorSofipoInsensible` | services/calculos.service.ts:149-155 | renaming the instrument to a name with the same normal form (case, spacing) keeps its sofipo value |
| `Calculos.ValorSofipoFormato` | services/calculos.service.ts:149-155 | dropping a white-space character from the instrument's name, or lower-casing one of its letters, keeps its sofipo value |
| `Calculos.CalcularRendimientosBancos` | services/calculos.service.ts:113-123 | one candidate per instrument, same length and order; element i has instrument i's name, its term rate and its sofipo value |
| `Secuencias.Filtrar` | services/calculos.service.ts:54-55 | a filter is never longer than its input |
| `Secuencias.FiltrarPertenencia` | services/calculos.service.ts:54-55 | an element survives the filter exactly when it is in the input and passes the test |
| `Secuencias.FiltrarConcat` | services/calculos.service.ts:54-55 | filtering distributes over concatenation |
| `Secuencias.FiltrarUltimo` | services/calculos.service.ts:54-55 | filtering `s + [x]` appends `x` exactly when it passes |
| `Secuencias.FiltrarMultiplicidad` | services/calculos.service.ts:54-55 | a filter keeps every copy of a passing element and no copy of a failing one |
| `Ordenamiento.Insertar` | services/calculos.service.ts:51 | one insertion step of the stable sort adds exactly one element |
| `Ordenamiento.Ordenar` | services/calculos.service.ts:51 | the sorted list is as long as the input |
| `Ordenamiento.InsertarDescendente` | services/calculos.service.ts:51 | inserting into a list of non-increasing rates keeps the rates non-increasing |
| `Ordenamiento.InsertarMultiset` | services/calculos.service.ts:51 | inserting adds exactly the inserted element to the multiset |
| `Ordenamiento.OrdenarPermutacion` | services/calculos.service.ts:51 | the sorted list is a permutation of the input |
| `Ordenamiento.OrdenarDescendente` | services/calculos.service.ts:51 | after the sort, rates never increase from left to right |
| `Ordenamiento.InsertarEn` | services/calculos.service.ts:51 | in a descending list, the element goes after every rate at least its own and before the strictly lower ones |
| `Ordenamiento.FiltrarDescendente` | services/calculos.service.ts:54-55 | a filter of a descending list is descending, so both pools keep the sorted order |
| `Ordenamiento.OrdenarFiltrar` | services/calculos.service.ts:51-55 | filtering the sorted list equals sorting the filtered list |
| `Ordenamiento.OrdenarIguales` | services/calculos.service.ts:51 | a list of equal rates is left unchanged by the sort |
| `Ordenamiento.OrdenarEstable` | services/calculos.service.ts:51 | stability: for every rate, the entries with that rate appear in the sorted list in their input order |
| `Ordenamiento.OrdenarPorTasa` | services/calculos.service.ts:51 | the in-place sort of an array leaves exactly the stable descending sort of its old contents |
| `Ordenamiento.InsertarSiguiente` | services/calculos.service.ts:51 | swapping `a[i]` leftwards past strictly lower rates turns the sorted prefix into the prefix with `a[i]` inserted; the rest of the array is unchanged |
| `Calculos.CalcularRendimiento` | services/calculos.service.ts:158-161 | 0 for a missing rate; otherwise yield * 36500 = amount * rate * days (simple interest at an annual percentage over 365 days) |
| `Calculos.RendimientoCero` | services/calculos.service.ts:158-161 | the yield is 0 for 0 days, a missing or zero rate, or a zero amount |
| `Calculos.RendimientoLineal` | services/calculos.service.ts:158-161 | the yield is linear in the amount: it scales with the amount and is additive over amounts |
| `Calculos.EjemploRendimiento` | services/calculos.service.ts:158-161 | 90,000 at 12% for 30 days earns 64800/73 |
| `Calculos.TipoDeTasa` | services/calculos.service.ts:222 | the label is "sofipo" exactly when the rate is 0 |
| `Calculos.MontoAsignado` | services/calculos.service.ts:216 | when dividing, each share is the total over the pool size and the shares times the size give back the total; otherwise each line gets the whole total |
| `Calculos.Lineas` | services/calculos.service.ts:214-230 | line i carries fund i's name, the label of its rate, the given amount and the yield of fund i's rate on that amount |
| `Calculos.CalcularRendimientoFondo` | services/calculos.service.ts:208-231 | same length and order as the funds; line i has fund i's name, "sofipo" label exactly when its rate is 0, the assigned amount of `MontoAsignado`, and the yield of its rate on that amount |
| `Calculos.SumaConcat` | services/calculos.service.ts:187 | the sum of yields (and of amounts) of a concatenation is the sum of the two sums, so the left fold of `reduce` may be split anywhere |
| `Calculos.Suma` | services/calculos.service.ts:187 | `reduce((sum, inv) => sum + inv.rendimiento, 0)`, the left fold used at :187, :194 and :201; stated through `Calculos.SumaConcat`, `Calculos.SumaCero` and `Calculos.DistribuirMonto` |
| `Calculos.SumaMontosConstante` | services/calculos.service.ts:216 | lines that all carry amount m sum to their count times m |
| `Calculos.SumaCero` | services/calculos.service.ts:187 | lines of zero yield sum to 0 |
| `Calculos.RepartoExacto` | services/calculos.service.ts:214-216 | with `dividirMonto` the amounts of a non-empty pool add back up to the pool's total |
| `Calculos.Mejores3` | services/calculos.service.ts:182 | `slice(0, 3)` is the prefix of length min(3, size) |
| `Calculos.DistribuirMonto` | services/calculos.service.ts:164-205 | the total is the sum of the line yields in every case; case 1 has min(3, banks) + min(3, sofipos) lines, case 2 min(3, banks), case 3 banks + sofipos |
| `Calculos.Caso1Bancos` | services/calculos.service.ts:177-182 | above the bank ceiling the plan starts with the best (up to) three banks, in pool order, each labelled by its rate, with an equal share of the ceiling and the yield of its own rate on that share |
| `Calculos.Caso1Sofipos` | services/calculos.service.ts:177-186 | after them come the best (up to) three sofipos, in pool order, each labelled by its rate, and nothing else |
| `Calculos.Caso1SofiposRendimiento` | services/calculos.service.ts:180-184 | each sofipo line of case 1 gets an equal share of `monto - seguro_bancos` and the yield of its own rate on that share |
| `Calculos.Caso1Montos` | services/calculos.service.ts:177-188 | in case 1 the bank amounts sum to the bank ceiling and the sofipo amounts to `monto - seguro_bancos`, each when its pool is non-empty; with both non-empty, the whole amount is placed |
| `Calculos.Caso2` | services/calculos.service.ts:191-194 | between the ceilings: only the best (up to) three banks, each labelled by its rate, with equal shares of the amount, which sum to the amount when the bank pool is non-empty |
| `Calculos.Caso3` | services/calculos.service.ts:197-202 | at or below the sofipo ceiling: every bank then every sofipo, in pool order, each labelled by its rate and shown with the whole amount |
| `Calculos.BancoSinTasaComoSofipo` | services/calculos.service.ts:222 | in any pools, a bank-pool entry with rate 0 that gets a line (one of the best three in cases 1 and 2, any entry in case 3) is shown under its own name and labelled "sofipo" |
| `Calculos.LineasDeLosFondos` | services/calculos.service.ts:164-205 | in every case each line names an entry of one of the two pools and yields that entry's rate on the line's amount |
| `Calculos.LineasDeAmpliar` | services/calculos.service.ts:164-205 | lines that come from a list also come from any list containing it |
| `Calculos.LineasDeCero` | services/calculos.service.ts:187 | lines that come from entries all of rate 0 (or over 0 days) have total yield 0 |
| `Calculos.NombresDeLaFuente` | services/calculos.service.ts:113-123 | lines that come from the enriched list, which carries the catalogue's names index by index, name instruments of the catalogue |
| `Servicio.Redondear` | services/calculos.service.ts:80 | `Math.round`: the nearest integer, halves going up (n - 1/2 <= x < n + 1/2) |
| `Servicio.EjemploRedondeo` | services/calculos.service.ts:80 | 887.5 rounds to 888, 887.49 to 887, -2.5 to -2 |
| `Servicio.ResultadoEsperado` | services/calculos.service.ts:41-83 | the plan echoes the amount unrounded, and its total is the rounded sum of its own lines' yields |
| `Servicio.GetResultado` | services/calculos.service.ts:41-83 | enriching, sorting the array in place, filtering and distributing yields exactly the plan `ResultadoEsperado` |
| `Servicio.ParticionPorSigno` | services/calculos.service.ts:54-55 | every candidate is in exactly one of: bank pool, sofipo pool, or neither (negative sofipo value) |
| `Servicio.EsBanco` | services/calculos.service.ts:54 | the bank-pool test, a sofipo value of exactly 0; `Servicio.Pools` states the pool it selects |
| `Servicio.EsSofipo` | services/calculos.service.ts:55 | the sofipo-pool test, a positive sofipo value; `Servicio.Pools` states the pool it selects |
| `Servicio.Pools` | services/calculos.service.ts:51-55 | the sorted list is descending and a permutation; each pool is the stable sort of its class and is descending; the bank pool holds every copy of each entry with value 0 and nothing else, the sofipo pool every copy of each entry with value > 0 and nothing else |
| `Servicio.LineasDeLosPools` | services/calculos.service.ts:50-76 | every line distributed over the pools of the sorted list comes from an enriched candidate, with that candidate's rate on the line's amount |
| `Servicio.LineasDelCatalogo` | services/calculos.service.ts:41-83 | every line of the plan comes from an enriched candidate of the catalogue, at the term's day count |
| `Servicio.NombresDelCatalogo` | services/calculos.service.ts:41-83 | every line of the plan names an instrument of the rate catalogue |
| `Servicio.SinRendimiento` | services/calculos.service.ts:50-76 | with 0 days, or with every candidate at rate 0, the distributed yields sum to 0 |
| `Servicio.PlazoDosAnosSinRendimiento` | services/calculos.service.ts:41-83 | with either spelling of the two-year code the rounded total is 0, whatever the data |

## Left out

- The fetches `obtenerTasasBancos`, `obtenerValoresSofipos` and `obtenerValoresUdis` (services/calculos.service.ts:86-110) are network I/O. Their results are parameters of `GetResultado`, and their error throws are not modelled.
- `async`/`await` are not modelled: the engine is sequential once its inputs are known.
- services/tasas.service.ts is not part of this model. It does CSV fetching, `parseFloat` of percentage strings and UDIS scraping. The ceilings it computes are taken as already-multiplied inputs.
- services/sofipos.service.ts is not part of this model. It does headless-browser scraping of the nicap table.
- main.ts and controllers/calculos.controller.ts are not part of this model. They hold HTTP routing, CORS and a one-line forwarder.
- IEEE-754 arithmetic is not modelled. Money is exact `real`, so there is no rounding error in the divisions, no NaN or Infinity, no NaN coerced to 0 by `|| 0` (services/calculos.service.ts:66, 129-141, 154) and no NaN in the sort comparator.
- Texto.Normalizar: lower-casing covers the ASCII and Latin-1 upper-case letters only. `toLowerCase` maps the rest of Unicode too, and that case mapping is outside the model. The white-space set is the full ECMAScript `\s` class.
- Calculos.DiasInversion: inherited object keys such as "constructor" or "toString" are not modelled. In the source, indexing the object literal with them returns a function rather than `undefined`. The model treats every non-table code as 0 days.
- The `console.log` in the default case of `obtenerTasaPorModelo` (services/calculos.service.ts:143) is output only.
- `fija_o_flexible` (services/calculos.service.ts:42) is read but never used. It is carried in `Parametros` and has no effect.
- Calculos.Buscar and Calculos.ObtenerValorSofipo: the optional chaining `sofipo?.nicap.difference` is modelled for a missing record only. Every record is assumed to have a `nicap` object with a numeric `difference`, as the `Sofipo` interface declares.
