# sarampion — a verified model of the report data

The repository publishes charts and tables on measles (*sarampión*) in Mexico.
It reads the health ministry's case line list (one row per suspected case) and
a municipal population table. This project models the part that turns those
rows into the numbers each figure shows, and proves what those numbers mean.
Plotly drawing, file loading and number formatting are not part of it.

- **Age and sex rates** (`tsas_edad_sexo`). Confirmed cases are counted per
  quinquennial age band (EDADES) and sex. The counts are aligned on the band
  label with the female and male population series, and a crude rate per
  100 000 is computed for each sex. Module `AgeSex`.
- **Weekly trend** (`tendencia`). Dated rows are pivoted by diagnosis day and
  code and resampled into Monday-anchored weeks. Each week gets a tick label
  `dd<br>Mes.`, and the confirmed (1) and discarded (3) columns give the bars
  and the legend totals. Modules `Calendar` and `Weekly`.
- **Outcome funnel** (`evolucion_casos`). Confirmed cases split by
  vaccination, then by complications, then down to deaths. The eleven counts
  label the Sankey nodes, and ten links with a fixed topology get their widths
  from them (death links widened by 30). Module `Funnel`.
- **National top-30 table** (`crear_tabla_absolutos` in `script.py`). Each
  case gets a five-character municipal key (CVE) from its zero-padded entity
  and municipality codes. Confirmed cases are counted per CVE and left-joined
  with the renamed population table. Each row gets a rate and a
  "municipio, entidad" name. The frame is then sorted by count, renumbered
  from 1 and cut to 30 rows. Modules `Keys` and `Ranking`; the frame is the
  class `Ranking.Frame`, whose methods update it in place as pandas'
  `inplace=True` calls do.
- **State map and state table** (`estatal.py`). For one entity code, the
  population of the state's municipalities and the state's confirmed cases
  give:
  - per-municipality counts and rates;
  - the state-wide rate;
  - the rows kept after `dropna`;
  - a colour scale from the minimum rate to the 0.95 quantile, with 13 ticks;
  - the boundary layer;
  - a top-30 table named by municipality alone.

  An unknown entity code is a `KeyError` in the source and an `Err` here.
  Module `Estatal`.

Shared vocabulary lives in `Common`: `Option` for the NaN a failed alignment
leaves, `Result` for a raised `KeyError`, filtering, sums and Python's
`str(n)`. `Records` holds the line-list and population rows and the rate
formula.

Conventions of the model:
- A date is a day number (days after 1970-01-01). Weeks are numbered from the
  Monday 1969-12-29. The civil date is computed back from the day number
  (proleptic Gregorian calendar).
- A population is a positive integer.
- A rate is a `real` equal to `count / population * 100000`.
- `None` marks a missing cell.

The model follows the code as written, including where it may surprise:
- A degenerate colour scale (minimum equal to the quantile) is not widened.
  `LinspaceOrder` proves its 13 ticks then all sit on that one value.
- MESES spells every month with a trailing dot ("Ene.", ..., "Dic.").
- A funnel split keeps every row of its parent only when every code is 1 or
  2. Other codes are silently dropped (`SplitShrinks`).
- The state views filter on the raw `ENTIDAD_RES` text against
  `str(entidad)`, while the CVE is zero-padded. So a case written `"08"` has a
  Chihuahua key, yet it is absent from Chihuahua's map and table
  (`PaddedEntityDropped`).
- The trend raises `KeyError` when no dated row has code 1, or has code 3.
  The confirmed column is looked up first (`TendenciaErrors`).
- For the state table, the `KeyError` for an unknown code comes from the title
  (`ENTIDADES[entidad]`), after the table has been computed. The model returns
  the `Err` without computing it.

## Model

| member | source | states |
|---|---|---|
| Common.Filter | script.py:69 | boolean-mask selection: every kept row passes the mask and comes from the frame, every passing row is kept, and each row is kept exactly as many times as it occurs if it passes, never if it fails |
| Common.FilterSnoc | script.py:69 | the mask keeps row order: appending a row appends it to the selection exactly when it passes |
| Common.FilterConcat | script.py:69 | selecting from two frames one after the other is the selection from the first followed by that from the second |
| Common.FilterAll | script.py:253 | a mask keeps the whole frame exactly when every row passes it |
| Common.FilterDisjoint | script.py:407-408 | two masks no row meets together select at most all rows, and exactly all of them iff every row meets one |
| Common.NatToString | script.py:83 | `str(n)`: non-empty, all digits, no leading zero except in "0" itself |
| Common.NatToStringValue | script.py:83 | reading back `str(n)` gives `n` |
| Common.NatToStringInjective | script.py:83 | `str(a) == str(b)` iff `a == b` |
| Common.IntToString | estatal.py:103 | `str(entidad)` for any integer: decimal digits that read back as `entidad` when it is non-negative, otherwise a minus sign followed by digits that read back as `-entidad` |
| Records.ConfirmedCases | script.py:69 | `df[df["DIAGNOSTICO"] == 1]`: every kept row is a confirmed row of the input, every confirmed row is kept, and each confirmed row as often as it occurs |
| Records.Rate | script.py:102 | `count / population * 100000`: non-negative, `rate * population == count * 100000`, zero iff the count is zero |
| Keys.ZFill | script.py:589 | `str.zfill(w)`: length `max(len, w)`, wide strings unchanged, zeros on the left, any sign kept in front |
| Keys.ZFillDigits | script.py:589 | padding a digit string keeps it a digit string with the same value |
| Keys.CveShape | script.py:589 | codes of up to 2 and 3 digits give a 5-digit CVE whose parts read back as the two codes |
| Keys.CveSameMunicipality | estatal.py:97 | two cases share a CVE iff their entity and municipality codes denote the same numbers, whatever zeros they were written with |
| Keys.CanonicalPopulation | script.py:567-574 | the population rows, each with its entity name replaced by the rename table, nothing else changed |
| Keys.EntidadesKeys | estatal.py:16-50 | ENTIDADES holds exactly codes 1..32 and 99 |
| Keys.EntidadesSize | estatal.py:16-50 | ENTIDADES has 33 entries |
| Keys.EntidadesInjective | estatal.py:16-50 | distinct codes have distinct names |
| Keys.CanonicalFixesDirectory | estatal.py:72-79 | renaming is idempotent and leaves every ENTIDADES name unchanged |
| Keys.SelectsState | estatal.py:72-82 | after the renames, an entity name equals `ENTIDADES[k]` iff it was the directory name or the official long name of `k` |
| Keys.LongNamesNotListed | estatal.py:72-79 | no official long name is a directory name |
| Calendar.WeekStart | script.py:267 | the Monday on or before a day, at most six days before it |
| Calendar.WeekStartUnique | script.py:267 | only one Monday lies in the six days up to any day, so the week bin of a day is unique |
| Calendar.WeekNumberOf | script.py:267 | a day is in week `k` iff it lies in the seven days from `k`'s Monday |
| Calendar.WeekNumberMonotone | script.py:267 | later days never fall in earlier weeks |
| Calendar.CivilFromDays | script.py:270 | the calendar date of a day number is valid and maps back to that day number |
| Calendar.CivilFromDaysInverse | script.py:270 | a valid date is recovered from its day number, so day and month are well defined |
| Calendar.MonthAbbrev | script.py:37-50 | `MESES[m]`: four characters ending in a dot, for each of the 12 months |
| Calendar.WeekTickLabel | script.py:270 | `f"{day:02}<br>{MESES[month]}"`: ten characters, two digits reading the day of the month, `<br>`, the month's abbreviation |
| AgeSex.BandLabelsDistinct | script.py:83 | the eighteen band labels are pairwise distinct, and only the last reads `≥85` |
| AgeSex.EdadesContiguous | script.py:16-35 | EDADES tiles 0..120: non-empty bands, each starting right after the previous one ends |
| AgeSex.BandIndex | script.py:16-35 | an age lies in a band iff it is in 0..120, and then in exactly one band |
| AgeSex.BandsPartition | script.py:75-77 | the eighteen band counts of a sex add up to that sex's rows aged 0..120 |
| AgeSex.RateOrMissing | script.py:102 | a rate exists iff the population cell does, and is then `Rate(count, population)` |
| AgeSex.Lookup | script.py:99 | index alignment on the band label: a population iff the label is in the series, the series' value |
| AgeSex.AddRates | script.py:99-114 | each row keeps its label and counts, gains both populations and both rates from them |
| AgeSex.CountBands | script.py:75-87 | the loop over EDADES: one entry per band, in order, with its label and its female and male confirmed counts |
| AgeSex.TasasEdadSexo | script.py:53-114 | one row per band, in band order: label, counts, populations, rates; the female and male columns add up to the confirmed cases of that sex aged 0..120 |
| Weekly.Dated | script.py:253 | the kept rows are rows of the input with a diagnosis date, every dated row is kept, and each as often as it occurs |
| Weekly.ResampleCountsWeek | script.py:258-267 | summing the (day, code) pivot over the seven days from a Monday counts the rows whose week starts on that Monday |
| Weekly.Weeks | script.py:267 | the resampled index: Mondays of consecutive weeks |
| Weekly.TickLabels | script.py:270 | one tick label per week, each the week's `WeekTickLabel` |
| Weekly.TendenciaErrors | script.py:279-289 | the chart fails with the confirmed column missing iff no dated row is confirmed, with the discarded column missing iff confirmed rows exist but no discarded one, and succeeds iff both exist |
| Weekly.CountCodeColumns | script.py:258-264 | the pivot has a column for a code iff some dated row carries it |
| Weekly.TrendSpan | script.py:267 | every dated row's week lies between the weeks of the earliest and latest dates |
| Weekly.DayNumbersFromRows | script.py:267 | every day the index is built from is the diagnosis day of some dated row, so the first and last weeks come from real rows |
| Weekly.TrendWeeksShape | script.py:267 | the index runs in 7-day steps over Mondays from the week of the earliest date to that of the latest, and holds every dated row's week |
| Weekly.WeeksSpan | script.py:267 | the weeks from `k0` to `k1` are consecutive Mondays from `k0`'s Monday to `k1`'s |
| Weekly.TrendCounts | script.py:279-290 | each bar counts the dated rows of its week and code; a code's bars add up to its dated rows |
| Weekly.TendenciaContents | script.py:253-290 | a successful chart has one bar pair and one tick per index week, bars counting their weeks' rows and legend totals counting all dated confirmed and discarded rows |
| Weekly.UnknownDatesIgnored | script.py:253 | adding a row with the unknown-date placeholder leaves the chart unchanged |
| Weekly.TrendScenarioNoDiscarded | script.py:289 | two confirmed rows on 2025-01-06 and 2025-01-09 and nothing else: the discarded column is missing |
| Weekly.TrendScenarioOneWeek | script.py:258-289 | adding a discarded row on 2025-01-09 gives one week, Monday 2025-01-06, with bars 2 and 1 |
| Funnel.NodeCounts | script.py:433-445 | eleven node counts, one per selection |
| Funnel.LinkValues | script.py:475-486 | the first six link widths are the child nodes' counts, the four death links add 30 |
| Funnel.Topology | script.py:462-474 | the links form a tree from node 0, each node but the root entered by exactly one link pointing forward; the death links leave nodes 3..6 |
| Funnel.ParentIsSource | script.py:462-474 | each node's parent selection is the source of the link into it |
| Funnel.FrameStep | script.py:402-420 | appending a row adds it to exactly the selections of the nodes whose whole path it satisfies |
| Funnel.NodeCountsOnPath | script.py:402-420 | each node counts exactly the rows meeting every condition on its path from the root |
| Funnel.OnlyConfirmedCount | script.py:402 | rows that are not confirmed change no node count |
| Funnel.SplitShrinks | script.py:407-414 | the two children of nodes 0, 1, 2 never total more than their parent, and total all of it iff every parent row has code 1 or 2 |
| Funnel.DeathsBounded | script.py:416-420 | a death node never exceeds its complications node |
| Ranking.Occurrences | script.py:595 | a count no larger than the key column, positive iff the key occurs |
| Ranking.Distinct | script.py:595 | the distinct keys: no duplicates, the same keys as the column |
| Ranking.ValueCounts | script.py:595 | `value_counts()`: one entry per distinct key, no key twice, each with its positive number of occurrences |
| Ranking.ValueCountsSum | script.py:595 | the counts add up to the number of keys counted |
| Ranking.CaseKeys | script.py:589 | the CVE column: the key of each case, in order |
| Ranking.FindIndex | script.py:598 | the join partner: the first population row with the key, found iff the key is in the table |
| Ranking.JoinRow | script.py:598-604 | the left join of one count: total and CVE kept; population, entity and municipality from the first matching row, else all missing; rate `Rate(total, population)`; name `municipio, entidad` or the municipality alone |
| Ranking.JoinKeepsTotals | script.py:598 | the join keeps every count in order |
| Ranking.CountAndJoinTotal | script.py:595-598 | the joined counts add up to the cases counted |
| Ranking.CountAndJoinKeys | script.py:595-598 | joined rows have distinct CVEs, exactly the cases' CVEs, each with its number of occurrences |
| Ranking.InsertDesc | script.py:607 | one insertion step: a rearrangement whose first `i + 1` rows are in non-increasing order of count |
| Ranking.SwapStep | script.py:607 | swapping the moving row left past a smaller count keeps the insertion invariant and the multiset of rows |
| Ranking.Frame.constructor | script.py:595-598 | a frame holds the rows, indexed by CVE |
| Ranking.Frame.SortByTotalDesc | script.py:607 | sorts the frame in place: non-increasing counts, the same multiset of rows, index untouched |
| Ranking.Frame.ResetIndex | script.py:610 | `reset_index(inplace=True)`: rows unchanged, labels become 0, 1, 2, ... |
| Ranking.Frame.ShiftIndex | script.py:611 | `df.index += 1`: rows unchanged, labels start one higher |
| Ranking.Frame.Head | script.py:613 | `head(n)`: the first `min(n, len)` rows |
| Ranking.Numbered | script.py:610-611 | the rows labelled with consecutive positions from the start label |
| Ranking.TopRowsDominate | script.py:607-613 | the cut leaves out exactly the rest of the sorted rows, none counting more than a kept row |
| Ranking.SortedPrefix | script.py:607-613 | the first `min(30, n)` rows of a sorted rearrangement, numbered from 1, rank the rows |
| Ranking.PrefixRows | script.py:607-613 | a sorted prefix is drawn from the rows, is all of them at full length, and no other row outcounts it |
| Ranking.RankTable | script.py:606-613 | sort, reset, shift, cut (`Ranks`): `min(30, n)` rows numbered 1.., non-increasing counts, a sub-multiset of the rows (all of them, each once, when n ≤ 30), none left out counting more than one kept |
| Ranking.NationalTable | script.py:551-613 | the national table `Ranks` the confirmed cases counted per CVE and joined with the renamed population: at most 30 of them, each at most once, and every municipality exactly once when there are no more than 30 |
| Ranking.NationalRowsCount | script.py:589-598 | before the cut the national rows count each CVE's confirmed cases and add up to all confirmed cases |
| Ranking.NationalNames | script.py:604 | a joined national row is named by the matching municipality and its renamed entity |
| Estatal.StatePopulation | estatal.py:82 | the state's population rows all carry the state's name after the renames |
| Estatal.StatePopulationSelects | estatal.py:72-82 | a municipality is in the state's rows iff the table spells its entity with the directory name or the official long name |
| Estatal.PopulationTotal | estatal.py:88 | `pop.sum()`: positive when the state has any municipality |
| Estatal.PopulationTotalBounds | estatal.py:88 | the state total is at least each municipality's population |
| Estatal.StateCases | estatal.py:100-103 | exactly the confirmed rows whose raw entity text is `str(entidad)`, each as often as it occurs |
| Estatal.StateCaseKey | estatal.py:97-103 | such a row's CVE starts with the state's padded code, reading back as the code |
| Estatal.PaddedEntityDropped | estatal.py:97-103 | a case written `"08"` has Chihuahua's padded key prefix yet is not among Chihuahua's cases |
| Estatal.MapRowOf | estatal.py:109-112 | `df["poblacion"] = pop`: population from the state's first row with the key, else missing; rate iff population, equal to `Rate(total, population)` |
| Estatal.MapRows | estatal.py:106-112 | one map row per counted key, in order |
| Estatal.MapRowsTotal | estatal.py:115 | the map rows' totals add up to the counted cases |
| Estatal.DropMissing | estatal.py:124 | `dropna`: exactly the rows with a population and a rate, drawn from the frame, each as often as it occurs |
| Estatal.DropKeepsAtMost | estatal.py:115-124 | dropping rows never adds cases |
| Estatal.StateRate | estatal.py:118 | the state rate is missing iff the population total is 0, else `rate * population == cases * 100000` |
| Estatal.SortAsc | estatal.py:130 | the ascending order a quantile reads: sorted, the same multiset |
| Estatal.MinOf | estatal.py:129 | `min()`: a member no larger than any value |
| Estatal.SortedStartsAtMin | estatal.py:129-130 | the first value in ascending order is the minimum |
| Estatal.Quantile95 | estatal.py:130 | `quantile(0.95)`, linear: between the smallest and largest values, interpolated at `0.95 (n - 1)` between its neighbours |
| Estatal.Quantile95Constant | estatal.py:130 | the quantile of equal values is that value |
| Estatal.Linspace | estatal.py:133 | `np.linspace(a, b, 13)`: 13 ticks from `a` to `b` in equal steps |
| Estatal.LinspaceOrder | estatal.py:133 | ticks rise with the range; an empty range keeps all ticks on its one value |
| Estatal.TickLabels | estatal.py:134-143 | one label per tick: 0 decimals from 10 up, 1 below; the last replaced by `≥` and the quantile without decimals |
| Estatal.ScaleOf | estatal.py:129-143 | no scale without rows; otherwise from the minimum rate to the 0.95 quantile with 13 rising ticks labelled as above |
| Estatal.MapData | estatal.py:82-186 | the map of a named state: population total, counted cases, state rate, rows after the drop (counting no more than the total), colour scale, one boundary with z = 1 per municipality |
| Estatal.CrearMapa | estatal.py:53-186 | an unknown code fails with `UnknownEntity`; a known one gives the map of the state ENTIDADES names |
| Estatal.MapRowsColoured | estatal.py:109-124 | every coloured municipality has a population row and its own rate; every counted municipality with one is coloured |
| Estatal.CrearTablaEstatal | estatal.py:274-339 | an unknown code fails; a known one gives a table that `Ranks` the state's rows as the national table does: each municipality at most once, and all of them when there are no more than 30 |
| Estatal.StateKeys | estatal.py:315-321 | the keys of a state's cases all start with its two-digit code |
| Estatal.StateRows | estatal.py:321-330 | counted and joined, such cases give rows keyed by the state's code, counting their key's cases, named by municipality |
| Estatal.StateTableRowsCount | estatal.py:315-364 | before the cut the state table counts each key's cases, keys carry the state's padded code, names are the municipality, totals add up to the state's confirmed cases |

## Left out

- Reading the CSV and GeoJSON files, drawing the figures and writing the PNG files are I/O. The line list and the population table are parameters.
- Date parsing (`pd.to_datetime(..., dayfirst=True)`) is left out: a row carries its diagnosis day number, or the unknown-date placeholder.
- `tendencia` reads `2025.csv` whatever year it is given; file names are I/O and are not modelled.
- The pivot counts non-null `ID_REGISTRO` cells. The model counts rows, taking that column to be always present.
- Number formatting (`:,.0f`, `:,.1f`, thousands separators) is not modelled. A label is the value with its number of decimals (`TickText`), and the legend and table texts are not modelled.
- A population of zero, which makes pandas divide by zero, is left out: populations are positive. So the model never produces pandas' `inf`. `Estatal.StateRate` gives `None` where pandas would give `NaN` or `inf` for a state with no population rows.
- A population series with a repeated label is not modelled for the age bands (they are a map). The model then uses the first row with a matching CVE, where pandas does otherwise:
  - for the table joins (`df.join(pop)`, script.py:598 and estatal.py:327), pandas would duplicate the counted row, once per matching population row;
  - for the map's `df["poblacion"] = pop` (estatal.py:109, `Estatal.MapRowOf`), pandas raises "cannot reindex on an axis with duplicate labels" and no map is drawn.
- Floating-point arithmetic is modelled with exact reals.
- The in-place column assignments (`final["poblacion_hombres"] = ...`, `df["poblacion"] = pop`, `df["tasa"] = ...`) are modelled as functions returning the new rows (`AgeSex.AddRates`, `Estatal.MapRows`). No other reference to those frames exists, so no aliasing is lost. The sort, reset, shift and cut stay in-place methods of `Ranking.Frame`.
- Ranking.ValueCounts: entries come in order of first occurrence, not by decreasing count as pandas returns them. Only the tables read that order, and they sort again. The map rows follow it, and a choropleth does not depend on row order.
- Ranking.Frame.SortByTotalDesc: states sortedness and permutation only, not which order tied rows end up in. pandas' default sort is not stable, so the source promises no tie order. It requires the CVE index, the only state the source sorts in.
- Estatal.TickLabels: states the decimals chosen for each tick, not the digits printed.
- Estatal.ScaleOf: returns `None` when no municipality keeps a population after `dropna` (estatal.py:124). pandas goes on in that case: the minimum and the quantile are NaN, `np.linspace` gives 13 NaN ticks, and the labels read `nan` except the last, which reads `≥nan`. `Estatal.MapData` carries that `None` scale rather than those NaN ticks and labels.
- Funnel: the colours and the node padding are presentation. `LinkValues` and `NodeCountsOnPath` cover the link widths, so links are not separately tied to node counts.
- The national table's and the state table's last rendering step (`values=[df.index, ...]`) only chooses columns. `Ranking.RankedRow` keeps the whole row.
