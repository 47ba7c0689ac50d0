/** The state reports: the choropleth data of one state (its municipal
    counts and rates, the state-wide rate and the colour scale) and the
    state's ranked municipal table. */
module Estatal {
  import opened Common
  import opened Records
  import opened Keys
  import opened Ranking

  /** `ENTIDADES[entidad]` raises `KeyError` for a code the directory lacks. */
  datatype StateError = UnknownEntity(entidad: int)

  /** `pop[pop["Entidad"] == nombre]` on the renamed population table; the
      map passes `ENTIDADES[entidad]` as `nombre`. */
  function StatePopulation(pop: seq<PopulationRow>, nombre: string): (sp: seq<PopulationRow>)
    ensures forall i :: 0 <= i < |sp| ==> sp[i].entity == nombre
  {
    Filter(CanonicalPopulation(pop), (p: PopulationRow) => p.entity == nombre)
  }

  /** A municipality of the population table is in the state's rows exactly
      when the table spells its entity with the directory name or with the
      official long name of that state. */
  lemma StatePopulationSelects(pop: seq<PopulationRow>, entidad: int, i: nat)
    requires entidad in Entidades && i < |pop|
    ensures CanonicalPopulation(pop)[i] in StatePopulation(pop, Entidades[entidad]) <==>
            pop[i].entity == Entidades[entidad] || OfficialName(entidad) == Some(pop[i].entity)
  {
    var nombre := Entidades[entidad];
    var canon := CanonicalPopulation(pop);
    FilterHas(canon, (p: PopulationRow) => p.entity == nombre, i);
    assert canon[i].entity == CanonicalEntity(pop[i].entity);
    SelectsState(pop[i].entity, entidad);
  }

  /** `pop.sum()` over the population column. */
  function PopulationTotal(sp: seq<PopulationRow>): (n: nat)
    ensures |sp| > 0 ==> n > 0
  {
    if sp == [] then 0 else PopulationTotal(sp[..|sp| - 1]) + sp[|sp| - 1].population
  }

  /** The state total counts every municipality's inhabitants. */
  lemma {:induction false} PopulationTotalBounds(sp: seq<PopulationRow>, i: nat)
    requires i < |sp|
    ensures sp[i].population <= PopulationTotal(sp)
  {
    if i < |sp| - 1 {
      PopulationTotalBounds(sp[..|sp| - 1], i);
    }
  }

  /** `df[df["ENTIDAD_RES"] == str(entidad)]` after the confirmed-case mask:
      the raw, unpadded code is compared. */
  function StateCases(cases: seq<CaseRecord>, entidad: int): (cs: seq<CaseRecord>)
    ensures forall i :: 0 <= i < |cs| ==>
              cs[i] in cases && cs[i].diagnosis == ConfirmedCode && cs[i].entity == IntToString(entidad)
    ensures forall i :: 0 <= i < |cases| ==>
              cases[i].diagnosis == ConfirmedCode && cases[i].entity == IntToString(entidad) ==> cases[i] in cs
    ensures forall x :: multiset(cs)[x] ==
              if x.diagnosis == ConfirmedCode && x.entity == IntToString(entidad) then multiset(cases)[x] else 0
  {
    var c := ConfirmedCases(cases);
    var cs := Filter(c, (r: CaseRecord) => r.entity == IntToString(entidad));
    assert forall i :: 0 <= i < |cs| ==> cs[i] in c;
    cs
  }

  /** Every key the state views count starts with the state's padded code. */
  lemma StateCaseKey(r: CaseRecord, entidad: int)
    requires 0 <= entidad < 100 && r.entity == IntToString(entidad)
    ensures CaseCve(r)[..2] == ZFill(NatToString(entidad), 2)
    ensures DigitsValue(CaseCve(r)[..2]) == entidad
  {
    TwoDigits(entidad);
    var z := ZFill(r.entity, 2);
    assert CaseCve(r) == z + ZFill(r.municipality, 3) && |z| == 2;
    assert CaseCve(r)[..2] == z;
    ZFillDigits(r.entity, 2);
    NatToStringValue(entidad);
  }

  /** A case whose entity is written `"08"` has a Chihuahua key, yet the raw
      comparison with `str(8)` drops it from Chihuahua's views. */
  lemma PaddedEntityDropped(cases: seq<CaseRecord>, r: CaseRecord)
    requires r == CaseRecord("08", "019", 1, 1, 30, 2, 2, 2, Day(20094))
    requires cases == [r]
    ensures CaseCve(r)[..2] == ZFill(IntToString(8), 2)
    ensures StateCases(cases, 8) == []
  {
    var eight := IntToString(8);
    assert eight == "8";
    var z := ZFill(r.entity, 2);
    assert z == "08" && |z| == 2;
    assert CaseCve(r)[..2] == z;
    var z8 := ZFill(eight, 2);
    assert z8[0] == '0' && z8[1..] == eight;
    assert z8 == z;
  }

  /** One municipality in the map frame: its count, the population the state
      series aligns to its key (`None` if the state has no such row) and the rate. */
  datatype MapRow = MapRow(cve: string, total: nat, poblacion: Option<Population>, tasa: Option<real>)

  /** `df["poblacion"] = pop` then `df["tasa"] = ...` for one counted key. */
  function MapRowOf(c: CveCount, sp: seq<PopulationRow>): (row: MapRow)
    ensures row.cve == c.cve && row.total == c.total
    ensures row.poblacion.None? <==> c.cve !in Cves(sp)
    ensures row.poblacion.Some? ==> row.poblacion == Some(sp[FindIndex(sp, c.cve)].population)
    ensures row.tasa.Some? <==> row.poblacion.Some?
    ensures row.poblacion.Some? ==> row.tasa == Some(Rate(row.total, row.poblacion.value))
  {
    var k := FindIndex(sp, c.cve);
    if k == |sp| then MapRow(c.cve, c.total, None, None)
    else MapRow(c.cve, c.total, Some(sp[k].population), Some(Rate(c.total, sp[k].population)))
  }

  /** The map frame before the drop: one row per key of the state's cases. */
  function MapRows(vc: seq<CveCount>, sp: seq<PopulationRow>): (rows: seq<MapRow>)
    ensures |rows| == |vc|
    ensures forall i :: 0 <= i < |vc| ==> rows[i] == MapRowOf(vc[i], sp)
  {
    seq(|vc|, i requires 0 <= i < |vc| => MapRowOf(vc[i], sp))
  }

  function MapTotal(rows: seq<MapRow>): nat
  {
    if rows == [] then 0 else MapTotal(rows[..|rows| - 1]) + rows[|rows| - 1].total
  }

  lemma {:induction false} MapRowsTotal(vc: seq<CveCount>, sp: seq<PopulationRow>)
    ensures MapTotal(MapRows(vc, sp)) == TotalSum(vc)
  {
    if vc != [] {
      var init := vc[..|vc| - 1];
      assert MapRows(vc, sp)[..|init|] == MapRows(init, sp);
      MapRowsTotal(init, sp);
    }
  }

  /** A row with no NaN cell. */
  predicate HasPopulation(r: MapRow) { r.poblacion.Some? && r.tasa.Some? }

  /** `df.dropna(axis=0)`: keeps the rows with a population and a rate. */
  function DropMissing(rows: seq<MapRow>): (kept: seq<MapRow>)
    ensures forall i :: 0 <= i < |kept| ==> kept[i] in rows && kept[i].poblacion.Some? && kept[i].tasa.Some?
    ensures forall i :: 0 <= i < |rows| && rows[i].poblacion.Some? && rows[i].tasa.Some? ==> rows[i] in kept
    ensures forall x :: multiset(kept)[x] == if x.poblacion.Some? && x.tasa.Some? then multiset(rows)[x] else 0
  {
    var kept := Filter(rows, HasPopulation);
    assert forall i :: 0 <= i < |kept| ==> kept[i] in rows;
    kept
  }

  /** Dropping rows never adds cases: the total counted before the drop is at
      least the total of what the map shows. */
  lemma {:induction false} DropKeepsAtMost(rows: seq<MapRow>)
    ensures MapTotal(Filter(rows, HasPopulation)) <= MapTotal(rows)
  {
    if rows != [] {
      var init := rows[..|rows| - 1];
      assert rows == init + [rows[|rows| - 1]];
      FilterSnoc(init, rows[|rows| - 1], HasPopulation);
      var f := Filter(init, HasPopulation);
      if HasPopulation(rows[|rows| - 1]) {
        assert (f + [rows[|rows| - 1]])[..|f|] == f;
      }
      DropKeepsAtMost(init);
    }
  }

  /** `total_casos / poblacion_total * 100000`; with no population rows the
      state rate is NaN. */
  function StateRate(totalCasos: nat, poblacionTotal: nat): (r: Option<real>)
    ensures r.None? <==> poblacionTotal == 0
    ensures r.Some? ==> r.value * (poblacionTotal as real) == (totalCasos as real) * PerInhabitants
  {
    if poblacionTotal == 0 then None else Some(Rate(totalCasos, poblacionTotal))
  }

  /** The rate column of rows that all have one. */
  function Rates(rows: seq<MapRow>): (v: seq<real>)
    requires forall i :: 0 <= i < |rows| ==> rows[i].tasa.Some?
    ensures |v| == |rows|
    ensures forall i :: 0 <= i < |rows| ==> v[i] == rows[i].tasa.value
  {
    seq(|rows|, i requires 0 <= i < |rows| => rows[i].tasa.value)
  }

  predicate SortedAsc(v: seq<real>)
  {
    forall i, j :: 0 <= i < j < |v| ==> v[i] <= v[j]
  }

  function Insert(x: real, v: seq<real>): (r: seq<real>)
    requires SortedAsc(v)
    ensures |r| == |v| + 1 && SortedAsc(r)
    ensures multiset(r) == multiset(v) + multiset{x}
    ensures r[0] == x || (|v| > 0 && r[0] == v[0])
  {
    if v == [] then [x]
    else if x <= v[0] then [x] + v
    else
      assert v == [v[0]] + v[1..];
      [v[0]] + Insert(x, v[1..])
  }

  /** The ascending order in which a quantile reads its values. */
  function SortAsc(v: seq<real>): (r: seq<real>)
    ensures |r| == |v| && SortedAsc(r)
    ensures multiset(r) == multiset(v)
  {
    if v == [] then []
    else
      assert v == [v[0]] + v[1..];
      Insert(v[0], SortAsc(v[1..]))
  }

  /** `Series.min()` of a non-empty column. */
  function MinOf(v: seq<real>): (m: real)
    requires |v| > 0
    ensures m in v
    ensures forall i :: 0 <= i < |v| ==> m <= v[i]
  {
    if |v| == 1 then v[0]
    else
      var m := MinOf(v[1..]);
      assert forall i :: 1 <= i < |v| ==> v[i] == v[1..][i - 1];
      if v[0] <= m then v[0] else m
  }

  /** The smallest of the values is the first in ascending order. */
  lemma SortedStartsAtMin(v: seq<real>)
    requires |v| > 0
    ensures SortAsc(v)[0] == MinOf(v)
  {
    var s := SortAsc(v);
    assert s[0] in multiset(v);
    assert MinOf(v) in multiset(s);
  }

  /** `Series.quantile(0.95)` with pandas' default linear interpolation: the
      value at the fractional position `h = 0.95 (n - 1)` of the ascending
      values, between its neighbours `floor(h)` and `floor(h) + 1`. */
  function Quantile95(v: seq<real>): (q: real)
    requires |v| > 0 && SortedAsc(v)
    ensures v[0] <= q <= v[|v| - 1]
    ensures var h := 0.95 * ((|v| - 1) as real);
      var lo := h.Floor;
      0 <= lo < |v|
      && (lo + 1 < |v| ==> q == v[lo] + (h - lo as real) * (v[lo + 1] - v[lo]))
      && (lo + 1 == |v| ==> q == v[lo])
  {
    var h := 0.95 * ((|v| - 1) as real);
    var lo := h.Floor;
    if lo + 1 < |v| then
      var f := h - lo as real;
      var d := v[lo + 1] - v[lo];
      assert v[0] <= v[lo] <= v[lo + 1] <= v[|v| - 1];
      ScaledDown(f, d);
      assert v[lo] + f * d <= v[lo + 1];
      v[lo] + f * d
    else v[lo]
  }

  lemma ScaledDown(f: real, d: real)
    requires 0.0 <= f <= 1.0 && d >= 0.0
    ensures 0.0 <= f * d <= d
  {
    assert d - f * d == (1.0 - f) * d;
  }

  /** The 0.95 quantile of one value, or of equal values, is that value. */
  lemma Quantile95Constant(v: seq<real>, x: real)
    requires |v| > 0 && forall i :: 0 <= i < |v| ==> v[i] == x
    ensures Quantile95(v) == x
  {
  }

  /** The number of ticks of the colour bar. */
  const TickCount := 13

  /** `np.linspace(a, b, 13)`. */
  function Linspace(a: real, b: real): (t: seq<real>)
    ensures |t| == TickCount
    ensures t[0] == a && t[TickCount - 1] == b
    ensures forall i :: 0 <= i < TickCount - 1 ==> t[i + 1] - t[i] == (b - a) / 12.0
  {
    var step := (b - a) / 12.0;
    seq(TickCount, i requires 0 <= i < TickCount => a + (i as real) * step)
  }

  /** Ticks over a range rise with it; an empty range is not widened: all
      the ticks then sit on the one value. */
  lemma LinspaceOrder(a: real, b: real)
    ensures a <= b ==> forall i, j :: 0 <= i < j < TickCount ==> Linspace(a, b)[i] <= Linspace(a, b)[j]
    ensures a == b ==> forall i :: 0 <= i < TickCount ==> Linspace(a, b)[i] == a
  {
    var t := Linspace(a, b);
    if a <= b {
      var step := (b - a) / 12.0;
      forall i, j | 0 <= i < j < TickCount
        ensures t[i] <= t[j]
      {
        assert t[j] - t[i] == ((j - i) as real) * step;
        ScaledDown(0.0, step);
        assert ((j - i) as real) * step >= 0.0;
      }
    }
  }

  /** A tick's text: a prefix, then the value with the given number of
      decimals (the thousands separator is left to the renderer). */
  datatype TickText = TickText(prefix: string, value: real, decimals: nat)

  /** `f"{item:,.0f}"` from 10 up, `f"{item:,.1f}"` below. */
  function TickFormat(x: real): TickText
  {
    if x >= 10.0 then TickText("", x, 0) else TickText("", x, 1)
  }

  /** The colour bar's texts: each tick formatted by its size, and the last
      one replaced by `"≥"` and the 95th percentile without decimals. */
  method TickLabels(marcas: seq<real>, valorMax: real) returns (etiquetas: seq<TickText>)
    requires |marcas| > 0
    ensures |etiquetas| == |marcas|
    ensures forall i :: 0 <= i < |marcas| - 1 ==>
              etiquetas[i].prefix == "" && etiquetas[i].value == marcas[i]
              && (etiquetas[i].decimals == 0 <==> marcas[i] >= 10.0)
              && (etiquetas[i].decimals == 1 <==> marcas[i] < 10.0)
    ensures etiquetas[|marcas| - 1] == TickText("≥", valorMax, 0)
  {
    etiquetas := [];
    var i := 0;
    while i < |marcas|
      invariant 0 <= i <= |marcas|
      invariant |etiquetas| == i
      invariant forall k :: 0 <= k < i ==> etiquetas[k] == TickFormat(marcas[k])
    {
      etiquetas := etiquetas + [TickFormat(marcas[i])];
      i := i + 1;
    }
    etiquetas := etiquetas[|marcas| - 1 := TickText("≥", valorMax, 0)];
  }

  /** The colour scale: its ends and its ticks with their texts. */
  datatype Scale = Scale(zmin: real, zmax: real, marcas: seq<real>, etiquetas: seq<TickText>)

  /** Everything the state map draws.  `rows` are the coloured
      municipalities; `scale` is `None` when no row is left to colour (the
      scale is then NaN); `fronteras` is the boundary layer, with its `z`. */
  datatype Choropleth = Choropleth(
    poblacionTotal: nat,
    totalCasos: nat,
    tasaEstatal: Option<real>,
    rows: seq<MapRow>,
    scale: Option<Scale>,
    fronteras: seq<string>,
    frontera: seq<int>)

  /** The counted rows of the state's map, before the drop. */
  function StateMapRows(cases: seq<CaseRecord>, pop: seq<PopulationRow>, entidad: int, nombre: string): seq<MapRow>
  {
    MapRows(ValueCounts(CaseKeys(StateCases(cases, entidad))), StatePopulation(pop, nombre))
  }

  /** What the colour scale of rows with rates is: none without rows, else
      from the minimum rate to the 0.95 quantile of the rates, 13 evenly
      spaced rising ticks, each labelled by its size but the last, which
      reads "≥" and the quantile without decimals. */
  predicate ScaleFits(rows: seq<MapRow>, scale: Option<Scale>)
    requires forall i :: 0 <= i < |rows| ==> rows[i].tasa.Some?
  {
    (scale.None? <==> rows == [])
    && (scale.Some? ==>
          var s := scale.value;
          var v := Rates(rows);
          s.zmin == MinOf(v) && s.zmax == Quantile95(SortAsc(v)) && s.zmin <= s.zmax
          && s.marcas == Linspace(s.zmin, s.zmax)
          && |s.etiquetas| == TickCount
          && s.etiquetas[TickCount - 1] == TickText("≥", s.zmax, 0)
          && (forall i :: 0 <= i < TickCount - 1 ==> s.etiquetas[i] == TickFormat(s.marcas[i]))
          && forall i, j :: 0 <= i < j < TickCount ==> s.marcas[i] <= s.marcas[j])
  }

  /** `valor_min`, `valor_max`, `marcas` and `etiquetas`. */
  method ScaleOf(rows: seq<MapRow>) returns (scale: Option<Scale>)
    requires forall i :: 0 <= i < |rows| ==> rows[i].tasa.Some?
    ensures ScaleFits(rows, scale)
  {
    if rows == [] {
      return None;
    }
    var v := Rates(rows);
    var valorMin := MinOf(v);
    var valorMax := Quantile95(SortAsc(v));
    SortedStartsAtMin(v);
    var marcas := Linspace(valorMin, valorMax);
    LinspaceOrder(valorMin, valorMax);
    var etiquetas := TickLabels(marcas, valorMax);
    scale := Some(Scale(valorMin, valorMax, marcas, etiquetas));
  }

  /** What the map of the state named `nombre` shows: the population total of
      all its municipalities, the confirmed cases counted before the drop,
      the state rate from those two, the rows left after the drop (which
      count no more than the total), their colour scale and one boundary per
      municipality of the state, each with z = 1. */
  predicate MapFits(cases: seq<CaseRecord>, pop: seq<PopulationRow>, entidad: int, nombre: string, m: Choropleth)
  {
    var sp := StatePopulation(pop, nombre);
    m.poblacionTotal == PopulationTotal(sp)
    && m.totalCasos == |StateCases(cases, entidad)|
    && m.tasaEstatal == StateRate(m.totalCasos, m.poblacionTotal)
    && m.rows == DropMissing(StateMapRows(cases, pop, entidad, nombre))
    && MapTotal(m.rows) <= m.totalCasos
    && ScaleFits(m.rows, m.scale)
    && m.fronteras == Cves(sp)
    && |m.frontera| == |sp|
    && forall i :: 0 <= i < |sp| ==> m.frontera[i] == 1
  }

  /** The map data of the state named `nombre`. */
  method MapData(cases: seq<CaseRecord>, pop: seq<PopulationRow>, entidad: int, nombre: string)
    returns (m: Choropleth)
    ensures MapFits(cases, pop, entidad, nombre, m)
  {
    var sp := StatePopulation(pop, nombre);
    var poblacionTotal := PopulationTotal(sp);
    var cs := StateCases(cases, entidad);
    var vc := ValueCounts(CaseKeys(cs));
    var df := MapRows(vc, sp);
    var totalCasos := MapTotal(df);
    MapRowsTotal(vc, sp);
    ValueCountsSum(CaseKeys(cs));
    var tasaEstatal := StateRate(totalCasos, poblacionTotal);
    DropKeepsAtMost(df);
    df := DropMissing(df);
    var scale := ScaleOf(df);
    var frontera := Ones(|sp|);
    m := Choropleth(poblacionTotal, totalCasos, tasaEstatal, df, scale, Cves(sp), frontera);
  }

  /** `[1 for _ in range(n)]`. */
  function Ones(n: nat): (z: seq<int>)
    ensures |z| == n && forall i :: 0 <= i < n ==> z[i] == 1
  {
    seq(n, _ => 1)
  }

  /** `crear_mapa(año, entidad)`, up to the figure: an unknown code fails,
      a known one gives the map of the state the directory names. */
  method CrearMapa(cases: seq<CaseRecord>, pop: seq<PopulationRow>, entidad: int)
    returns (r: Result<Choropleth, StateError>)
    ensures r.Err? <==> entidad !in Entidades
    ensures r.Err? ==> r.error == UnknownEntity(entidad)
    ensures r.Ok? ==> MapFits(cases, pop, entidad, Entidades[entidad], r.value)
  {
    if entidad !in Entidades {
      return Err(UnknownEntity(entidad));
    }
    var m := MapData(cases, pop, entidad, Entidades[entidad]);
    r := Ok(m);
  }

  /** Every coloured municipality has a row in the state's population and
      is coloured by its own rate; every counted municipality with such a
      row is coloured. */
  lemma MapRowsColoured(vc: seq<CveCount>, sp: seq<PopulationRow>)
    ensures var all := MapRows(vc, sp);
      var kept := DropMissing(all);
      (forall i :: 0 <= i < |kept| ==>
         kept[i].cve in Cves(sp)
         && kept[i].tasa == Some(Rate(kept[i].total, kept[i].poblacion.value)))
      && forall i :: 0 <= i < |all| && all[i].cve in Cves(sp) ==> all[i] in kept
  {
    var all := MapRows(vc, sp);
    var kept := DropMissing(all);
    forall i | 0 <= i < |kept|
      ensures kept[i].cve in Cves(sp)
    {
      var k :| 0 <= k < |all| && all[k] == kept[i];
    }
  }

  /** The rows of the state's table before the sort: the state's confirmed
      cases counted per key and joined with the whole renamed population table. */
  function StateTableRows(cases: seq<CaseRecord>, pop: seq<PopulationRow>, entidad: int): seq<TableRow>
  {
    CountAndJoin(StateCases(cases, entidad), pop, MunicipioOnly)
  }

  /** `crear_tabla_absolutos(año, entidad)`, up to the figure: the state's 30
      municipalities with most confirmed cases, named by municipality alone.
      The title's `ENTIDADES[entidad]` fails for an unknown code. */
  method CrearTablaEstatal(cases: seq<CaseRecord>, pop: seq<PopulationRow>, entidad: int)
    returns (r: Result<seq<RankedRow>, StateError>)
    ensures r.Err? <==> entidad !in Entidades
    ensures r.Err? ==> r.error == UnknownEntity(entidad)
    ensures r.Ok? ==> Ranks(r.value, StateTableRows(cases, pop, entidad))
  {
    if entidad !in Entidades {
      return Err(UnknownEntity(entidad));
    }
    var table := RankTable(StateTableRows(cases, pop, entidad));
    r := Ok(table);
  }

  /** The keys of cases whose entity is written `str(entidad)` all start
      with the state's two-digit code. */
  lemma StateKeys(cs: seq<CaseRecord>, entidad: int)
    requires 0 <= entidad < 100
    requires forall i :: 0 <= i < |cs| ==> cs[i].entity == IntToString(entidad)
    ensures forall k :: k in CaseKeys(cs) ==> |k| >= 2 && k[..2] == ZFill(NatToString(entidad), 2)
  {
    var keys := CaseKeys(cs);
    forall k | k in keys
      ensures |k| >= 2 && k[..2] == ZFill(NatToString(entidad), 2)
    {
      var i :| 0 <= i < |keys| && keys[i] == k;
      StateCaseKey(cs[i], entidad);
    }
  }

  /** Counted and joined by municipality name alone, such cases give rows
      keyed by the state's code, named by their municipality. */
  lemma StateRows(cs: seq<CaseRecord>, pop: seq<PopulationRow>, entidad: int)
    requires 0 <= entidad < 100
    requires forall i :: 0 <= i < |cs| ==> cs[i].entity == IntToString(entidad)
    ensures var rows := CountAndJoin(cs, pop, MunicipioOnly);
      RowTotals(rows) == |cs|
      && forall i :: 0 <= i < |rows| ==>
           rows[i].total == Occurrences(CaseKeys(cs), rows[i].cve)
           && |rows[i].cve| >= 2 && rows[i].cve[..2] == ZFill(NatToString(entidad), 2)
           && (rows[i].poblacion.Some? ==> rows[i].nombre == rows[i].municipio)
  {
    var rows := CountAndJoin(cs, pop, MunicipioOnly);
    var vc := ValueCounts(CaseKeys(cs));
    CountAndJoinTotal(cs, pop, MunicipioOnly);
    CountAndJoinKeys(cs, pop, MunicipioOnly);
    StateKeys(cs, entidad);
    forall i | 0 <= i < |rows|
      ensures |rows[i].cve| >= 2 && rows[i].cve[..2] == ZFill(NatToString(entidad), 2)
      ensures rows[i].poblacion.Some? ==> rows[i].nombre == rows[i].municipio
    {
      assert RowCves(rows)[i] == rows[i].cve;
      assert rows[i] == JoinRow(vc[i], CanonicalPopulation(pop), MunicipioOnly);
    }
  }

  /** Each row of the state table counts the state's confirmed cases with
      its key, that key starts with the state's two-digit code, the row is
      named by its municipality alone, and before the cut the counts add up
      to the state's confirmed cases. */
  lemma StateTableRowsCount(cases: seq<CaseRecord>, pop: seq<PopulationRow>, entidad: int)
    requires 0 <= entidad < 100
    ensures var cs := StateCases(cases, entidad);
      var rows := StateTableRows(cases, pop, entidad);
      RowTotals(rows) == |cs|
      && forall i :: 0 <= i < |rows| ==>
           rows[i].total == Occurrences(CaseKeys(cs), rows[i].cve)
           && |rows[i].cve| >= 2 && rows[i].cve[..2] == ZFill(NatToString(entidad), 2)
           && (rows[i].poblacion.Some? ==> rows[i].nombre == rows[i].municipio)
  {
    StateRows(StateCases(cases, entidad), pop, entidad);
  }
}
