/** The ranked municipal tables: confirmed cases counted per CVE
    (`value_counts`), left-joined with the population table, rated per
    100 000 inhabitants, sorted by count, renumbered from 1 and cut to the
    top 30. */
module Ranking {
  import opened Common
  import opened Records
  import opened Keys

  /** How many times `k` occurs in `keys`. */
  function Occurrences(keys: seq<string>, k: string): (n: nat)
    ensures n <= |keys|
    ensures n > 0 <==> k in keys
  {
    if keys == [] then 0
    else
      var init := keys[..|keys| - 1];
      assert keys == init + [keys[|keys| - 1]];
      Occurrences(init, k) + (if keys[|keys| - 1] == k then 1 else 0)
  }

  predicate NoDuplicates(d: seq<string>)
  {
    forall i, j :: 0 <= i < j < |d| ==> d[i] != d[j]
  }

  /** The distinct keys, in order of first occurrence. */
  function Distinct(keys: seq<string>): (d: seq<string>)
    ensures NoDuplicates(d)
    ensures forall k :: k in d <==> k in keys
  {
    if keys == [] then []
    else
      var init := keys[..|keys| - 1];
      var x := keys[|keys| - 1];
      assert keys == init + [x];
      if x in init then Distinct(init) else Distinct(init) + [x]
  }

  /** One entry of a `value_counts()` result: a key and how often it occurs. */
  datatype CveCount = CveCount(cve: string, total: nat)

  /** The count of every key of `d` in `keys`. */
  function Tally(keys: seq<string>, d: seq<string>): (t: seq<CveCount>)
    ensures |t| == |d|
    ensures forall i :: 0 <= i < |d| ==> t[i] == CveCount(d[i], Occurrences(keys, d[i]))
  {
    if d == [] then []
    else Tally(keys, d[..|d| - 1]) + [CveCount(d[|d| - 1], Occurrences(keys, d[|d| - 1]))]
  }

  /** The key column of counted entries. */
  function KeysOf(vc: seq<CveCount>): seq<string>
  {
    Column(vc, (c: CveCount) => c.cve)
  }

  /** `Series.value_counts()`: one entry per distinct key with its positive
      count.  The entries come in order of first occurrence; pandas orders
      them by count, and the tables sort them again anyway. */
  function ValueCounts(keys: seq<string>): (vc: seq<CveCount>)
    ensures NoDuplicates(KeysOf(vc))
    ensures forall k :: k in KeysOf(vc) <==> k in keys
    ensures forall i :: 0 <= i < |vc| ==> vc[i].total == Occurrences(keys, vc[i].cve) && vc[i].total >= 1
  {
    var d := Distinct(keys);
    var vc := Tally(keys, d);
    assert KeysOf(vc) == d;
    vc
  }

  /** `df["total"].sum()`. */
  function TotalSum(t: seq<CveCount>): nat
  {
    if t == [] then 0 else TotalSum(t[..|t| - 1]) + t[|t| - 1].total
  }

  lemma {:induction false} TallyEmpty(d: seq<string>)
    ensures TotalSum(Tally([], d)) == 0
  {
    if d != [] {
      assert Tally([], d)[..|d| - 1] == Tally([], d[..|d| - 1]);
      TallyEmpty(d[..|d| - 1]);
    }
  }

  /** One more key adds to the tally as many units as `d` holds copies of it. */
  lemma {:induction false} TallySnoc(keys: seq<string>, x: string, d: seq<string>)
    ensures TotalSum(Tally(keys + [x], d)) == TotalSum(Tally(keys, d)) + Occurrences(d, x)
  {
    assert (keys + [x])[..|keys|] == keys;
    if d != [] {
      var init := d[..|d| - 1];
      assert Tally(keys + [x], d)[..|init|] == Tally(keys + [x], init);
      assert Tally(keys, d)[..|init|] == Tally(keys, init);
      TallySnoc(keys, x, init);
    }
  }

  lemma {:induction false} OccursOnce(d: seq<string>, x: string)
    requires NoDuplicates(d) && x in d
    ensures Occurrences(d, x) == 1
  {
    var init := d[..|d| - 1];
    assert d == init + [d[|d| - 1]];
    if d[|d| - 1] == x {
      assert x !in init;
    } else {
      OccursOnce(init, x);
    }
  }

  /** Counting over keys that cover every row, each once, counts every row. */
  lemma {:induction false} TallyAll(keys: seq<string>, d: seq<string>)
    requires NoDuplicates(d)
    requires forall k :: k in keys ==> k in d
    ensures TotalSum(Tally(keys, d)) == |keys|
  {
    if keys == [] {
      TallyEmpty(d);
    } else {
      var init := keys[..|keys| - 1];
      var x := keys[|keys| - 1];
      assert keys == init + [x];
      TallyAll(init, d);
      TallySnoc(init, x, d);
      OccursOnce(d, x);
    }
  }

  /** The counts of `value_counts()` add up to the number of keys counted. */
  lemma ValueCountsSum(keys: seq<string>)
    ensures TotalSum(ValueCounts(keys)) == |keys|
  {
    TallyAll(keys, Distinct(keys));
  }

  /** The CVE column of a frame of cases. */
  function CaseKeys(cs: seq<CaseRecord>): (k: seq<string>)
    ensures |k| == |cs|
    ensures forall i :: 0 <= i < |cs| ==> k[i] == CaseCve(cs[i])
  {
    seq(|cs|, i requires 0 <= i < |cs| => CaseCve(cs[i]))
  }

  /** The CVE column of the population table. */
  function Cves(pop: seq<PopulationRow>): seq<string>
  {
    Column(pop, (p: PopulationRow) => p.cve)
  }

  /** The position of the first population row with key `cve`, or `|pop|`. */
  function FindIndex(pop: seq<PopulationRow>, cve: string): (k: nat)
    ensures k <= |pop|
    ensures k < |pop| <==> cve in Cves(pop)
    ensures k < |pop| ==> pop[k].cve == cve
    ensures forall j :: 0 <= j < k ==> pop[j].cve != cve
  {
    if pop == [] then 0
    else if pop[0].cve == cve then 0
    else
      assert Cves(pop) == [pop[0].cve] + Cves(pop[1..]);
      1 + FindIndex(pop[1..], cve)
  }

  /** Which text a table shows as the municipality's name. */
  datatype Naming = MunicipioEntidad | MunicipioOnly

  /** One row of a joined table.  The last five columns are `None` (NaN)
      for a CVE the population table lacks. */
  datatype TableRow = TableRow(
    cve: string,
    total: nat,
    entidad: Option<string>,
    municipio: Option<string>,
    poblacion: Option<Population>,
    tasa: Option<real>,
    nombre: Option<string>)

  /** The name column: `municipio + ", " + entidad` nationally, `municipio`
      alone in a state table. */
  function Nombre(municipio: string, entidad: string, naming: Naming): string
  {
    if naming == MunicipioEntidad then municipio + ", " + entidad else municipio
  }

  /** `df.join(pop)` for one counted CVE, then the rate and the name columns. */
  function JoinRow(c: CveCount, pop: seq<PopulationRow>, naming: Naming): (row: TableRow)
    ensures row.cve == c.cve && row.total == c.total
    ensures row.poblacion.None? <==> c.cve !in Cves(pop)
    ensures row.poblacion.None? ==>
      row.entidad.None? && row.municipio.None? && row.tasa.None? && row.nombre.None?
    ensures row.poblacion.Some? ==>
              var p := pop[FindIndex(pop, c.cve)];
              row.poblacion == Some(p.population)
              && row.entidad == Some(p.entity) && row.municipio == Some(p.municipality)
    ensures row.poblacion.Some? ==> row.tasa == Some(Rate(row.total, row.poblacion.value))
    ensures naming == MunicipioOnly ==> row.nombre == row.municipio
    ensures naming == MunicipioEntidad && row.poblacion.Some? ==>
              row.nombre == Some(row.municipio.value + ", " + row.entidad.value)
  {
    var k := FindIndex(pop, c.cve);
    if k == |pop| then TableRow(c.cve, c.total, None, None, None, None, None)
    else
      var p := pop[k];
      TableRow(c.cve, c.total, Some(p.entity), Some(p.municipality), Some(p.population),
               Some(Rate(c.total, p.population)), Some(Nombre(p.municipality, p.entity, naming)))
  }

  function JoinAll(vc: seq<CveCount>, pop: seq<PopulationRow>, naming: Naming): (rows: seq<TableRow>)
    ensures |rows| == |vc|
    ensures forall i :: 0 <= i < |vc| ==> rows[i] == JoinRow(vc[i], pop, naming)
  {
    seq(|vc|, i requires 0 <= i < |vc| => JoinRow(vc[i], pop, naming))
  }

  function RowTotals(rows: seq<TableRow>): nat
  {
    if rows == [] then 0 else RowTotals(rows[..|rows| - 1]) + rows[|rows| - 1].total
  }

  lemma {:induction false} JoinKeepsTotals(vc: seq<CveCount>, pop: seq<PopulationRow>, naming: Naming)
    ensures RowTotals(JoinAll(vc, pop, naming)) == TotalSum(vc)
  {
    if vc != [] {
      var init := vc[..|vc| - 1];
      assert JoinAll(vc, pop, naming)[..|init|] == JoinAll(init, pop, naming);
      JoinKeepsTotals(init, pop, naming);
    }
  }

  /** The CVE column of a table. */
  function RowCves(rows: seq<TableRow>): seq<string>
  {
    Column(rows, (r: TableRow) => r.cve)
  }

  /** The counted and joined rows of a table over the cases `cs`. */
  function CountAndJoin(cs: seq<CaseRecord>, pop: seq<PopulationRow>, naming: Naming): seq<TableRow>
  {
    JoinAll(ValueCounts(CaseKeys(cs)), CanonicalPopulation(pop), naming)
  }

  /** The joined rows count every case once: their totals add up to the
      number of cases. */
  lemma CountAndJoinTotal(cs: seq<CaseRecord>, pop: seq<PopulationRow>, naming: Naming)
    ensures RowTotals(CountAndJoin(cs, pop, naming)) == |cs|
  {
    JoinKeepsTotals(ValueCounts(CaseKeys(cs)), CanonicalPopulation(pop), naming);
    ValueCountsSum(CaseKeys(cs));
  }

  /** The joined rows hold each CVE of the cases exactly once, none other,
      each with the number of cases carrying it. */
  lemma CountAndJoinKeys(cs: seq<CaseRecord>, pop: seq<PopulationRow>, naming: Naming)
    ensures var rows := CountAndJoin(cs, pop, naming);
      NoDuplicates(RowCves(rows))
      && (forall k :: k in RowCves(rows) <==> k in CaseKeys(cs))
      && forall i :: 0 <= i < |rows| ==>
           rows[i].total == Occurrences(CaseKeys(cs), rows[i].cve) && rows[i].total >= 1
  {
    JoinKeys(ValueCounts(CaseKeys(cs)), CanonicalPopulation(pop), naming);
  }

  /** The join keeps each count's key and total, in order. */
  lemma JoinKeys(vc: seq<CveCount>, pop: seq<PopulationRow>, naming: Naming)
    ensures var rows := JoinAll(vc, pop, naming);
      RowCves(rows) == KeysOf(vc)
      && forall i :: 0 <= i < |rows| ==> rows[i].cve == vc[i].cve && rows[i].total == vc[i].total
  {
  }

  /** The joined rows of the national table: every confirmed case, keyed by
      its CVE, against the renamed population table. */
  function NationalRows(cases: seq<CaseRecord>, pop: seq<PopulationRow>): seq<TableRow>
  {
    CountAndJoin(ConfirmedCases(cases), pop, MunicipioEntidad)
  }

  /** The frame's row labels: the CVE of each row, as `value_counts` leaves
      them, or the consecutive integers from `start` a reset gives. */
  datatype Index = ByCve | Range(start: int)

  /** Mid-way through an insertion step: the rows up to `i` are sorted but
      for the moving row at `j`, which counts at least the rows after it. */
  predicate Inserting(t: seq<TableRow>, j: nat, i: nat)
    requires j <= i < |t|
  {
    (forall a, b :: 0 <= a < b <= i && a != j && b != j ==> t[a].total >= t[b].total)
    && (forall a, b :: 0 <= a < j < b <= i ==> t[a].total >= t[b].total)
    && (forall b :: j < b <= i ==> t[j].total >= t[b].total)
  }

  /** Swapping the moving row with a left neighbour that counts less keeps
      the insertion going one place further left. */
  lemma SwapStep(t: seq<TableRow>, j: nat, i: nat)
    requires 0 < j <= i < |t| && Inserting(t, j, i)
    requires t[j - 1].total < t[j].total
    ensures Inserting(t[j - 1 := t[j]][j := t[j - 1]], j - 1, i)
    ensures multiset(t[j - 1 := t[j]][j := t[j - 1]]) == multiset(t)
  {
    var u := t[j - 1 := t[j]][j := t[j - 1]];
    assert u[j - 1] == t[j] && u[j] == t[j - 1];
    assert forall k :: 0 <= k < |t| && k != j - 1 && k != j ==> u[k] == t[k];
    forall a, b | 0 <= a < b <= i && a != j - 1 && b != j - 1
      ensures u[a].total >= u[b].total
    {
      if a == j {
        assert t[j - 1].total >= t[b].total;
      } else if b == j {
        assert t[a].total >= t[j - 1].total;
      }
    }
    forall a, b | 0 <= a < j - 1 < b <= i
      ensures u[a].total >= u[b].total
    {
      if b == j {
        assert t[a].total >= t[j - 1].total;
      }
    }
    SwapKeeps(t, j);
  }

  /** Swapping two neighbours rearranges the rows. */
  lemma SwapKeeps(t: seq<TableRow>, j: nat)
    requires 0 < j < |t|
    ensures multiset(t[j - 1 := t[j]][j := t[j - 1]]) == multiset(t)
  {
    var u := t[j - 1 := t[j]];
    assert multiset(u) == multiset(t) - multiset{t[j - 1]} + multiset{t[j]};
  }

  /** The insertion stops where the left neighbour counts at least as much. */
  lemma InsertDone(t: seq<TableRow>, j: nat, i: nat)
    requires j <= i < |t| && Inserting(t, j, i)
    requires j == 0 || t[j - 1].total >= t[j].total
    ensures forall a, b :: 0 <= a < b <= i ==> t[a].total >= t[b].total
  {
  }

  /** One insertion step: the row at `i` moves left past the rows before it
      that count less, so the first `i + 1` rows end up sorted. */
  method InsertDesc(s: seq<TableRow>, i: nat) returns (t: seq<TableRow>)
    requires i < |s|
    requires forall a, b :: 0 <= a < b < i ==> s[a].total >= s[b].total
    ensures |t| == |s| && multiset(t) == multiset(s)
    ensures forall a, b :: 0 <= a < b <= i ==> t[a].total >= t[b].total
  {
    t := s;
    var j := i;
    while j > 0 && t[j - 1].total < t[j].total
      invariant 0 <= j <= i && |t| == |s|
      invariant multiset(t) == multiset(s)
      invariant Inserting(t, j, i)
    {
      SwapStep(t, j, i);
      t := t[j - 1 := t[j]][j := t[j - 1]];
      j := j - 1;
    }
    InsertDone(t, j, i);
  }

  /** The pandas frame the table functions sort, reindex and cut in place. */
  class Frame {
    var rows: seq<TableRow>
    var index: Index

    constructor (rows: seq<TableRow>)
      ensures this.rows == rows && index == ByCve
    {
      this.rows := rows;
      index := ByCve;
    }

    /** `sort_values("total", ascending=False, inplace=True)`: the rows are
        rearranged so `total` never increases.  Rows of equal count may end
        in any order.  The CVE labels travel with their rows. */
    method SortByTotalDesc()
      requires index == ByCve
      modifies this
      ensures index == ByCve
      ensures forall i, j :: 0 <= i < j < |rows| ==> rows[i].total >= rows[j].total
      ensures multiset(rows) == multiset(old(rows))
    {
      var s := rows;
      var i := 0;
      while i < |s|
        invariant 0 <= i <= |s| == |rows|
        invariant forall a, b :: 0 <= a < b < i ==> s[a].total >= s[b].total
        invariant multiset(s) == multiset(rows)
        invariant index == ByCve && rows == old(rows)
      {
        s := InsertDesc(s, i);
        i := i + 1;
      }
      rows := s;
    }

    /** `reset_index(inplace=True)`: the labels become 0, 1, 2, ...  (the
        CVE each row was labelled with is already its `cve` column). */
    method ResetIndex()
      modifies this
      ensures rows == old(rows) && index == Range(0)
    {
      index := Range(0);
    }

    /** `df.index += 1`; adding to CVE labels would be a type error. */
    method ShiftIndex()
      requires index.Range?
      modifies this
      ensures rows == old(rows) && index == Range(old(index).start + 1)
    {
      index := Range(index.start + 1);
    }

    /** `df.head(n)`: the first `n` rows, or all of them when there are fewer. */
    method Head(n: nat) returns (top: seq<TableRow>)
      ensures |top| == Min(n, |rows|)
      ensures forall i :: 0 <= i < |top| ==> top[i] == rows[i]
    {
      top := rows[..Min(n, |rows|)];
    }
  }

  /** How many rows the tables keep. */
  const TopRows := 30

  /** A table line: its position (the frame label) and its row. */
  datatype RankedRow = RankedRow(position: int, row: TableRow)

  function RowsOf(table: seq<RankedRow>): (rs: seq<TableRow>)
    ensures |rs| == |table|
    ensures forall i :: 0 <= i < |table| ==> rs[i] == table[i].row
  {
    seq(|table|, i requires 0 <= i < |table| => table[i].row)
  }

  /** Rows labelled with consecutive positions from `start`. */
  function Numbered(top: seq<TableRow>, start: int): (table: seq<RankedRow>)
    ensures |table| == |top| && RowsOf(table) == top
    ensures forall i :: 0 <= i < |table| ==> table[i] == RankedRow(start + i, top[i])
  {
    var table := seq(|top|, i requires 0 <= i < |top| => RankedRow(start + i, top[i]));
    assert RowsOf(table) == top;
    table
  }

  /** Rows sorted by non-increasing count, cut after the first `k`, leave
      behind no row that counts more than one kept. */
  lemma TopRowsDominate(s: seq<TableRow>, k: nat)
    requires k <= |s|
    requires forall i, j :: 0 <= i < j < |s| ==> s[i].total >= s[j].total
    ensures multiset(s[..k]) <= multiset(s)
    ensures multiset(s) - multiset(s[..k]) == multiset(s[k..])
    ensures forall r :: r in multiset(s[k..]) ==> forall i :: 0 <= i < k ==> r.total <= s[i].total
  {
    assert s == s[..k] + s[k..];
    assert multiset(s) == multiset(s[..k]) + multiset(s[k..]);
    forall r | r in multiset(s[k..])
      ensures forall i :: 0 <= i < k ==> r.total <= s[i].total
    {
      var j :| 0 <= j < |s[k..]| && s[k..][j] == r;
      assert s[k + j] == r;
    }
  }

  /** `table` ranks `rows`: it holds `min(30, n)` of them, numbered 1, 2, ...,
      in non-increasing order of count, each row at most as often as in
      `rows` and all of them when there are no more than 30; no row left
      out counts more than a row kept. */
  predicate Ranks(table: seq<RankedRow>, rows: seq<TableRow>)
  {
    && |table| == Min(TopRows, |rows|)
    && (forall i :: 0 <= i < |table| ==> table[i].position == i + 1)
    && (forall i, j :: 0 <= i < j < |table| ==> table[i].row.total >= table[j].row.total)
    && (forall i :: 0 <= i < |table| ==> table[i].row in rows)
    && multiset(RowsOf(table)) <= multiset(rows)
    && (|rows| <= TopRows ==> multiset(RowsOf(table)) == multiset(rows))
    && forall r :: r in multiset(rows) - multiset(RowsOf(table)) ==>
         forall i :: 0 <= i < |table| ==> r.total <= table[i].row.total
  }

  /** The first `min(30, n)` rows of a sorted rearrangement of `rows`,
      numbered from 1, rank `rows`: in order, drawn from `rows`, all of them
      when there are at most 30, and outcounted by no row left out. */
  lemma SortedPrefix(rows: seq<TableRow>, s: seq<TableRow>)
    requires multiset(s) == multiset(rows)
    requires forall i, j :: 0 <= i < j < |s| ==> s[i].total >= s[j].total
    ensures |rows| == |s|
    ensures Ranks(Numbered(s[..Min(TopRows, |s|)], 1), rows)
  {
    assert |rows| == |multiset(rows)| == |s|;
    var k := Min(TopRows, |s|);
    var top := s[..k];
    PrefixRows(rows, s, k);
    var table := Numbered(top, 1);
    assert RowsOf(table) == top;
  }

  /** The first `k` rows of a sorted rearrangement of `rows` are drawn from
      `rows`, are all of them when `k` is the length, and no other row of
      `rows` outcounts them. */
  lemma PrefixRows(rows: seq<TableRow>, s: seq<TableRow>, k: nat)
    requires multiset(s) == multiset(rows) && k <= |s|
    requires forall i, j :: 0 <= i < j < |s| ==> s[i].total >= s[j].total
    ensures multiset(s[..k]) <= multiset(rows)
    ensures k == |s| ==> multiset(s[..k]) == multiset(rows)
    ensures forall i :: 0 <= i < k ==> s[i] in rows
    ensures forall r :: r in multiset(rows) - multiset(s[..k]) ==>
              forall i :: 0 <= i < k ==> r.total <= s[i].total
  {
    TopRowsDominate(s, k);
    if k == |s| {
      assert s[..k] == s;
    }
    forall i | 0 <= i < k
      ensures s[i] in rows
    {
      assert s[i] in multiset(s);
    }
  }

  /** The sort, the reset, the shift and the cut: the table holds the
      `min(30, n)` rows of highest count, in non-increasing order of count,
      numbered 1, 2, ...; no row left out counts more than a row kept. */
  method RankTable(rows: seq<TableRow>) returns (table: seq<RankedRow>)
    ensures Ranks(table, rows)
  {
    var f := new Frame(rows);
    f.SortByTotalDesc();
    f.ResetIndex();
    f.ShiftIndex();
    var top := f.Head(TopRows);
    SortedPrefix(rows, f.rows);
    assert top == f.rows[..Min(TopRows, |f.rows|)] && f.index.start == 1;
    table := Numbered(top, f.index.start);
  }

  /** `crear_tabla_absolutos(año)`: the 30 municipalities with most confirmed
      cases nationwide, named `municipio, entidad`. */
  method NationalTable(cases: seq<CaseRecord>, pop: seq<PopulationRow>) returns (table: seq<RankedRow>)
    ensures Ranks(table, NationalRows(cases, pop))
  {
    table := RankTable(NationalRows(cases, pop));
  }

  /** Only confirmed cases reach the national table, each counted under its
      CVE, and before the cut the counts add up to the confirmed cases. */
  lemma NationalRowsCount(cases: seq<CaseRecord>, pop: seq<PopulationRow>)
    ensures var rows := NationalRows(cases, pop);
      RowTotals(rows) == |ConfirmedCases(cases)|
      && forall i :: 0 <= i < |rows| ==>
           rows[i].total == Occurrences(CaseKeys(ConfirmedCases(cases)), rows[i].cve)
  {
    CountAndJoinTotal(ConfirmedCases(cases), pop, MunicipioEntidad);
    CountAndJoinKeys(ConfirmedCases(cases), pop, MunicipioEntidad);
  }

  /** A national row's name is the renamed entity's municipality and entity. */
  lemma NationalNames(cases: seq<CaseRecord>, pop: seq<PopulationRow>, i: nat)
    requires i < |NationalRows(cases, pop)|
    ensures var row := NationalRows(cases, pop)[i];
      var k := FindIndex(pop, row.cve);
      row.poblacion.Some? ==>
        k < |pop| && row.nombre == Some(pop[k].municipality + ", " + CanonicalEntity(pop[k].entity))
  {
    var row := NationalRows(cases, pop)[i];
    var canon := CanonicalPopulation(pop);
    assert Cves(canon) == Cves(pop);
    assert FindIndex(canon, row.cve) == FindIndex(pop, row.cve);
  }
}
