/** Incidence by age group and sex (`tsas_edad_sexo`): confirmed cases are
    counted per quinquennial band and sex, the counts are joined on the band
    label with the female and male population series, and a crude rate is
    computed for each sex. */
module AgeSex {
  import opened Common
  import opened Records

  /** EDADES: eighteen closed age intervals, the last one open-ended in its label. */
  const Edades: seq<(nat, nat)> := [
    (0, 4), (5, 9), (10, 14), (15, 19), (20, 24), (25, 29), (30, 34), (35, 39), (40, 44),
    (45, 49), (50, 54), (55, 59), (60, 64), (65, 69), (70, 74), (75, 79), (80, 84), (85, 120)
  ]

  const Female := 1
  const Male := 2

  /** `Series.between(a, b)`: both ends included. */
  predicate InBand(age: int, band: (nat, nat)) { band.0 <= age <= band.1 }

  /** The index label of a band: `f"{a}-{b}"`, or `"≥85"` for the band starting at 85. */
  function BandLabel(band: (nat, nat)): string
  {
    if band.0 < 85 then NatToString(band.0) + "-" + NatToString(band.1) else "≥85"
  }

  /** The length of the leading run of digits. */
  function DigitRun(s: string): (n: nat)
    ensures n <= |s|
  {
    if s == [] || !IsDigit(s[0]) then 0 else 1 + DigitRun(s[1..])
  }

  lemma {:induction false} DigitRunBeforeDash(x: string, y: string)
    requires AllDigits(x)
    ensures DigitRun(x + "-" + y) == |x|
  {
    if x != [] {
      assert (x + "-" + y)[1..] == x[1..] + "-" + y;
      DigitRunBeforeDash(x[1..], y);
    }
  }

  /** Text of digits before a dash is recovered from the joined string. */
  lemma DashSplit(x: string, y: string, x2: string, y2: string)
    requires AllDigits(x) && AllDigits(x2)
    requires x + "-" + y == x2 + "-" + y2
    ensures x == x2
  {
    var s := x + "-" + y;
    DigitRunBeforeDash(x, y);
    DigitRunBeforeDash(x2, y2);
    assert x == s[..|x|] && x2 == (x2 + "-" + y2)[..|x2|];
  }

  /** Different bands carry different labels, so joining a population series
      on the label gives each band its own cell; only the last label is the
      open-ended `≥85`. */
  lemma BandLabelsDistinct(i: nat, j: nat)
    requires i < j < 18
    ensures BandLabel(Edades[i]) != BandLabel(Edades[j])
    ensures BandLabel(Edades[j]) == "≥85" <==> j == 17
  {
    var a, b := Edades[i], Edades[j];
    assert a.0 < 85 && a.0 == 5 * i && b.0 == 5 * j;
    var la := NatToString(a.0);
    assert IsDigit(la[0]);
    if j < 17 {
      if BandLabel(a) == BandLabel(b) {
        DashSplit(la, NatToString(a.1), NatToString(b.0), NatToString(b.1));
        NatToStringInjective(a.0, b.0);
      }
    } else {
      assert BandLabel(a)[0] == la[0];
    }
  }

  /** The eighteen bands tile the ages 0..120: each starts right after the
      previous one ends, none is empty, and the first starts at 0. */
  lemma EdadesContiguous()
    ensures |Edades| == 18 && Edades[0].0 == 0 && Edades[17].1 == 120
    ensures forall i :: 0 <= i < 18 ==> Edades[i].0 <= Edades[i].1
    ensures forall i :: 0 <= i < 17 ==> Edades[i + 1].0 == Edades[i].1 + 1
    ensures forall i :: 0 <= i < 18 ==> (Edades[i].0 < 85 <==> i < 17)
  {
  }

  /** The band index of an age, if any: the reference the partition is checked against. */
  function BandIndex(age: int): (k: Option<nat>)
    ensures k.Some? <==> 0 <= age <= 120
    ensures k.Some? ==> k.value < 18 && InBand(age, Edades[k.value])
    ensures k.Some? ==> forall j :: 0 <= j < 18 && InBand(age, Edades[j]) ==> j == k.value
    ensures k.None? ==> forall j :: 0 <= j < 18 ==> !InBand(age, Edades[j])
  {
    if 0 <= age <= 84 then Some(age / 5) else if 85 <= age <= 120 then Some(17) else None
  }

  /** Confirmed rows of the given sex in the band: `len(temp_mujeres)` or `len(temp_hombres)`. */
  function CountBand(df: seq<CaseRecord>, sex: int, band: (nat, nat)): nat
  {
    if df == [] then 0
    else
      var r := df[|df| - 1];
      CountBand(df[..|df| - 1], sex, band) + (if r.sex == sex && InBand(r.age, band) then 1 else 0)
  }

  /** Rows of the given sex aged 0..120. */
  function CountSexInRange(df: seq<CaseRecord>, sex: int): nat
  {
    if df == [] then 0
    else
      var r := df[|df| - 1];
      CountSexInRange(df[..|df| - 1], sex) + (if r.sex == sex && 0 <= r.age <= 120 then 1 else 0)
  }

  /** The first `n` bands' counts added up. */
  function BandsTotal(df: seq<CaseRecord>, sex: int, n: nat): nat
    requires n <= 18
  {
    if n == 0 then 0 else BandsTotal(df, sex, n - 1) + CountBand(df, sex, Edades[n - 1])
  }

  /** How many of the first `n` bands hold row `r` for the given sex. */
  function BandHits(r: CaseRecord, sex: int, n: nat): nat
    requires n <= 18
  {
    if n == 0 then 0
    else BandHits(r, sex, n - 1) + (if r.sex == sex && InBand(r.age, Edades[n - 1]) then 1 else 0)
  }

  lemma {:induction false} BandHitsValue(r: CaseRecord, sex: int, n: nat)
    requires 1 <= n <= 18
    ensures BandHits(r, sex, n) == if r.sex == sex && 0 <= r.age <= Edades[n - 1].1 then 1 else 0
  {
    EdadesContiguous();
    if n > 1 {
      BandHitsValue(r, sex, n - 1);
    }
  }

  lemma {:induction false} BandsTotalStep(df: seq<CaseRecord>, r: CaseRecord, sex: int, n: nat)
    requires n <= 18
    ensures BandsTotal(df + [r], sex, n) == BandsTotal(df, sex, n) + BandHits(r, sex, n)
  {
    assert (df + [r])[..|df|] == df;
    if n > 0 {
      BandsTotalStep(df, r, sex, n - 1);
    }
  }

  lemma {:induction false} BandsTotalEmpty(df: seq<CaseRecord>, sex: int, n: nat)
    requires df == [] && n <= 18
    ensures BandsTotal(df, sex, n) == 0
  {
    if n > 0 {
      BandsTotalEmpty(df, sex, n - 1);
    }
  }

  /** The bands are a partition of 0..120: over all eighteen bands, each row
      of the sex aged 0..120 is counted exactly once and any other row never. */
  lemma {:induction false} BandsPartition(df: seq<CaseRecord>, sex: int)
    ensures BandsTotal(df, sex, 18) == CountSexInRange(df, sex)
  {
    if df == [] {
      BandsTotalEmpty(df, sex, 18);
    } else {
      var init, r := df[..|df| - 1], df[|df| - 1];
      assert df == init + [r];
      BandsPartition(init, sex);
      BandsTotalStep(init, r, sex, 18);
      BandHitsValue(r, sex, 18);
    }
  }

  /** One element of `data`: a band label (`edad`) with its female and male counts. */
  datatype BandCount = BandCount(edad: string, mujeres: nat, hombres: nat)

  /** One row of `final`, after the population columns and rates are added;
      `None` is the NaN a label missing from a population series leaves. */
  datatype BandRow = BandRow(
    edad: string,
    mujeres: nat,
    hombres: nat,
    poblacionHombres: Option<Population>,
    tasaHombres: Option<real>,
    poblacionMujeres: Option<Population>,
    tasaMujeres: Option<real>)

  /** The crude rate of a count against a population cell that may be missing. */
  function RateOrMissing(count: nat, population: Option<Population>): (r: Option<real>)
    ensures r.Some? <==> population.Some?
    ensures r.Some? ==> r.value == Rate(count, population.value)
  {
    if population.Some? then Some(Rate(count, population.value)) else None
  }

  /** `final["poblacion_x"] = x_pop`: index alignment on the band label. */
  function Lookup(pop: map<string, Population>, edad: string): (p: Option<Population>)
    ensures p.Some? <==> edad in pop
    ensures p.Some? ==> p.value == pop[edad]
  {
    if edad in pop then Some(pop[edad]) else None
  }

  /** The population and rate columns for the counted bands. */
  function AddRates(data: seq<BandCount>, hombresPop: map<string, Population>, mujeresPop: map<string, Population>): (final: seq<BandRow>)
    ensures |final| == |data|
    ensures forall i :: 0 <= i < |data| ==>
      var d, f := data[i], final[i];
      && f.edad == d.edad && f.mujeres == d.mujeres && f.hombres == d.hombres
      && f.poblacionHombres == Lookup(hombresPop, d.edad)
      && f.tasaHombres == RateOrMissing(d.hombres, f.poblacionHombres)
      && f.poblacionMujeres == Lookup(mujeresPop, d.edad)
      && f.tasaMujeres == RateOrMissing(d.mujeres, f.poblacionMujeres)
  {
    seq(|data|, i requires 0 <= i < |data| =>
      var d := data[i];
      var ph := Lookup(hombresPop, d.edad);
      var pm := Lookup(mujeresPop, d.edad);
      BandRow(d.edad, d.mujeres, d.hombres, ph, RateOrMissing(d.hombres, ph), pm, RateOrMissing(d.mujeres, pm)))
  }

  function MujeresColumn(rows: seq<BandRow>): (c: seq<nat>)
    ensures |c| == |rows| && forall i :: 0 <= i < |rows| ==> c[i] == rows[i].mujeres
  {
    seq(|rows|, i requires 0 <= i < |rows| => rows[i].mujeres)
  }

  function HombresColumn(rows: seq<BandRow>): (c: seq<nat>)
    ensures |c| == |rows| && forall i :: 0 <= i < |rows| ==> c[i] == rows[i].hombres
  {
    seq(|rows|, i requires 0 <= i < |rows| => rows[i].hombres)
  }

  /** A column holding the first `|c|` band counts adds up to their total. */
  lemma {:induction false} ColumnIsBandsTotal(c: seq<nat>, df: seq<CaseRecord>, sex: int)
    requires |c| <= 18
    requires forall i :: 0 <= i < |c| ==> c[i] == CountBand(df, sex, Edades[i])
    ensures Sum(c) == BandsTotal(df, sex, |c|)
  {
    if c != [] {
      var init := c[..|c| - 1];
      ColumnIsBandsTotal(init, df, sex);
    }
  }

  /** `tsas_edad_sexo` up to the plot: one row per band, in band order, with
      the label, the confirmed female and male counts of the band, each
      sex's population and crude rate; the female and male columns add up
      to the confirmed cases of that sex aged 0..120. */
  method TasasEdadSexo(cases: seq<CaseRecord>, hombresPop: map<string, Population>, mujeresPop: map<string, Population>)
    returns (final: seq<BandRow>)
    ensures |final| == |Edades|
    ensures forall i :: 0 <= i < |Edades| ==>
      var f, df := final[i], ConfirmedCases(cases);
      && f.edad == BandLabel(Edades[i])
      && f.mujeres == CountBand(df, Female, Edades[i])
      && f.hombres == CountBand(df, Male, Edades[i])
      && f.poblacionHombres == Lookup(hombresPop, f.edad)
      && f.tasaHombres == RateOrMissing(f.hombres, f.poblacionHombres)
      && f.poblacionMujeres == Lookup(mujeresPop, f.edad)
      && f.tasaMujeres == RateOrMissing(f.mujeres, f.poblacionMujeres)
    ensures Sum(MujeresColumn(final)) == CountSexInRange(ConfirmedCases(cases), Female)
    ensures Sum(HombresColumn(final)) == CountSexInRange(ConfirmedCases(cases), Male)
  {
    var df := ConfirmedCases(cases);
    var data := CountBands(df);
    final := AddRates(data, hombresPop, mujeresPop);
    ColumnTotals(final, df);
  }

  /** The loop over EDADES: one labelled female and male count per band. */
  method CountBands(df: seq<CaseRecord>) returns (data: seq<BandCount>)
    ensures |data| == |Edades|
    ensures forall j :: 0 <= j < |Edades| ==>
      data[j] == BandCount(BandLabel(Edades[j]), CountBand(df, Female, Edades[j]), CountBand(df, Male, Edades[j]))
  {
    data := [];
    var i := 0;
    while i < |Edades|
      invariant 0 <= i <= |Edades| && |data| == i
      invariant forall j :: 0 <= j < i ==>
        data[j] == BandCount(BandLabel(Edades[j]), CountBand(df, Female, Edades[j]), CountBand(df, Male, Edades[j]))
    {
      var band := Edades[i];
      var tempMujeres := CountBand(df, Female, band);
      var tempHombres := CountBand(df, Male, band);
      data := data + [BandCount(BandLabel(band), tempMujeres, tempHombres)];
      i := i + 1;
    }
  }

  /** Columns holding the eighteen band counts add up to the rows of each sex aged 0..120. */
  lemma ColumnTotals(final: seq<BandRow>, df: seq<CaseRecord>)
    requires |final| == 18
    requires forall i :: 0 <= i < 18 ==>
      final[i].mujeres == CountBand(df, Female, Edades[i]) && final[i].hombres == CountBand(df, Male, Edades[i])
    ensures Sum(MujeresColumn(final)) == CountSexInRange(df, Female)
    ensures Sum(HombresColumn(final)) == CountSexInRange(df, Male)
  {
    ColumnIsBandsTotal(MujeresColumn(final), df, Female);
    ColumnIsBandsTotal(HombresColumn(final), df, Male);
    BandsPartition(df, Female);
    BandsPartition(df, Male);
  }
}
