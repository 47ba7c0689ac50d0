/** The weekly trend (`tendencia`): rows with a known diagnosis date are
    counted per (date, diagnosis) in a pivot table, the pivot is resampled
    into Monday-anchored weeks, and the confirmed (1) and discarded (3)
    columns become the two bar series, with one tick label per week. */
module Weekly {
  import opened Common
  import opened Records
  import opened Calendar

  predicate HasDate(r: CaseRecord) { r.diagnosisDate.Day? }

  /** `df[df["FECHA_DIAGNOSTICO"] != "9999-99-99"]`. */
  function Dated(cases: seq<CaseRecord>): (d: seq<CaseRecord>)
    ensures forall i :: 0 <= i < |d| ==> HasDate(d[i]) && d[i] in cases
    ensures forall i :: 0 <= i < |cases| && HasDate(cases[i]) ==> cases[i] in d
    ensures forall x :: multiset(d)[x] == if HasDate(x) then multiset(cases)[x] else 0
  {
    Filter(cases, HasDate)
  }

  /** The diagnosis days of the dated rows, in row order. */
  function DayNumbers(s: seq<CaseRecord>): (days: seq<int>)
    ensures forall i :: 0 <= i < |s| && HasDate(s[i]) ==> s[i].diagnosisDate.day in days
    ensures |days| == 0 ==> forall i :: 0 <= i < |s| ==> !HasDate(s[i])
  {
    if s == [] then []
    else
      var init := s[..|s| - 1];
      var r := s[|s| - 1];
      assert forall i :: 0 <= i < |init| ==> init[i] == s[i];
      if HasDate(r) then DayNumbers(init) + [r.diagnosisDate.day] else DayNumbers(init)
  }

  /** Every listed day is the diagnosis day of some dated row. */
  lemma {:induction false} DayNumbersFromRows(s: seq<CaseRecord>, d: int)
    requires d in DayNumbers(s)
    ensures exists i :: 0 <= i < |s| && HasDate(s[i]) && s[i].diagnosisDate.day == d
  {
    var init := s[..|s| - 1];
    var r := s[|s| - 1];
    if HasDate(r) && d == r.diagnosisDate.day {
      assert s[|s| - 1] == r;
    } else {
      DayNumbersFromRows(init, d);
      var i :| 0 <= i < |init| && HasDate(init[i]) && init[i].diagnosisDate.day == d;
      assert s[i] == init[i];
    }
  }

  function SeqMin(s: seq<int>): (m: int)
    requires |s| > 0
    ensures m in s && forall i :: 0 <= i < |s| ==> m <= s[i]
  {
    if |s| == 1 then s[0]
    else
      var m := SeqMin(s[..|s| - 1]);
      assert forall i :: 0 <= i < |s| - 1 ==> s[..|s| - 1][i] == s[i];
      if s[|s| - 1] < m then s[|s| - 1] else m
  }

  function SeqMax(s: seq<int>): (m: int)
    requires |s| > 0
    ensures m in s && forall i :: 0 <= i < |s| ==> s[i] <= m
  {
    if |s| == 1 then s[0]
    else
      var m := SeqMax(s[..|s| - 1]);
      assert forall i :: 0 <= i < |s| - 1 ==> s[..|s| - 1][i] == s[i];
      if s[|s| - 1] > m then s[|s| - 1] else m
  }

  /** The pivot cell at (`day`, `code`): rows diagnosed that day with that
      code (`aggfunc="count"`, absent cells filled with 0). */
  function CountOn(s: seq<CaseRecord>, day: int, code: int): nat
  {
    if s == [] then 0
    else
      var r := s[|s| - 1];
      CountOn(s[..|s| - 1], day, code) + (if r.diagnosisDate == Day(day) && r.diagnosis == code then 1 else 0)
  }

  /** The resampled cell of the week starting on `monday`: the pivot cells of
      its first `n` days added up (`n == 7` for a whole week). */
  function WeekSum(s: seq<CaseRecord>, monday: int, code: int, n: nat): nat
  {
    if n == 0 then 0 else WeekSum(s, monday, code, n - 1) + CountOn(s, monday + n - 1, code)
  }

  /** Rows with code `code` whose week (Monday on or before the date) starts on `monday`. */
  function CountInWeek(s: seq<CaseRecord>, monday: int, code: int): nat
  {
    if s == [] then 0
    else
      var r := s[|s| - 1];
      CountInWeek(s[..|s| - 1], monday, code)
        + (if HasDate(r) && WeekStart(r.diagnosisDate.day) == monday && r.diagnosis == code then 1 else 0)
  }

  /** Rows with code `code`. */
  function CountCode(s: seq<CaseRecord>, code: int): nat
  {
    if s == [] then 0
    else CountCode(s[..|s| - 1], code) + (if s[|s| - 1].diagnosis == code then 1 else 0)
  }

  /** How many of the first `n` days from `monday` are the diagnosis day of `r` with code `code`. */
  function DayHits(r: CaseRecord, monday: int, code: int, n: nat): nat
  {
    if n == 0 then 0
    else DayHits(r, monday, code, n - 1) + (if r.diagnosisDate == Day(monday + n - 1) && r.diagnosis == code then 1 else 0)
  }

  lemma {:induction false} DayHitsValue(r: CaseRecord, monday: int, code: int, n: nat)
    ensures DayHits(r, monday, code, n) ==
      if HasDate(r) && monday <= r.diagnosisDate.day < monday + n && r.diagnosis == code then 1 else 0
  {
    if n > 0 {
      DayHitsValue(r, monday, code, n - 1);
    }
  }

  lemma {:induction false} WeekSumStep(s: seq<CaseRecord>, r: CaseRecord, monday: int, code: int, n: nat)
    ensures WeekSum(s + [r], monday, code, n) == WeekSum(s, monday, code, n) + DayHits(r, monday, code, n)
  {
    assert (s + [r])[..|s|] == s;
    if n > 0 {
      WeekSumStep(s, r, monday, code, n - 1);
    }
  }

  /** Resampling the (date, diagnosis) pivot into `W-MON` bins, closed and
      labelled on the left, counts each row in the week of the Monday on or
      before its date. */
  lemma {:induction false} ResampleCountsWeek(s: seq<CaseRecord>, monday: int, code: int)
    requires IsMonday(monday)
    ensures WeekSum(s, monday, code, 7) == CountInWeek(s, monday, code)
  {
    if s == [] {
      ZeroWeekSum(s, monday, code, 7);
    } else {
      var init, r := s[..|s| - 1], s[|s| - 1];
      assert s == init + [r];
      ResampleCountsWeek(init, monday, code);
      WeekSumStep(init, r, monday, code, 7);
      DayHitsValue(r, monday, code, 7);
      if HasDate(r) {
        var d := r.diagnosisDate.day;
        if monday <= d < monday + 7 {
          WeekStartUnique(d, monday);
        }
      }
    }
  }

  lemma {:induction false} ZeroWeekSum(s: seq<CaseRecord>, monday: int, code: int, n: nat)
    requires s == []
    ensures WeekSum(s, monday, code, n) == 0
  {
    if n > 0 {
      ZeroWeekSum(s, monday, code, n - 1);
    }
  }

  /** The index of the resampled frame: the Mondays of `n` consecutive weeks from week `k0`. */
  function Weeks(k0: int, n: nat): (w: seq<int>)
    ensures |w| == n
    ensures forall i :: 0 <= i < n ==> w[i] == MondayOf(k0 + i)
  {
    if n == 0 then [] else Weeks(k0, n - 1) + [MondayOf(k0 + n - 1)]
  }

  /** The column `df[code]` of the resampled frame. */
  function WeekColumn(s: seq<CaseRecord>, weeks: seq<int>, code: int): (c: seq<nat>)
    ensures |c| == |weeks|
  {
    if weeks == [] then []
    else WeekColumn(s, weeks[..|weeks| - 1], code) + [WeekSum(s, weeks[|weeks| - 1], code, 7)]
  }

  function TickLabels(weeks: seq<int>): (t: seq<string>)
    ensures |t| == |weeks| && forall i :: 0 <= i < |weeks| ==> t[i] == WeekTickLabel(weeks[i])
  {
    seq(|weeks|, i requires 0 <= i < |weeks| => WeekTickLabel(weeks[i]))
  }

  /** The pivot table's columns: the diagnosis codes of the dated rows
      (`df[code]` finds a column exactly when some dated row has the code,
      see `CountCodeColumns`). */
  function Columns(dated: seq<CaseRecord>): set<int>
  {
    set i | 0 <= i < |dated| :: dated[i].diagnosis
  }

  /** The data the weekly bar chart draws. */
  datatype Trend = Trend(
    weeks: seq<int>,           // the frame's index: Mondays, in order
    confirmed: seq<nat>,       // df[1]
    discarded: seq<nat>,       // df[3]
    ticks: seq<string>,        // the x tick labels
    confirmedTotal: nat,       // df[1].sum(), shown in the legend
    discardedTotal: nat)       // df[3].sum()

  /** `df[1]` or `df[3]` raise a KeyError when the pivot has no such column. */
  datatype TrendError = MissingColumn(code: int)

  function Tendencia(cases: seq<CaseRecord>): Result<Trend, TrendError>
  {
    var dated := Dated(cases);
    if CountCode(dated, ConfirmedCode) == 0 then Err(MissingColumn(ConfirmedCode))
    else if CountCode(dated, DiscardedCode) == 0 then Err(MissingColumn(DiscardedCode))
    else Ok(BuildTrend(dated))
  }

  /** The week of the earliest date. */
  function FirstWeek(dated: seq<CaseRecord>): int
    requires |DayNumbers(dated)| > 0
  {
    WeekNumber(SeqMin(DayNumbers(dated)))
  }

  /** The week of the latest date. */
  function LastWeek(dated: seq<CaseRecord>): int
    requires |DayNumbers(dated)| > 0
  {
    WeekNumber(SeqMax(DayNumbers(dated)))
  }

  /** The index of the resampled frame of the dated rows: every week from the
      first to the last, both included. */
  function TrendWeeks(dated: seq<CaseRecord>): seq<int>
    requires |DayNumbers(dated)| > 0
  {
    var n := LastWeek(dated) - FirstWeek(dated) + 1;
    Weeks(FirstWeek(dated), if n < 0 then 0 else n)
  }

  function BuildTrend(dated: seq<CaseRecord>): Trend
    requires |DayNumbers(dated)| > 0
  {
    var weeks := TrendWeeks(dated);
    var confirmed := WeekColumn(dated, weeks, ConfirmedCode);
    var discarded := WeekColumn(dated, weeks, DiscardedCode);
    Trend(weeks, confirmed, discarded, TickLabels(weeks), Sum(confirmed), Sum(discarded))
  }

  /** How many of the `n` weeks from `k0` hold row `r` with code `code`. */
  function WeekHits(r: CaseRecord, k0: int, code: int, n: nat): nat
  {
    if n == 0 then 0
    else
      var hit := HasDate(r) && WeekStart(r.diagnosisDate.day) == MondayOf(k0 + n - 1) && r.diagnosis == code;
      WeekHits(r, k0, code, n - 1) + (if hit then 1 else 0)
  }

  lemma {:induction false} WeekHitsValue(r: CaseRecord, k0: int, code: int, n: nat)
    ensures WeekHits(r, k0, code, n) ==
      if HasDate(r) && k0 <= WeekNumber(r.diagnosisDate.day) < k0 + n && r.diagnosis == code then 1 else 0
  {
    if n > 0 {
      WeekHitsValue(r, k0, code, n - 1);
      if HasDate(r) {
        WeekNumberOf(r.diagnosisDate.day, k0 + n - 1);
      }
    }
  }

  /** The sum over `n` consecutive weeks from `k0` of the per-week counts. */
  function WeeksTotal(s: seq<CaseRecord>, k0: int, code: int, n: nat): nat
  {
    if n == 0 then 0 else WeeksTotal(s, k0, code, n - 1) + CountInWeek(s, MondayOf(k0 + n - 1), code)
  }

  lemma {:induction false} WeeksTotalStep(s: seq<CaseRecord>, r: CaseRecord, k0: int, code: int, n: nat)
    ensures WeeksTotal(s + [r], k0, code, n) == WeeksTotal(s, k0, code, n) + WeekHits(r, k0, code, n)
  {
    assert (s + [r])[..|s|] == s;
    if n > 0 {
      WeeksTotalStep(s, r, k0, code, n - 1);
    }
  }

  lemma {:induction false} ZeroWeeksTotal(s: seq<CaseRecord>, k0: int, code: int, n: nat)
    requires s == []
    ensures WeeksTotal(s, k0, code, n) == 0
  {
    if n > 0 {
      ZeroWeeksTotal(s, k0, code, n - 1);
    }
  }

  /** When every row is dated inside the `n` weeks from `k0`, the weeks
      together count every row with the code exactly once. */
  lemma {:induction false} WeeksPartition(s: seq<CaseRecord>, k0: int, code: int, n: nat)
    requires forall i :: 0 <= i < |s| ==>
      HasDate(s[i]) && k0 <= WeekNumber(s[i].diagnosisDate.day) < k0 + n
    ensures WeeksTotal(s, k0, code, n) == CountCode(s, code)
  {
    if s == [] {
      ZeroWeeksTotal(s, k0, code, n);
    } else {
      var init, r := s[..|s| - 1], s[|s| - 1];
      assert s == init + [r];
      WeeksPartition(init, k0, code, n);
      WeeksTotalStep(init, r, k0, code, n);
      WeekHitsValue(r, k0, code, n);
    }
  }

  lemma {:induction false} ColumnTotal(s: seq<CaseRecord>, k0: int, code: int, n: nat)
    ensures Sum(WeekColumn(s, Weeks(k0, n), code)) == WeeksTotal(s, k0, code, n)
    ensures forall i :: 0 <= i < n ==> WeekColumn(s, Weeks(k0, n), code)[i] == CountInWeek(s, MondayOf(k0 + i), code)
  {
    if n > 0 {
      var w := Weeks(k0, n);
      assert w[..n - 1] == Weeks(k0, n - 1);
      ColumnTotal(s, k0, code, n - 1);
      ResampleCountsWeek(s, MondayOf(k0 + n - 1), code);
    }
  }

  /** The bounds of the resampled index: the week of every dated row lies
      between the first week and the last. */
  lemma TrendSpan(dated: seq<CaseRecord>)
    requires |dated| > 0 && forall i :: 0 <= i < |dated| ==> HasDate(dated[i])
    ensures |DayNumbers(dated)| > 0
    ensures FirstWeek(dated) <= LastWeek(dated)
    ensures forall i :: 0 <= i < |dated| ==>
      FirstWeek(dated) <= WeekNumber(dated[i].diagnosisDate.day) <= LastWeek(dated)
  {
    assert HasDate(dated[0]);
    var days := DayNumbers(dated);
    WeekNumberMonotone(SeqMin(days), SeqMax(days));
    forall i | 0 <= i < |dated|
      ensures FirstWeek(dated) <= WeekNumber(dated[i].diagnosisDate.day) <= LastWeek(dated)
    {
      var d := dated[i].diagnosisDate.day;
      WeekNumberMonotone(SeqMin(days), d);
      WeekNumberMonotone(d, SeqMax(days));
    }
  }

  /** The two series fail exactly when a code is absent from the dated rows:
      the confirmed column is looked up first. */
  lemma TendenciaErrors(cases: seq<CaseRecord>)
    ensures Tendencia(cases) == Err(MissingColumn(1)) <==> 1 !in Columns(Dated(cases))
    ensures Tendencia(cases) == Err(MissingColumn(3)) <==>
            1 in Columns(Dated(cases)) && 3 !in Columns(Dated(cases))
    ensures Tendencia(cases).Ok? <==> 1 in Columns(Dated(cases)) && 3 in Columns(Dated(cases))
  {
    var dated := Dated(cases);
    CountCodeColumns(dated, 1);
    CountCodeColumns(dated, 3);
  }

  lemma {:induction false} CountCodeColumns(s: seq<CaseRecord>, code: int)
    ensures CountCode(s, code) > 0 <==> code in Columns(s)
  {
    if s != [] {
      var init := s[..|s| - 1];
      CountCodeColumns(init, code);
      assert forall i :: 0 <= i < |init| ==> init[i] == s[i];
      assert Columns(s) == Columns(init) + {s[|s| - 1].diagnosis};
    }
  }

  /** The index of the chart: Mondays, none skipped, from the week of the
      earliest date to the week of the latest, so that every dated row falls
      in one of them. */
  lemma TrendWeeksShape(dated: seq<CaseRecord>)
    requires |dated| > 0 && forall i :: 0 <= i < |dated| ==> HasDate(dated[i])
    ensures |DayNumbers(dated)| > 0
    ensures var w := TrendWeeks(dated);
      && |w| > 0
      && w[0] == WeekStart(SeqMin(DayNumbers(dated)))
      && w[|w| - 1] == WeekStart(SeqMax(DayNumbers(dated)))
      && (forall i :: 0 <= i < |w| ==> IsMonday(w[i]))
      && (forall i :: 0 <= i < |w| - 1 ==> w[i + 1] == w[i] + 7)
      && (forall i :: 0 <= i < |dated| ==> WeekStart(dated[i].diagnosisDate.day) in w)
  {
    TrendSpan(dated);
    var k0, k1 := FirstWeek(dated), LastWeek(dated);
    assert TrendWeeks(dated) == Weeks(k0, k1 - k0 + 1);
    WeeksSpan(k0, k1);
    WeeksHoldRows(dated, k0, k1 - k0 + 1);
  }

  /** The weeks from `k0` to `k1` are consecutive Mondays from the Monday of
      `k0` to the Monday of `k1`. */
  lemma WeeksSpan(k0: int, k1: int)
    requires k0 <= k1
    ensures var w := Weeks(k0, k1 - k0 + 1);
      && |w| > 0 && w[0] == MondayOf(k0) && w[|w| - 1] == MondayOf(k1)
      && (forall i :: 0 <= i < |w| ==> IsMonday(w[i]))
      && (forall i :: 0 <= i < |w| - 1 ==> w[i + 1] == w[i] + 7)
  {
  }

  /** A row whose week is one of the `n` from `k0` finds its Monday in the index. */
  lemma WeeksHoldRows(s: seq<CaseRecord>, k0: int, n: nat)
    requires forall i :: 0 <= i < |s| ==>
      HasDate(s[i]) && k0 <= WeekNumber(s[i].diagnosisDate.day) < k0 + n
    ensures forall i :: 0 <= i < |s| ==> HasDate(s[i]) && WeekStart(s[i].diagnosisDate.day) in Weeks(k0, n)
  {
    var w := Weeks(k0, n);
    forall i | 0 <= i < |s| ensures WeekStart(s[i].diagnosisDate.day) in w {
      var k := WeekNumber(s[i].diagnosisDate.day);
      assert w[k - k0] == WeekStart(s[i].diagnosisDate.day);
    }
  }

  /** Over weeks that hold every row, each bar of a code counts the rows of
      its week, and the bars add up to the number of rows with that code. */
  lemma ColumnCounts(s: seq<CaseRecord>, k0: int, code: int, n: nat)
    requires forall i :: 0 <= i < |s| ==>
      HasDate(s[i]) && k0 <= WeekNumber(s[i].diagnosisDate.day) < k0 + n
    ensures var w := Weeks(k0, n); var c := WeekColumn(s, w, code);
      && (forall i :: 0 <= i < n ==> c[i] == CountInWeek(s, w[i], code))
      && Sum(c) == CountCode(s, code)
  {
    ColumnTotal(s, k0, code, n);
    WeeksPartition(s, k0, code, n);
  }

  /** Each bar counts the rows of its week and code, and the bars of a code
      add up to the number of rows with that code. */
  lemma TrendCounts(dated: seq<CaseRecord>, code: int)
    requires |dated| > 0 && forall i :: 0 <= i < |dated| ==> HasDate(dated[i])
    ensures |DayNumbers(dated)| > 0
    ensures var w := TrendWeeks(dated); var c := WeekColumn(dated, w, code);
      && (forall i :: 0 <= i < |w| ==> c[i] == CountInWeek(dated, w[i], code))
      && Sum(c) == CountCode(dated, code)
  {
    TrendSpan(dated);
    var k0, k1 := FirstWeek(dated), LastWeek(dated);
    assert TrendWeeks(dated) == Weeks(k0, k1 - k0 + 1);
    ColumnCounts(dated, k0, code, k1 - k0 + 1);
  }

  /** What the weekly chart shows: one bar pair and one tick per Monday of
      the index, each bar counting the rows of its week and code, and legend
      totals that count every dated confirmed and discarded row. */
  lemma TendenciaContents(cases: seq<CaseRecord>)
    requires Tendencia(cases).Ok?
    ensures var t := Tendencia(cases).value; var dated := Dated(cases);
      && |DayNumbers(dated)| > 0 && t.weeks == TrendWeeks(dated)
      && |t.confirmed| == |t.weeks| && |t.discarded| == |t.weeks| && |t.ticks| == |t.weeks|
      && (forall i :: 0 <= i < |t.weeks| ==> t.ticks[i] == WeekTickLabel(t.weeks[i]))
      && (forall i :: 0 <= i < |t.weeks| ==>
            t.confirmed[i] == CountInWeek(dated, t.weeks[i], 1)
            && t.discarded[i] == CountInWeek(dated, t.weeks[i], 3))
      && t.confirmedTotal == CountCode(dated, 1)
      && t.discardedTotal == CountCode(dated, 3)
  {
    var dated := Dated(cases);
    assert CountCode(dated, 1) > 0;
    TrendCounts(dated, 1);
    TrendCounts(dated, 3);
  }

  /** Rows without a diagnosis date never reach the chart. */
  lemma UnknownDatesIgnored(cases: seq<CaseRecord>, r: CaseRecord)
    requires r.diagnosisDate == Unknown
    ensures Tendencia(cases + [r]) == Tendencia(cases)
  {
    assert (cases + [r])[..|cases|] == cases;
    assert Dated(cases + [r]) == Dated(cases);
  }

  /** A line-list row diagnosed on day `day` with diagnosis code `code`. */
  predicate Diagnosed(r: CaseRecord, day: int, code: int)
  {
    r.diagnosisDate == Day(day) && r.diagnosis == code
  }

  /** Two confirmed diagnoses on Monday 2025-01-06 (day 20094) and Thursday
      2025-01-09: the pivot has no discarded column, so `df[3]` fails. */
  lemma TrendScenarioNoDiscarded(a: CaseRecord, b: CaseRecord)
    requires Diagnosed(a, 20094, 1) && Diagnosed(b, 20097, 1)
    ensures Tendencia([a, b]) == Err(MissingColumn(3))
  {
    var two := [a, b];
    DatedRows(two);
    assert two[..1] == [a] && [a][..0] == [];
    assert CountCode([a], 1) == 1 && CountCode([a], 3) == 0;
  }

  /** Rows that all carry a date are kept whole by the date filter. */
  lemma DatedAll(s: seq<CaseRecord>)
    requires forall i :: 0 <= i < |s| ==> HasDate(s[i])
    ensures Dated(s) == s
  {
    FilterAll(s, HasDate);
  }

  /** The same for the two or three rows of the scenarios below. */
  lemma DatedRows(s: seq<CaseRecord>)
    requires |s| == 2 || |s| == 3
    requires HasDate(s[0]) && HasDate(s[1]) && (|s| == 3 ==> HasDate(s[2]))
    ensures Dated(s) == s
  {
    DatedAll(s);
  }

  /** With one discarded row added on the Thursday, the chart has the single
      week of 2025-01-06, with 2 confirmed and 1 discarded. */
  lemma TrendScenarioOneWeek(a: CaseRecord, b: CaseRecord, c: CaseRecord)
    requires Diagnosed(a, 20094, 1) && Diagnosed(b, 20097, 1) && Diagnosed(c, 20097, 3)
    ensures var t := Tendencia([a, b, c]);
      t.Ok? && t.value.weeks == [20094] && t.value.confirmed == [2] && t.value.discarded == [1]
  {
    var three := [a, b, c];
    ScenarioRows(a, b, c);
    TrendCounts(three, 1);
    TrendCounts(three, 3);
    ScenarioWeek(a, b, c);
  }

  lemma ScenarioRows(a: CaseRecord, b: CaseRecord, c: CaseRecord)
    requires Diagnosed(a, 20094, 1) && Diagnosed(b, 20097, 1) && Diagnosed(c, 20097, 3)
    ensures Dated([a, b, c]) == [a, b, c]
    ensures CountCode([a, b, c], 1) == 2 && CountCode([a, b, c], 3) == 1
    ensures |DayNumbers([a, b, c])| > 0 && TrendWeeks([a, b, c]) == [20094]
  {
    var three := [a, b, c];
    DatedRows(three);
    ScenarioCounts(a, b, c);
    ScenarioDays(a, b, c);
    ScenarioSpan(DayNumbers(three));
    SingleWeek(three, 2871);
  }

  /** Rows whose dates all fall in week `k` chart that single week. */
  lemma SingleWeek(dated: seq<CaseRecord>, k: int)
    requires |DayNumbers(dated)| > 0
    requires FirstWeek(dated) == k && LastWeek(dated) == k
    ensures TrendWeeks(dated) == [MondayOf(k)]
  {
    assert TrendWeeks(dated) == Weeks(k, 1);
  }

  lemma ScenarioSpan(days: seq<int>)
    requires days == [20094, 20097, 20097]
    ensures WeekNumber(SeqMin(days)) == 2871 && WeekNumber(SeqMax(days)) == 2871
  {
    assert days[..2] == [20094, 20097] && days[..2][..1] == [20094];
    assert SeqMin(days) == 20094 && SeqMax(days) == 20097;
  }

  lemma ScenarioCounts(a: CaseRecord, b: CaseRecord, c: CaseRecord)
    requires Diagnosed(a, 20094, 1) && Diagnosed(b, 20097, 1) && Diagnosed(c, 20097, 3)
    ensures CountCode([a, b, c], 1) == 2 && CountCode([a, b, c], 3) == 1
  {
    assert [a, b, c][..2] == [a, b] && [a, b][..1] == [a] && [a][..0] == [];
    assert CountCode([a], 1) == 1 && CountCode([a], 3) == 0;
    assert CountCode([a, b], 1) == 2 && CountCode([a, b], 3) == 0;
  }

  lemma ScenarioDays(a: CaseRecord, b: CaseRecord, c: CaseRecord)
    requires Diagnosed(a, 20094, 1) && Diagnosed(b, 20097, 1) && Diagnosed(c, 20097, 3)
    ensures DayNumbers([a, b, c]) == [20094, 20097, 20097]
  {
    assert [a, b, c][..2] == [a, b] && [a, b][..1] == [a] && [a][..0] == [];
    assert DayNumbers([a]) == [20094];
    assert DayNumbers([a, b]) == [20094, 20097];
  }

  lemma ScenarioWeek(a: CaseRecord, b: CaseRecord, c: CaseRecord)
    requires Diagnosed(a, 20094, 1) && Diagnosed(b, 20097, 1) && Diagnosed(c, 20097, 3)
    ensures CountInWeek([a, b, c], 20094, 1) == 2 && CountInWeek([a, b, c], 20094, 3) == 1
  {
    assert [a, b, c][..2] == [a, b] && [a, b][..1] == [a] && [a][..0] == [];
    assert WeekStart(20094) == 20094 && WeekStart(20097) == 20094;
    assert CountInWeek([a], 20094, 1) == 1 && CountInWeek([a], 20094, 3) == 0;
    assert CountInWeek([a, b], 20094, 1) == 2 && CountInWeek([a, b], 20094, 3) == 0;
  }
}
