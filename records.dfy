/** The rows the reports read: one case of the surveillance line list, and
    one municipality of the population table, plus the crude-rate formula
    shared by every view. */
module Records {
  import opened Common

  /** `FECHA_DIAGNOSTICO`: a day number (days after 1970-01-01) or the
      placeholder `9999-99-99` the line list uses for an unknown date. */
  datatype DiagnosisDate = Unknown | Day(day: int)

  /** One row of the case line list.  Codes keep the line list's numbering:
      `diagnosis` 1 confirmed, 3 discarded; `sex` 1 female, 2 male;
      `vaccination` and `complications` 1 yes, 2 no; `death` 1 yes. */
  datatype CaseRecord = CaseRecord(
    entity: string,          // ENTIDAD_RES, read as text
    municipality: string,    // MUNICIPIO_RES, read as text
    diagnosis: int,          // DIAGNOSTICO
    sex: int,                // SEXO
    age: int,                // EDAD_ANOS
    vaccination: int,        // VACUNACION
    complications: int,      // COMPLICACIONES
    death: int,              // DEFUNCION
    diagnosisDate: DiagnosisDate)

  const ConfirmedCode := 1
  const DiscardedCode := 3

  predicate IsConfirmed(r: CaseRecord) { r.diagnosis == ConfirmedCode }

  /** `df[df["DIAGNOSTICO"] == 1]`. */
  function ConfirmedCases(cases: seq<CaseRecord>): (c: seq<CaseRecord>)
    ensures forall i :: 0 <= i < |c| ==> c[i].diagnosis == 1 && c[i] in cases
    ensures forall i :: 0 <= i < |cases| && cases[i].diagnosis == 1 ==> cases[i] in c
    ensures forall x :: multiset(c)[x] == if x.diagnosis == 1 then multiset(cases)[x] else 0
  {
    Filter(cases, IsConfirmed)
  }

  /** Inhabitants of a municipality or age group; the tables hold positive counts. */
  type Population = n: int | n > 0 witness 1

  /** One row of the municipal population table, for the year of the report.
      `entity` is the name as the table spells it, before the renames. */
  datatype PopulationRow = PopulationRow(
    cve: string,
    entity: string,
    municipality: string,
    population: Population)

  const PerInhabitants: real := 100000.0

  /** Crude rate per 100 000 inhabitants: `count / population * 100000`. */
  function Rate(count: nat, population: Population): (r: real)
    ensures r >= 0.0
    ensures r * (population as real) == (count as real) * PerInhabitants
    ensures r == 0.0 <==> count == 0
  {
    (count as real) / (population as real) * PerInhabitants
  }
}
