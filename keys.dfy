/** The key builder: the five-character municipal key (CVE) built from the
    line list's entity and municipality codes, the entity directory and the
    canonical spelling of state names in the population table. */
module Keys {
  import opened Common
  import opened Records

  function Zeros(n: nat): (z: string)
    ensures |z| == n && AllDigits(z)
    ensures forall i :: 0 <= i < n ==> z[i] == '0'
  {
    seq(n, _ => '0')
  }

  predicate HasSign(s: string) { |s| > 0 && (s[0] == '+' || s[0] == '-') }

  /** Python's `str.zfill(width)`: pads on the left with '0' up to `width`,
      keeping a leading sign in front of the padding. */
  function ZFill(s: string, width: nat): (r: string)
    ensures |r| == Max(|s|, width)
    ensures |s| >= width ==> r == s
    ensures !HasSign(s) ==> r[|r| - |s|..] == s && forall i :: 0 <= i < |r| - |s| ==> r[i] == '0'
    ensures HasSign(s) ==> r[0] == s[0] && r[|r| - |s| + 1..] == s[1..]
                           && forall i :: 1 <= i <= |r| - |s| ==> r[i] == '0'
  {
    if |s| >= width then s
    else if HasSign(s) then [s[0]] + Zeros(width - |s|) + s[1..]
    else Zeros(width - |s|) + s
  }

  lemma {:induction false} LeadingZerosValue(z: string, s: string)
    requires AllDigits(z) && AllDigits(s)
    requires forall i :: 0 <= i < |z| ==> z[i] == '0'
    ensures AllDigits(z + s) && DigitsValue(z + s) == DigitsValue(s)
    decreases |s|
  {
    if s == [] {
      assert z + s == z;
      ZerosValue(z);
    } else {
      var init := s[..|s| - 1];
      assert (z + s)[..|z + s| - 1] == z + init;
      LeadingZerosValue(z, init);
    }
  }

  lemma {:induction false} ZerosValue(z: string)
    requires AllDigits(z)
    requires forall i :: 0 <= i < |z| ==> z[i] == '0'
    ensures DigitsValue(z) == 0
  {
    if z != [] {
      ZerosValue(z[..|z| - 1]);
    }
  }

  /** Padding a digit string keeps it a digit string with the same value. */
  lemma ZFillDigits(s: string, width: nat)
    requires AllDigits(s)
    ensures AllDigits(ZFill(s, width)) && DigitsValue(ZFill(s, width)) == DigitsValue(s)
  {
    if |s| < width {
      LeadingZerosValue(Zeros(width - |s|), s);
    }
  }

  /** Two digit strings of equal length and equal value are the same string. */
  lemma {:induction false} DigitsValueInjective(a: string, b: string)
    requires AllDigits(a) && AllDigits(b) && |a| == |b|
    requires DigitsValue(a) == DigitsValue(b)
    ensures a == b
  {
    if a != [] {
      var n := |a| - 1;
      var da := (a[n] as int) - ('0' as int);
      var db := (b[n] as int) - ('0' as int);
      assert DigitsValue(a) == DigitsValue(a[..n]) * 10 + da;
      assert DigitsValue(b) == DigitsValue(b[..n]) * 10 + db;
      assert da == db && DigitsValue(a[..n]) == DigitsValue(b[..n]);
      DigitsValueInjective(a[..n], b[..n]);
      assert a == a[..n] + [a[n]] && b == b[..n] + [b[n]];
    }
  }

  /** `ENTIDAD_RES.str.zfill(2) + MUNICIPIO_RES.str.zfill(3)`. */
  function Cve(entity: string, municipality: string): string
  {
    ZFill(entity, 2) + ZFill(municipality, 3)
  }

  /** The key of a case's municipality of residence. */
  function CaseCve(r: CaseRecord): string { Cve(r.entity, r.municipality) }

  /** Codes of at most two and three digits give a five-digit key whose two
      parts read back as the entity and municipality numbers. */
  lemma CveShape(entity: string, municipality: string)
    requires AllDigits(entity) && |entity| <= 2
    requires AllDigits(municipality) && |municipality| <= 3
    ensures var k := Cve(entity, municipality);
      |k| == 5 && AllDigits(k) && k[..2] == ZFill(entity, 2)
      && DigitsValue(k[..2]) == DigitsValue(entity)
      && DigitsValue(k[2..]) == DigitsValue(municipality)
  {
    var k := Cve(entity, municipality);
    ZFillDigits(entity, 2);
    ZFillDigits(municipality, 3);
    assert k[..2] == ZFill(entity, 2) && k[2..] == ZFill(municipality, 3);
  }

  /** Padded to a width they fit in, two digit strings agree exactly when
      they denote the same number. */
  lemma ZFillSameValue(a: string, b: string, width: nat)
    requires AllDigits(a) && |a| <= width && AllDigits(b) && |b| <= width
    ensures ZFill(a, width) == ZFill(b, width) <==> DigitsValue(a) == DigitsValue(b)
  {
    ZFillDigits(a, width);
    ZFillDigits(b, width);
    if DigitsValue(a) == DigitsValue(b) {
      DigitsValueInjective(ZFill(a, width), ZFill(b, width));
    }
  }

  lemma SplitConcat(a1: string, b1: string, a2: string, b2: string)
    requires |a1| == |a2|
    ensures a1 + b1 == a2 + b2 <==> a1 == a2 && b1 == b2
  {
    if a1 + b1 == a2 + b2 {
      assert a1 == (a1 + b1)[..|a1|] && a2 == (a2 + b2)[..|a2|];
      assert b1 == (a1 + b1)[|a1|..] && b2 == (a2 + b2)[|a2|..];
    }
  }

  /** Two cases share a key exactly when their codes denote the same numbers,
      whatever leading zeros the line list wrote. */
  lemma CveSameMunicipality(e1: string, m1: string, e2: string, m2: string)
    requires AllDigits(e1) && |e1| <= 2 && AllDigits(m1) && |m1| <= 3
    requires AllDigits(e2) && |e2| <= 2 && AllDigits(m2) && |m2| <= 3
    ensures Cve(e1, m1) == Cve(e2, m2) <==>
            DigitsValue(e1) == DigitsValue(e2) && DigitsValue(m1) == DigitsValue(m2)
  {
    var a1, b1, a2, b2 := ZFill(e1, 2), ZFill(m1, 3), ZFill(e2, 2), ZFill(m2, 3);
    assert |a1| == 2 && |a2| == 2 && |b1| == 3 && |b2| == 3;
    SplitConcat(a1, b1, a2, b2);
    assert Cve(e1, m1) == Cve(e2, m2) <==> a1 == a2 && b1 == b2;
    ZFillSameValue(e1, e2, 2);
    ZFillSameValue(m1, m2, 3);
  }

  /** ENTIDADES: entity code to display name. */
  const Entidades: map<int, string> := map[
    1 := "Aguascalientes",
    2 := "Baja California",
    3 := "Baja California Sur",
    4 := "Campeche",
    5 := "Coahuila",
    6 := "Colima",
    7 := "Chiapas",
    8 := "Chihuahua",
    9 := "Ciudad de México",
    10 := "Durango",
    11 := "Guanajuato",
    12 := "Guerrero",
    13 := "Hidalgo",
    14 := "Jalisco",
    15 := "Estado de México",
    16 := "Michoacán",
    17 := "Morelos",
    18 := "Nayarit",
    19 := "Nuevo León",
    20 := "Oaxaca",
    21 := "Puebla",
    22 := "Querétaro",
    23 := "Quintana Roo",
    24 := "San Luis Potosí",
    25 := "Sinaloa",
    26 := "Sonora",
    27 := "Tabasco",
    28 := "Tamaulipas",
    29 := "Tlaxcala",
    30 := "Veracruz",
    31 := "Yucatán",
    32 := "Zacatecas",
    99 := "Se desconoce"
  ]

  /** The population table's official names that the reports shorten. */
  const Renames: map<string, string> := map[
    "Coahuila de Zaragoza" := "Coahuila",
    "México" := "Estado de México",
    "Michoacán de Ocampo" := "Michoacán",
    "Veracruz de Ignacio de la Llave" := "Veracruz"
  ]

  /** `Series.replace(Renames)` on one entity name. */
  function CanonicalEntity(name: string): string
  {
    if name in Renames then Renames[name] else name
  }

  /** The population rows with their entity names rewritten. */
  function CanonicalPopulation(pop: seq<PopulationRow>): (c: seq<PopulationRow>)
    ensures |c| == |pop|
    ensures forall i :: 0 <= i < |pop| ==>
      c[i] == pop[i].(entity := CanonicalEntity(pop[i].entity))
  {
    seq(|pop|, i requires 0 <= i < |pop| => pop[i].(entity := CanonicalEntity(pop[i].entity)))
  }

  /** The directory covers the 32 states and the code 99 for an unknown one. */
  lemma EntidadesKeys()
    ensures forall k :: k in Entidades <==> 1 <= k <= 32 || k == 99
  {
  }

  /** ... so it has exactly 33 entries. */
  lemma EntidadesSize()
    ensures |Entidades| == 33
  {
    EntidadesKeys();
    var states := Interval(1, 33);
    assert |states + {99}| == 33;
    assert Entidades.Keys == states + {99};
  }

  /** Different codes carry different names. */
  lemma EntidadesInjective(i: int, j: int)
    requires i in Entidades && j in Entidades
    ensures Entidades[i] == Entidades[j] <==> i == j
  {
  }

  /** Every directory name is already canonical, and renaming twice is renaming once. */
  lemma CanonicalFixesDirectory(name: string)
    ensures CanonicalEntity(CanonicalEntity(name)) == CanonicalEntity(name)
    ensures name in Entidades.Values ==> CanonicalEntity(name) == name
  {
  }

  /** The official long name, if any, that the population table uses for code `k`. */
  function OfficialName(k: int): Option<string>
  {
    if k == 5 then Some("Coahuila de Zaragoza")
    else if k == 15 then Some("México")
    else if k == 16 then Some("Michoacán de Ocampo")
    else if k == 30 then Some("Veracruz de Ignacio de la Llave")
    else None
  }

  /** After the renames, comparing with `Entidades[k]` selects exactly the rows
      spelled with the directory name or with the official long name of `k`. */
  lemma SelectsState(name: string, k: int)
    requires k in Entidades
    ensures CanonicalEntity(name) == Entidades[k] <==>
            name == Entidades[k] || OfficialName(k) == Some(name)
  {
    if name in Renames {
      var code := if name == "Coahuila de Zaragoza" then 5
        else if name == "México" then 15
        else if name == "Michoacán de Ocampo" then 16
        else 30;
      assert Entidades[code] == Renames[name] && OfficialName(code) == Some(name);
      EntidadesInjective(k, code);
      LongNamesNotListed(name, k);
    }
  }

  /** No official long name is itself a directory name. */
  lemma LongNamesNotListed(name: string, k: int)
    requires name in Renames && k in Entidades
    ensures name != Entidades[k]
  {
  }
}
