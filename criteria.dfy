/** The fixed point tables of the two scales, kept as explicit data in the order in
    which the scoring functions write their breakdown entries. */
module Criteria {
  import opened Values

  /** How a field's value becomes a table key: used as it is, or first put in a
      thickness bucket. */
  datatype Normaliser = AsIs | MinThicknessBucket | MeanThicknessBucket

  /** One criterion: its breakdown label, the record key it reads, the default used
      when that key is absent (None: the key is required), and its point table. */
  datatype Criterion = Criterion(
    title: string, key: string, default: Option<Value>, norm: Normaliser,
    table: seq<(Value, nat)>)

  /** Table of a 0/1 criterion worth `w` points when present. */
  function Binary(w: nat): seq<(Value, nat)> { [(Int(0), 0), (Int(1), w)] }

  // Criteria common to both scales.
  const Pain := Criterion("Болевой синдром", "pain", Some(Int(0)), AsIs,
    [(Int(0), 0), (Int(2), 2), (Int(4), 4)])
  const Injection := Criterion("Перикорнеальная инъекция", "injection", Some(Int(0)), AsIs,
    [(Int(0), 0), (Int(1), 1), (Int(2), 2), (Int(3), 3)])
  const Discharge := Criterion("Отделяемое", "discharge", Some(Int(0)), AsIs, Binary(2))
  const Satellites := Criterion("Сателлитные инфильтраты/«перистые» края", "satellites",
    Some(Int(0)), AsIs, Binary(2))
  const Size := Criterion("Размер дефекта", "size_cat", None, AsIs,
    [(Str("<=2"), 0), (Str("2-4"), 1), (Str("4-6"), 2), (Str(">6"), 3)])
  const Localization := Criterion("Локализация", "localization", None, AsIs,
    [(Str("peripheral"), 0), (Str("paracentral"), 1), (Str("central"), 2)])
  const Depth := Criterion("Глубина", "depth_cat", None, AsIs,
    [(Str("superficial"), 0), (Str("mid"), 2), (Str("deep"), 4), (Str("descemetocele"), 6)])
  const Descemetitis := Criterion("Признаки десцеметита", "descemetitis", Some(Int(0)), AsIs,
    Binary(2))
  const Hypopyon := Criterion("Гипопион", "hypopyon", Some(Str("none")), AsIs,
    [(Str("none"), 0), (Str("lt1"), 1), (Str("1to2"), 2), (Str("gt2"), 3)])
  const TotalLeucoma := Criterion("Тотальное бельмо", "total_leucoma", Some(Int(0)), AsIs,
    Binary(2))
  const Edema := Criterion("Отёк роговицы", "edema", Some(Int(0)), AsIs,
    [(Int(0), 0), (Int(1), 1), (Int(2), 2)])
  const Iop := Criterion("ВГД", "iog", Some(Str("normal")), AsIs,
    [(Str("normal"), 0), (Str("high"), 1), (Str("low"), 1)])
  const PachyUneven := Criterion("ОКТ: локальные зоны истончения", "pachy_uneven",
    Some(Int(0)), AsIs, Binary(2))
  const MinThickness := Criterion("ОКТ: минимальная толщина", "min_thickness_um",
    Some(Int(400)), MinThicknessBucket,
    [(Str(">=400"), 0), (Str("300-399"), 2), (Str("200-299"), 4), (Str("<200"), 6)])
  const MeanThickness := Criterion("ОКТ: средняя толщина", "mean_thickness_um",
    Some(Int(600)), MeanThicknessBucket,
    [(Str(">=600"), 0), (Str("520-599"), 1), (Str("450-519"), 2), (Str("<450"), 3)])
  const Limbal := Criterion("Вовлечение лимба", "limbal", Some(Int(0)), AsIs, Binary(2))
  const ProgressSpeed := Criterion("Скорость прогрессирования", "progress_speed",
    Some(Int(0)), AsIs, [(Int(0), 0), (Int(1), 2), (Int(2), 4)])
  const Opacity := Criterion("Прогноз интенсивности помутнения", "opacity", Some(Int(0)), AsIs,
    [(Int(0), 0), (Int(1), 1), (Int(2), 2)])

  // The anterior-chamber question is shared, but "not visible" weighs 4 in FUSS and 2 in AUSS.
  const AcTitle := "Передняя камера"
  const FussAnteriorChamber := Criterion(AcTitle, "ac", Some(Str("0")), AsIs,
    [(Str("0"), 0), (Str("1-20"), 1), (Str(">20"), 2), (Str("not_visible"), 4)])
  const AussAnteriorChamber := Criterion(AcTitle, "ac", Some(Str("0")), AsIs,
    [(Str("0"), 0), (Str("1-20"), 1), (Str(">20"), 2), (Str("not_visible"), 2)])

  // FUSS-only criteria.
  const FungalForm := Criterion("Клиническая форма (грибковая)", "fungal_form", Some(Int(0)),
    AsIs, [(Int(0), 0), (Int(1), 1), (Int(2), 2)])
  const ThinningProgress := Criterion("ОКТ: прогрессирование истончения 48–72 ч",
    "thinning_progress_72h", Some(Int(0)), AsIs, Binary(2))
  const Hyphae := Criterion("Конфокальная: гифы", "hyphae", Some(Int(0)), AsIs,
    [(Int(0), 0), (Int(1), 3), (Int(2), 6), (Int(3), 9)])
  const HyphaeDepth := Criterion("Конфокальная: глубина гиф/спор", "hyphae_depth",
    Some(Int(0)), AsIs, [(Int(0), 0), (Int(1), 2), (Int(2), 4), (Int(3), 6)])

  // AUSS-only criteria.
  const AmoebaForm := Criterion("Клиническая форма (AUSS)", "amoeba_form", Some(Int(0)), AsIs,
    [(Int(0), 0), (Int(1), 1), (Int(2), 2), (Int(3), 3), (Int(4), 4)])
  const PseudoDendrite := Criterion("Эпителиальный дефект/псевдодендрит", "pseudo_dendrite",
    Some(Int(0)), AsIs, Binary(1))
  const Ring := Criterion("Кольцевидный инфильтрат", "ring", Some(Int(0)), AsIs,
    [(Int(0), 0), (Int(1), 3), (Int(2), 6)])
  const RkClinical := Criterion("Радиальный кератоневрит (клиника)", "rk_clin", Some(Int(0)),
    AsIs, Binary(2))
  const Cysts := Criterion("Конфокальная: цисты", "cysts", Some(Int(0)), AsIs,
    [(Int(0), 0), (Int(1), 4), (Int(2), 8), (Int(3), 12)])
  const Trophozoites := Criterion("Конфокальная: трофозоиты", "troph", Some(Int(0)), AsIs,
    Binary(2))
  const AmoebaDepth := Criterion("Конфокальная: глубина цист/трофозоитов", "amoeba_depth",
    Some(Int(0)), AsIs, [(Int(0), 0), (Int(1), 2), (Int(2), 4), (Int(3), 6)])
  const RkConfocal := Criterion("Конфокальная: признаки кератоневрита", "rk_conf",
    Some(Int(0)), AsIs, Binary(4))
  const DelayTherapy := Criterion("Длительность до специфической терапии", "delay_therapy",
    Some(Int(0)), AsIs, [(Int(0), 0), (Int(1), 2), (Int(2), 4)])

  // The criteria in breakdown order, in the groups the scoring functions write them.
  const CommonClinical: seq<Criterion> := [Pain, Injection, Discharge, Satellites]

  const FussLesion: seq<Criterion> := [Size, FungalForm, Localization, Depth]
  const FussInflammation: seq<Criterion> :=
    [Descemetitis, Hypopyon, TotalLeucoma, FussAnteriorChamber, Edema, Iop]
  const FussOct: seq<Criterion> := [PachyUneven, MinThickness, MeanThickness, ThinningProgress]
  const FussConfocalCourse: seq<Criterion> := [Limbal, Hyphae, HyphaeDepth, ProgressSpeed, Opacity]

  const AussClinical: seq<Criterion> := [AmoebaForm, PseudoDendrite, Ring, RkClinical]
  const AussLesion: seq<Criterion> := [Size, Localization, Descemetitis, Depth, Hypopyon, TotalLeucoma]
  const AussChamberOct: seq<Criterion> :=
    [AussAnteriorChamber, Edema, PachyUneven, Iop, MinThickness, MeanThickness]
  const AussConfocal: seq<Criterion> := [Limbal, Cysts, Trophozoites, AmoebaDepth, RkConfocal]
  const AussCourse: seq<Criterion> := [DelayTherapy, ProgressSpeed, Opacity]

  /** The 23 FUSS criteria in breakdown order. */
  const FussCriteria: seq<Criterion> := [
    Pain, Injection, Discharge, Satellites,
    Size, FungalForm, Localization, Depth,
    Descemetitis, Hypopyon, TotalLeucoma, FussAnteriorChamber, Edema, Iop,
    PachyUneven, MinThickness, MeanThickness, ThinningProgress,
    Limbal, Hyphae, HyphaeDepth, ProgressSpeed, Opacity]

  /** The 28 AUSS criteria in breakdown order. */
  const AussCriteria: seq<Criterion> := [
    Pain, Injection, Discharge, Satellites,
    AmoebaForm, PseudoDendrite, Ring, RkClinical,
    Size, Localization, Descemetitis, Depth, Hypopyon, TotalLeucoma,
    AussAnteriorChamber, Edema, PachyUneven, Iop, MinThickness, MeanThickness,
    Limbal, Cysts, Trophozoites, AmoebaDepth, RkConfocal,
    DelayTherapy, ProgressSpeed, Opacity]

  /** Points for table key `v`: the first matching entry, or None (the lookup fails). */
  function Lookup(table: seq<(Value, nat)>, v: Value): (r: Option<nat>)
    ensures r.Some? <==> exists k :: 0 <= k < |table| && table[k].0 == v
    ensures r.Some? ==> exists k :: 0 <= k < |table| && table[k] == (v, r.value)
  {
    if table == [] then None
    else if table[0].0 == v then Some(table[0].1)
    else
      var r := Lookup(table[1..], v);
      assert r.Some? ==> table[1..][0..] == table[1..];
      r
  }

  /** Largest number of points among the first `n` entries of a table (0 when n is 0). */
  function MaxPoints(table: seq<(Value, nat)>, n: nat): nat
    requires n <= |table|
  {
    if n == 0 then 0
    else
      var rest := MaxPoints(table, n - 1);
      if table[n - 1].1 > rest then table[n - 1].1 else rest
  }

  /** Largest total the first `n` criteria can award together. */
  function MaxTotal(cs: seq<Criterion>, n: nat): nat
    requires n <= |cs|
  {
    if n == 0 then 0 else MaxTotal(cs, n - 1) + MaxPoints(cs[n - 1].table, |cs[n - 1].table|)
  }

  /** Breakdown labels of a list of criteria, in order. */
  function Titles(cs: seq<Criterion>): (ts: seq<string>)
    ensures |ts| == |cs| && forall k :: 0 <= k < |cs| ==> ts[k] == cs[k].title
  {
    if cs == [] then [] else Titles(cs[..|cs| - 1]) + [cs[|cs| - 1].title]
  }

  predicate Distinct(ts: seq<string>)
  {
    forall i, j :: 0 <= i < j < |ts| ==> ts[i] != ts[j]
  }
}

module CriteriaFacts {
  import opened Values
  import opened Criteria

  /** The largest total of a list of criteria is the sum of its parts'. */
  lemma MaxTotalAppend(a: seq<Criterion>, b: seq<Criterion>)
    ensures MaxTotal(a + b, |a + b|) == MaxTotal(a, |a|) + MaxTotal(b, |b|)
  {
    MaxTotalPrefix(a, b, |a|);
    MaxTotalSuffix(a, b, |b|);
  }

  lemma {:induction false} MaxTotalPrefix(a: seq<Criterion>, b: seq<Criterion>, n: nat)
    requires n <= |a|
    ensures MaxTotal(a + b, n) == MaxTotal(a, n)
  {
    if n > 0 {
      MaxTotalPrefix(a, b, n - 1);
      assert (a + b)[n - 1] == a[n - 1];
    }
  }

  lemma {:induction false} MaxTotalSuffix(a: seq<Criterion>, b: seq<Criterion>, n: nat)
    requires n <= |b| && MaxTotal(a + b, |a|) == MaxTotal(a, |a|)
    ensures MaxTotal(a + b, |a| + n) == MaxTotal(a, |a|) + MaxTotal(b, n)
  {
    if n > 0 {
      MaxTotalSuffix(a, b, n - 1);
      assert (a + b)[|a| + n - 1] == b[n - 1];
    }
  }

  /** Labels i < j drawn from [lo, hi) and [lo2, hi2) differ. */
  predicate DistinctAcross(ts: seq<string>, lo: nat, hi: nat, lo2: nat, hi2: nat)
    requires hi <= |ts| && hi2 <= |ts|
  {
    forall i, j :: lo <= i < hi && lo2 <= j < hi2 && i < j ==> ts[i] != ts[j]
  }

  /** FUSS writes 23 entries under 23 different labels, so no entry overwrites another. */
  lemma FussTitles()
    ensures |FussCriteria| == 23 && Distinct(Titles(FussCriteria))
  {
    FussTitlesFirst();
    FussTitlesLast();
    FussTitlesAcross();
  }

  // The lemmas below only split FussTitles into ranges, so that each proof stays small;
  // they state nothing beyond the lemma they serve.
  lemma FussTitlesFirst()
    ensures DistinctAcross(Titles(FussCriteria), 0, 12, 0, 12)
  {
  }

  lemma FussTitlesLast()
    ensures DistinctAcross(Titles(FussCriteria), 12, 23, 12, 23)
  {
  }

  lemma FussTitlesAcross()
    ensures DistinctAcross(Titles(FussCriteria), 0, 12, 12, 23)
  {
  }

  /** AUSS writes 28 entries under 28 different labels. */
  lemma AussTitles()
    ensures |AussCriteria| == 28 && Distinct(Titles(AussCriteria))
  {
    AussTitlesFirst();
    AussTitlesLast();
    AussTitlesAcross();
  }

  // The lemmas below only split AussTitles into ranges, so that each proof stays small;
  // they state nothing beyond the lemma they serve.
  lemma AussTitlesFirst()
    ensures DistinctAcross(Titles(AussCriteria), 0, 14, 0, 14)
  {
  }

  lemma AussTitlesLast()
    ensures DistinctAcross(Titles(AussCriteria), 14, 28, 14, 28)
  {
  }

  lemma AussTitlesAcross()
    ensures DistinctAcross(Titles(AussCriteria), 0, 14, 14, 28)
  {
  }

  /** The FUSS criteria, group by group. */
  lemma FussGroups()
    ensures FussCriteria == CommonClinical + FussLesion + FussInflammation + FussOct + FussConfocalCourse
  {
  }

  /** The AUSS criteria, group by group. */
  lemma AussGroups()
    ensures AussCriteria ==
      CommonClinical + AussClinical + AussLesion + AussChamberOct + AussConfocal + AussCourse
  {
  }

  /** The largest FUSS total is 74. */
  lemma FussMaxTotal()
    ensures MaxTotal(FussCriteria, |FussCriteria|) == 74
  {
    var a := CommonClinical + FussLesion;
    var b := a + FussInflammation;
    var c := b + FussOct;
    FussGroupMaxima();
    FussGroups();
    MaxTotalAppend(CommonClinical, FussLesion);
    MaxTotalAppend(a, FussInflammation);
    MaxTotalAppend(b, FussOct);
    MaxTotalAppend(c, FussConfocalCourse);
  }

  /** Largest total of each group of FUSS criteria; split out of FussMaxTotal only to
      keep that proof small. */
  lemma FussGroupMaxima()
    ensures MaxTotal(CommonClinical, 4) == 11
    ensures MaxTotal(FussLesion, 4) == 13
    ensures MaxTotal(FussInflammation, 6) == 14
    ensures MaxTotal(FussOct, 4) == 13
    ensures MaxTotal(FussConfocalCourse, 5) == 23
  {
    assert MaxTotal(CommonClinical, 1) == 4;
    assert MaxTotal(CommonClinical, 2) == 7;
    assert MaxTotal(CommonClinical, 3) == 9;
    assert MaxTotal(FussLesion, 1) == 3;
    assert MaxTotal(FussLesion, 2) == 5;
    assert MaxTotal(FussLesion, 3) == 7;
    assert MaxTotal(FussInflammation, 1) == 2;
    assert MaxTotal(FussInflammation, 2) == 5;
    assert MaxTotal(FussInflammation, 3) == 7;
    assert MaxTotal(FussInflammation, 4) == 11;
    assert MaxTotal(FussInflammation, 5) == 13;
    assert MaxTotal(FussOct, 1) == 2;
    assert MaxTotal(FussOct, 2) == 8;
    assert MaxTotal(FussOct, 3) == 11;
    assert MaxTotal(FussConfocalCourse, 1) == 2;
    assert MaxTotal(FussConfocalCourse, 2) == 11;
    assert MaxTotal(FussConfocalCourse, 3) == 17;
    assert MaxTotal(FussConfocalCourse, 4) == 21;
  }

  /** The largest AUSS total is 94. */
  lemma AussMaxTotal()
    ensures MaxTotal(AussCriteria, |AussCriteria|) == 94
  {
    var a := CommonClinical + AussClinical;
    var b := a + AussLesion;
    var c := b + AussChamberOct;
    var d := c + AussConfocal;
    AussGroupMaxima();
    AussGroups();
    MaxTotalAppend(CommonClinical, AussClinical);
    MaxTotalAppend(a, AussLesion);
    MaxTotalAppend(b, AussChamberOct);
    MaxTotalAppend(c, AussConfocal);
    MaxTotalAppend(d, AussCourse);
  }

  /** Largest total of each group of AUSS criteria; split out of AussMaxTotal only to
      keep that proof small. */
  lemma AussGroupMaxima()
    ensures MaxTotal(CommonClinical, 4) == 11
    ensures MaxTotal(AussClinical, 4) == 13
    ensures MaxTotal(AussLesion, 6) == 18
    ensures MaxTotal(AussChamberOct, 6) == 16
    ensures MaxTotal(AussConfocal, 5) == 26
    ensures MaxTotal(AussCourse, 3) == 10
  {
    AussFirstGroupMaxima();
    AussLastGroupMaxima();
  }

  // The lemmas below only split AussGroupMaxima into ranges, so that each proof stays small;
  // they state nothing beyond the lemma they serve.
  lemma AussFirstGroupMaxima()
    ensures MaxTotal(CommonClinical, 4) == 11
    ensures MaxTotal(AussClinical, 4) == 13
    ensures MaxTotal(AussLesion, 6) == 18
  {
    assert MaxPoints(AmoebaForm.table, 4) == 3;
    assert MaxTotal(CommonClinical, 1) == 4;
    assert MaxTotal(CommonClinical, 2) == 7;
    assert MaxTotal(CommonClinical, 3) == 9;
    assert MaxTotal(AussClinical, 1) == 4;
    assert MaxTotal(AussClinical, 2) == 5;
    assert MaxTotal(AussClinical, 3) == 11;
    assert MaxTotal(AussLesion, 1) == 3;
    assert MaxTotal(AussLesion, 2) == 5;
    assert MaxTotal(AussLesion, 3) == 7;
    assert MaxTotal(AussLesion, 4) == 13;
    assert MaxTotal(AussLesion, 5) == 16;
  }

  lemma AussLastGroupMaxima()
    ensures MaxTotal(AussChamberOct, 6) == 16
    ensures MaxTotal(AussConfocal, 5) == 26
    ensures MaxTotal(AussCourse, 3) == 10
  {
    assert MaxTotal(AussChamberOct, 1) == 2;
    assert MaxTotal(AussChamberOct, 2) == 4;
    assert MaxTotal(AussChamberOct, 3) == 6;
    assert MaxTotal(AussChamberOct, 4) == 7;
    assert MaxTotal(AussChamberOct, 5) == 13;
    assert MaxTotal(AussConfocal, 1) == 2;
    assert MaxTotal(AussConfocal, 2) == 14;
    assert MaxTotal(AussConfocal, 3) == 16;
    assert MaxTotal(AussConfocal, 4) == 22;
    assert MaxTotal(AussCourse, 1) == 4;
    assert MaxTotal(AussCourse, 2) == 8;
  }

  /** Tables with the same keys in the same order accept the same values. */
  lemma LookupSameKeys(t1: seq<(Value, nat)>, t2: seq<(Value, nat)>, v: Value)
    requires |t1| == |t2| && forall k :: 0 <= k < |t1| ==> t1[k].0 == t2[k].0
    ensures Lookup(t1, v).Some? <==> Lookup(t2, v).Some?
  {
  }

  /** Tables that differ only in entry n give the same points for every other key. */
  lemma {:induction false} LookupAgreeExcept(t1: seq<(Value, nat)>, t2: seq<(Value, nat)>, n: nat, v: Value)
    requires |t1| == |t2| && n < |t1| && v != t1[n].0
    requires forall k :: 0 <= k < |t1| && k != n ==> t1[k] == t2[k]
    requires t1[n].0 == t2[n].0
    ensures Lookup(t1, v) == Lookup(t2, v)
  {
    if n == 0 {
      assert t1[1..] == t2[1..];
    } else if t1[0].0 != v {
      LookupAgreeExcept(t1[1..], t2[1..], n - 1, v);
    }
  }

  /** The two anterior-chamber tables agree on every value except "not visible",
      which weighs 4 in FUSS and 2 in AUSS. */
  lemma AnteriorChamberDiverges(v: Value)
    ensures Lookup(FussAnteriorChamber.table, v).Some? <==> Lookup(AussAnteriorChamber.table, v).Some?
    ensures v != Str("not_visible") ==>
      Lookup(FussAnteriorChamber.table, v) == Lookup(AussAnteriorChamber.table, v)
    ensures Lookup(FussAnteriorChamber.table, Str("not_visible")) == Some(4)
    ensures Lookup(AussAnteriorChamber.table, Str("not_visible")) == Some(2)
  {
    var f, a := FussAnteriorChamber.table, AussAnteriorChamber.table;
    LookupSameKeys(f, a, v);
    if v != Str("not_visible") {
      LookupAgreeExcept(f, a, 3, v);
    }
  }

  /** FUSS criterion i and AUSS criterion j: when they carry the same label, they are
      identical unless that label is the anterior chamber's. */
  predicate Agree(i: nat, j: nat)
    requires i < |FussCriteria| && j < |AussCriteria|
  {
    FussCriteria[i].title == AussCriteria[j].title ==>
      (FussCriteria[i] == AussCriteria[j] <==> FussCriteria[i].title != AcTitle)
  }

  /** Every criterion the two scales share has the same key, default and table in both,
      except the anterior chamber. */
  lemma SharedCriteriaAgree()
    ensures forall i, j :: 0 <= i < |FussCriteria| && 0 <= j < |AussCriteria| ==> Agree(i, j)
  {
    AussTitles();
    CounterpartsMatch();
    CounterpartsMissing();
  }

  /** Position of each FUSS criterion among the AUSS criteria; -1 for the FUSS-only ones. */
  const Counterpart: seq<int> :=
    [0, 1, 2, 3, 8, -1, 9, 11, 10, 12, 13, 14, 15, 17, 16, 18, 19, -1, 20, -1, -1, 26, 27]

  predicate MatchAt(i: nat)
    requires i < 23 && Counterpart[i] >= 0
  {
    Counterpart[i] < 28 && FussCriteria[i].title == AussCriteria[Counterpart[i]].title &&
    (FussCriteria[i] == AussCriteria[Counterpart[i]] <==> FussCriteria[i].title != AcTitle)
  }

  lemma CounterpartsMatch()
    ensures forall i :: 0 <= i < 23 && Counterpart[i] >= 0 ==> MatchAt(i)
  {
    assert FussAnteriorChamber != AussAnteriorChamber by {
      assert FussAnteriorChamber.table[3] != AussAnteriorChamber.table[3];
    }
    MatchFrom0Below4();
    MatchFrom4Below8();
    MatchFrom8Below12();
    MatchFrom12Below16();
    MatchFrom16Below20();
    MatchFrom20Below23();
  }

  // The lemmas below only split CounterpartsMatch into ranges, so that each proof stays small;
  // they state nothing beyond the lemma they serve.
  lemma MatchFrom0Below4()
    requires FussAnteriorChamber != AussAnteriorChamber
    ensures forall i :: 0 <= i < 4 && Counterpart[i] >= 0 ==> MatchAt(i)
  {
  }

  lemma MatchFrom4Below8()
    requires FussAnteriorChamber != AussAnteriorChamber
    ensures forall i :: 4 <= i < 8 && Counterpart[i] >= 0 ==> MatchAt(i)
  {
  }

  lemma MatchFrom8Below12()
    requires FussAnteriorChamber != AussAnteriorChamber
    ensures forall i :: 8 <= i < 12 && Counterpart[i] >= 0 ==> MatchAt(i)
  {
  }

  lemma MatchFrom12Below16()
    requires FussAnteriorChamber != AussAnteriorChamber
    ensures forall i :: 12 <= i < 16 && Counterpart[i] >= 0 ==> MatchAt(i)
  {
  }

  lemma MatchFrom16Below20()
    requires FussAnteriorChamber != AussAnteriorChamber
    ensures forall i :: 16 <= i < 20 && Counterpart[i] >= 0 ==> MatchAt(i)
  {
  }

  lemma MatchFrom20Below23()
    requires FussAnteriorChamber != AussAnteriorChamber
    ensures forall i :: 20 <= i < 23 && Counterpart[i] >= 0 ==> MatchAt(i)
  {
  }

  /** The FUSS-only criteria carry labels that no AUSS criterion carries. */
  lemma CounterpartsMissing()
    ensures forall i, j :: 0 <= i < 23 && Counterpart[i] < 0 && 0 <= j < 28 ==>
      FussCriteria[i].title != AussCriteria[j].title
  {
    MissingBelow7();
    MissingFrom7Below14();
    MissingFrom14Below21();
    MissingFrom21();
  }

  // The lemmas below only split CounterpartsMissing into ranges, so that each proof stays small;
  // they state nothing beyond the lemma they serve.
  lemma MissingBelow7()
    ensures forall i, j :: 0 <= i < 23 && Counterpart[i] < 0 && 0 <= j < 7 ==>
      FussCriteria[i].title != AussCriteria[j].title
  {
  }

  lemma MissingFrom7Below14()
    ensures forall i, j :: 0 <= i < 23 && Counterpart[i] < 0 && 7 <= j < 14 ==>
      FussCriteria[i].title != AussCriteria[j].title
  {
  }

  lemma MissingFrom14Below21()
    ensures forall i, j :: 0 <= i < 23 && Counterpart[i] < 0 && 14 <= j < 21 ==>
      FussCriteria[i].title != AussCriteria[j].title
  {
  }

  lemma MissingFrom21()
    ensures forall i, j :: 0 <= i < 23 && Counterpart[i] < 0 && 21 <= j < 28 ==>
      FussCriteria[i].title != AussCriteria[j].title
  {
  }

  /** Where the criteria the two scales single out sit in each list. */
  lemma FussPositions()
    ensures FussCriteria[4] == Size && FussCriteria[6] == Localization
    ensures FussCriteria[7] == Depth && FussCriteria[15] == MinThickness
  {
  }

  lemma AussPositions()
    ensures AussCriteria[8] == Size && AussCriteria[9] == Localization
    ensures AussCriteria[11] == Depth && AussCriteria[18] == MinThickness
  {
  }
}
