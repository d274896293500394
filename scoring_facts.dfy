/** What the two scales promise beyond a single call: which fields are required, what
    an absent field is worth, and how the critical flag shows in the breakdown. */
module ScoringFacts {
  import opened Values
  import opened Normalisers
  import opened Criteria
  import opened CriteriaFacts
  import opened Scoring

  /** The record keys both scales read without a default. */
  const RequiredKeys: set<string> := {"size_cat", "localization", "depth_cat"}

  /** The smallest record both scales accept: only the three required fields, each at
      its lowest category. */
  const MinimalRecord: Context :=
    map["size_cat" := Str("<=2"), "localization" := Str("peripheral"), "depth_cat" := Str("superficial")]

  /** A criterion has a default exactly when its key is optional, an absent optional
      field earns nothing, and the minimal record earns nothing on it. */
  predicate Baseline(c: Criterion)
  {
    (c.default.None? <==> c.key in RequiredKeys)
    && (c.default.Some? ==> Points(c, map[]) == Ok(0))
    && Points(c, MinimalRecord) == Ok(0)
  }

  predicate AllBaseline(cs: seq<Criterion>)
  {
    forall k :: 0 <= k < |cs| ==> Baseline(cs[k])
  }

  lemma AllBaselineAppend(a: seq<Criterion>, b: seq<Criterion>)
    requires AllBaseline(a) && AllBaseline(b)
    ensures AllBaseline(a + b)
  {
    forall k | 0 <= k < |a + b|
      ensures Baseline((a + b)[k])
    {
      if k >= |a| {
        assert (a + b)[k] == b[k - |a|];
      }
    }
  }

  lemma CommonBaseline()
    ensures AllBaseline(CommonClinical)
  {
    assert Baseline(Pain) && Baseline(Injection) && Baseline(Discharge) && Baseline(Satellites);
  }

  lemma LesionBaseline()
    ensures Baseline(Size) && Baseline(Localization) && Baseline(Depth)
  {
  }

  lemma FussLesionBaseline()
    ensures AllBaseline(FussLesion)
  {
    LesionBaseline();
    assert Baseline(FungalForm);
  }

  lemma InflammationBaseline()
    ensures Baseline(Descemetitis) && Baseline(Hypopyon) && Baseline(TotalLeucoma)
  {
  }

  lemma ChamberBaseline()
    ensures Baseline(FussAnteriorChamber) && Baseline(AussAnteriorChamber)
    ensures Baseline(Edema) && Baseline(Iop)
  {
  }

  lemma ThicknessBaseline()
    ensures Baseline(PachyUneven) && Baseline(MinThickness) && Baseline(MeanThickness)
  {
  }

  lemma FussInflammationBaseline()
    ensures AllBaseline(FussInflammation)
  {
    InflammationBaseline();
    ChamberBaseline();
  }

  lemma FussOctBaseline()
    ensures AllBaseline(FussOct)
  {
    ThicknessBaseline();
    assert Baseline(ThinningProgress);
  }

  lemma FussConfocalCourseBaseline()
    ensures AllBaseline(FussConfocalCourse)
  {
    assert Baseline(Limbal) && Baseline(Hyphae) && Baseline(HyphaeDepth);
    assert Baseline(ProgressSpeed) && Baseline(Opacity);
  }

  lemma AussClinicalBaseline()
    ensures AllBaseline(AussClinical)
  {
    assert Baseline(AmoebaForm) && Baseline(PseudoDendrite);
    assert Baseline(Ring) && Baseline(RkClinical);
  }

  lemma AussLesionBaseline()
    ensures AllBaseline(AussLesion)
  {
    InflammationBaseline();
    LesionBaseline();
  }

  lemma AussChamberOctBaseline()
    ensures AllBaseline(AussChamberOct)
  {
    ChamberBaseline();
    ThicknessBaseline();
  }

  lemma AussConfocalBaseline()
    ensures AllBaseline(AussConfocal)
  {
    assert Baseline(Limbal) && Baseline(Cysts) && Baseline(Trophozoites);
    assert Baseline(AmoebaDepth) && Baseline(RkConfocal);
  }

  lemma AussCourseBaseline()
    ensures AllBaseline(AussCourse)
  {
    assert Baseline(DelayTherapy) && Baseline(ProgressSpeed) && Baseline(Opacity);
  }

  /** Every FUSS criterion keeps the baseline contract. */
  lemma FussBaseline()
    ensures AllBaseline(FussCriteria)
  {
    CommonBaseline();
    FussLesionBaseline();
    FussInflammationBaseline();
    FussOctBaseline();
    FussConfocalCourseBaseline();
    FussGroups();
    var a := CommonClinical + FussLesion;
    var b := a + FussInflammation;
    var c := b + FussOct;
    AllBaselineAppend(CommonClinical, FussLesion);
    AllBaselineAppend(a, FussInflammation);
    AllBaselineAppend(b, FussOct);
    AllBaselineAppend(c, FussConfocalCourse);
  }

  /** Every AUSS criterion keeps the baseline contract. */
  lemma AussBaseline()
    ensures AllBaseline(AussCriteria)
  {
    CommonBaseline();
    AussClinicalBaseline();
    AussLesionBaseline();
    AussChamberOctBaseline();
    AussConfocalBaseline();
    AussCourseBaseline();
    AussGroups();
    var a := CommonClinical + AussClinical;
    var b := a + AussLesion;
    var c := b + AussChamberOct;
    var d := c + AussConfocal;
    AllBaselineAppend(CommonClinical, AussClinical);
    AllBaselineAppend(a, AussLesion);
    AllBaselineAppend(b, AussChamberOct);
    AllBaselineAppend(c, AussConfocal);
    AllBaselineAppend(d, AussCourse);
  }

  /** An absent optional field earns 0 points; an absent required field fails the scale. */
  lemma AbsentField(cs: seq<Criterion>, ctx: Context, k: nat)
    requires AllBaseline(cs) && k < |cs| && cs[k].key !in ctx
    ensures cs[k].key !in RequiredKeys ==> Points(cs[k], ctx) == Ok(0)
    ensures cs[k].key in RequiredKeys ==> Points(cs[k], ctx) == Err(MissingField(cs[k].key))
    ensures cs[k].key in RequiredKeys ==> ScoreSpec(cs, ctx).Err?
  {
    assert Baseline(cs[k]);
    assert FieldValue(cs[k], ctx) == FieldValue(cs[k], map[]);
    EvaluateFails(cs, ctx);
  }

  /** A stored value that is not a key of its criterion's table fails that criterion
      with a not-in-table error, and with it the whole scale. */
  lemma ValueOutsideTable(cs: seq<Criterion>, ctx: Context, k: nat)
    requires k < |cs| && cs[k].key in ctx && cs[k].norm.AsIs?
    requires forall j :: 0 <= j < |cs[k].table| ==> cs[k].table[j].0 != ctx[cs[k].key]
    ensures Points(cs[k], ctx) == Err(NotInTable(cs[k].title, ctx[cs[k].key]))
    ensures ScoreSpec(cs, ctx).Err?
  {
    PointsByTable(cs[k], ctx);
  }

  /** FUSS rejects a pain grade that is not one of its table's keys 0, 2 and 4. */
  lemma FussPainOutOfRange(ctx: Context)
    requires "pain" in ctx && ctx["pain"] == Int(5)
    ensures ScoreSpec(FussCriteria, ctx).Err?
  {
    assert FussCriteria[0] == Pain;
    ValueOutsideTable(FussCriteria, ctx, 0);
  }

  /** FUSS: an absent optional field earns 0 points. */
  lemma FussAbsentOptional(ctx: Context)
    ensures forall k :: (0 <= k < |FussCriteria| && FussCriteria[k].key !in ctx &&
      FussCriteria[k].key !in RequiredKeys) ==> Points(FussCriteria[k], ctx) == Ok(0)
  {
    FussBaseline();
    forall k | 0 <= k < |FussCriteria| && FussCriteria[k].key !in ctx
      ensures FussCriteria[k].key !in RequiredKeys ==> Points(FussCriteria[k], ctx) == Ok(0)
    {
      AbsentField(FussCriteria, ctx, k);
    }
  }

  /** FUSS fails without any one of size, localization and depth. */
  lemma FussMissingRequired(ctx: Context)
    ensures ("size_cat" !in ctx || "localization" !in ctx || "depth_cat" !in ctx)
      ==> ScoreSpec(FussCriteria, ctx).Err?
  {
    FussBaseline();
    FussPositions();
    if "size_cat" !in ctx {
      AbsentField(FussCriteria, ctx, 4);
    } else if "localization" !in ctx {
      AbsentField(FussCriteria, ctx, 6);
    } else if "depth_cat" !in ctx {
      AbsentField(FussCriteria, ctx, 7);
    }
  }

  /** AUSS: an absent optional field earns 0 points. */
  lemma AussAbsentOptional(ctx: Context)
    ensures forall k :: (0 <= k < |AussCriteria| && AussCriteria[k].key !in ctx &&
      AussCriteria[k].key !in RequiredKeys) ==> Points(AussCriteria[k], ctx) == Ok(0)
  {
    AussBaseline();
    forall k | 0 <= k < |AussCriteria| && AussCriteria[k].key !in ctx
      ensures AussCriteria[k].key !in RequiredKeys ==> Points(AussCriteria[k], ctx) == Ok(0)
    {
      AbsentField(AussCriteria, ctx, k);
    }
  }

  /** AUSS fails without any one of size, localization and depth. */
  lemma AussMissingRequired(ctx: Context)
    ensures ("size_cat" !in ctx || "localization" !in ctx || "depth_cat" !in ctx)
      ==> ScoreSpec(AussCriteria, ctx).Err?
  {
    AussBaseline();
    AussPositions();
    if "size_cat" !in ctx {
      AbsentField(AussCriteria, ctx, 8);
    } else if "localization" !in ctx {
      AbsentField(AussCriteria, ctx, 9);
    } else if "depth_cat" !in ctx {
      AbsentField(AussCriteria, ctx, 11);
    }
  }

  /** When every criterion earns 0 points, scoring succeeds with a total of 0. */
  lemma {:induction false} AllZeroScoresZero(cs: seq<Criterion>, ctx: Context)
    requires forall k :: 0 <= k < |cs| ==> Points(cs[k], ctx) == Ok(0)
    ensures Evaluate(cs, ctx).Ok? && Sum(Evaluate(cs, ctx).value) == 0
  {
    if cs != [] {
      var front := cs[..|cs| - 1];
      assert forall k :: 0 <= k < |front| ==> front[k] == cs[k];
      AllZeroScoresZero(front, ctx);
      var bd := Evaluate(cs, ctx).value;
      assert bd[..|bd| - 1] == Evaluate(front, ctx).value;
    }
  }

  /** A record without thickness data whose ulcer is superficial is not critical. */
  lemma SuperficialNotCritical(ctx: Context)
    requires "min_thickness_um" !in ctx
    requires "depth_cat" in ctx && ctx["depth_cat"] == Str("superficial")
    ensures !Critical(ctx)
  {
  }

  /** FUSS scores the minimal record 0 and does not flag it critical. */
  lemma FussMinimalRecord()
    ensures ScoreSpec(FussCriteria, MinimalRecord).Ok?
    ensures ScoreSpec(FussCriteria, MinimalRecord).value.score == 0
    ensures !ScoreSpec(FussCriteria, MinimalRecord).value.critical
  {
    FussBaseline();
    AllZeroScoresZero(FussCriteria, MinimalRecord);
    SuperficialNotCritical(MinimalRecord);
  }

  /** AUSS scores the minimal record 0 and does not flag it critical. */
  lemma AussMinimalRecord()
    ensures ScoreSpec(AussCriteria, MinimalRecord).Ok?
    ensures ScoreSpec(AussCriteria, MinimalRecord).value.score == 0
    ensures !ScoreSpec(AussCriteria, MinimalRecord).value.critical
  {
    AussBaseline();
    AllZeroScoresZero(AussCriteria, MinimalRecord);
    SuperficialNotCritical(MinimalRecord);
  }

  /** The minimum-thickness entry is 6 exactly when the thinnest point is under 200 um. */
  lemma MinThicknessSix(ctx: Context)
    requires Points(MinThickness, ctx).Ok?
    ensures var m := Get(ctx, "min_thickness_um", Int(400));
      m.Int? && (Points(MinThickness, ctx).value == 6 <==> CatMinThickness(m.n) == "<200")
  {
  }

  /** The depth entry is 6 exactly for a descemetocele. */
  lemma DepthSix(ctx: Context)
    requires Points(Depth, ctx).Ok?
    ensures "depth_cat" in ctx
    ensures Points(Depth, ctx).value == 6 <==> ctx["depth_cat"] == Str("descemetocele")
  {
  }

  /** The critical flag is set exactly when the minimum-thickness entry or the depth
      entry of the breakdown is at its maximum of 6. */
  lemma CriticalByEntries(cs: seq<Criterion>, ctx: Context, i: nat, j: nat)
    requires Evaluate(cs, ctx).Ok? && i < |cs| && j < |cs|
    requires cs[i] == MinThickness && cs[j] == Depth
    ensures var bd := Evaluate(cs, ctx).value;
      Critical(ctx) <==> bd[i].1 == 6 || bd[j].1 == 6
  {
    EvaluateEntries(cs, ctx);
    MinThicknessSix(ctx);
    DepthSix(ctx);
  }

  /** FUSS flags a record critical exactly when its minimum-thickness entry (the 16th)
      or its depth entry (the 8th) scores 6. */
  lemma FussCritical(ctx: Context)
    requires ScoreSpec(FussCriteria, ctx).Ok?
    ensures var r := ScoreSpec(FussCriteria, ctx).value;
      r.breakdown[15].0 == "ОКТ: минимальная толщина" && r.breakdown[7].0 == "Глубина" &&
      (r.critical <==> r.breakdown[15].1 == 6 || r.breakdown[7].1 == 6)
  {
    FussPositions();
    EvaluateEntries(FussCriteria, ctx);
    CriticalByEntries(FussCriteria, ctx, 15, 7);
  }

  /** AUSS flags a record critical exactly when its minimum-thickness entry (the 19th)
      or its depth entry (the 12th) scores 6. */
  lemma AussCritical(ctx: Context)
    requires ScoreSpec(AussCriteria, ctx).Ok?
    ensures var r := ScoreSpec(AussCriteria, ctx).value;
      r.breakdown[18].0 == "ОКТ: минимальная толщина" && r.breakdown[11].0 == "Глубина" &&
      (r.critical <==> r.breakdown[18].1 == 6 || r.breakdown[11].1 == 6)
  {
    AussPositions();
    EvaluateEntries(AussCriteria, ctx);
    CriticalByEntries(AussCriteria, ctx, 18, 11);
  }

  /** The critical flag reads only the minimum thickness and the depth: records that
      agree on those two fields agree on the flag, whatever else they hold. */
  lemma CriticalReadsTwoFields(ctx1: Context, ctx2: Context)
    requires Get(ctx1, "min_thickness_um", Int(400)) == Get(ctx2, "min_thickness_um", Int(400))
    requires Get(ctx1, "depth_cat", Int(0)) == Get(ctx2, "depth_cat", Int(0))
    ensures Critical(ctx1) == Critical(ctx2)
  {
  }

  /** When both scales accept a record they agree on the critical flag. */
  lemma CriticalSameOnBothScales(ctx: Context)
    requires ScoreSpec(FussCriteria, ctx).Ok? && ScoreSpec(AussCriteria, ctx).Ok?
    ensures ScoreSpec(FussCriteria, ctx).value.critical == ScoreSpec(AussCriteria, ctx).value.critical
  {
  }
}
