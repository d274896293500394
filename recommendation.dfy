/** Treatment recommendation: the debridement technique for a modified UV
    cross-linking, the follow-up interval, and the assembled recommendation text. */
module Recommendation {
  import opened Values
  import opened Breakpoints
  import opened Severity

  const FemtoText :=
    "УФ-кросслинкинг с формированием и удалением роговичного лоскута с использованием фемтосекундного лазера"
  const ScarText := "УФ-кросслинкинг со скарификацией язвенного инфильтрата под ОКТ-контролем"
  // The two texts below are written as concatenations so that their first letters are
  // visible to the verifier.
  const EmergencyText :=
    "Экстренная терапевтическая кератопластика.\n"
    + "После стойкой стабилизации и элиминации возбудителя возможно рассмотрение отсроченной оптической кератопластики."
  const MedicalText := "Медикаментозная терапия " + "по этиотропной схеме с динамическим контролем."
  const ThinningWarning := "При признаках прогрессирующего истончения — переход к экстренной терапевтической кератопластике."
  const ModifiedPrefix := "Модифицированный "

  /** Follow-up texts for mild, moderate and severe results, then the one used for
      every other label. */
  const FollowupTexts: seq<string> := [
    "Рекомендуется повторная оценка по шкале через 5–7 суток или раньше при ухудшении.",
    "Рекомендуется повторная оценка по шкале через 48–72 часа.",
    "Рекомендуется повторная оценка по шкале через 24–48 часов.",
    "Повторная оценка по шкале в ближайшие 24 часа/по клиническим показаниям."]

  /** Labels with their own follow-up text, in the order of FollowupTexts. */
  const FollowupLabels: seq<string> := [Mild.Label(), Moderate.Label(), Severe.Label()]

  /** A field read as a whole number, with its default when absent. */
  function IntField(ctx: Context, key: string, default: int): (r: Result<int>)
    ensures r.Ok? <==> key !in ctx || ctx[key].Int?
    ensures r.Ok? ==> r.value == (if key in ctx then ctx[key].n else default)
  {
    var v := Get(ctx, key, Int(default));
    if v.Int? then Ok(v.n) else Err(NotAnInteger(key))
  }

  /** A field that is absent or holds a number. */
  predicate IntOrAbsent(ctx: Context, key: string)
  {
    key !in ctx || ctx[key].Int?
  }

  /** Every field the debridement choice reads as a number is absent or a number. */
  predicate NumericFields(ctx: Context)
  {
    IntOrAbsent(ctx, "min_thickness_um") && IntOrAbsent(ctx, "mean_thickness_um")
    && IntOrAbsent(ctx, "pachy_uneven") && IntOrAbsent(ctx, "total_leucoma")
    && IntOrAbsent(ctx, "edema")
  }

  /** A field that is present and holds the number `n`. */
  predicate Holds(ctx: Context, key: string, n: int)
  {
    key in ctx && ctx[key] == Int(n)
  }

  /** A field that is present and holds a number of at least `n`. */
  predicate AtLeast(ctx: Context, key: string, n: int)
  {
    key in ctx && ctx[key].Int? && ctx[key].n >= n
  }

  /** When the femtosecond flap is the technique of choice: both thickness
      measurements recorded and thick enough, no local thinning, and a central or
      paracentral ulcer, a total leucoma or grade-2 oedema. */
  predicate FemtoIndicated(ctx: Context)
  {
    AtLeast(ctx, "min_thickness_um", 400) && AtLeast(ctx, "mean_thickness_um", 600)
    && ("pachy_uneven" !in ctx || Holds(ctx, "pachy_uneven", 0))
    && (("localization" in ctx && ctx["localization"] in {Str("paracentral"), Str("central")})
        || Holds(ctx, "total_leucoma", 1) || Holds(ctx, "edema", 2))
  }

  /** Debridement technique: femtosecond flap or scarification under OCT control.
      Absent measurements count as 0 um, so without OCT data the choice is scarification. */
  function ChooseDebridement(ctx: Context): (r: Result<string>)
    ensures r.Ok? <==> NumericFields(ctx)
    ensures r.Ok? ==> (r.value == FemtoText <==> FemtoIndicated(ctx))
    ensures r.Ok? ==> (r.value == ScarText <==> !FemtoIndicated(ctx))
  {
    var minUm :- IntField(ctx, "min_thickness_um", 0);
    var meanUm :- IntField(ctx, "mean_thickness_um", 0);
    var pachyUneven :- IntField(ctx, "pachy_uneven", 0);
    var localization := Get(ctx, "localization", Str("peripheral"));
    var totalLeucoma :- IntField(ctx, "total_leucoma", 0);
    var edema :- IntField(ctx, "edema", 0);
    var thicknessOk := minUm >= 400 && meanUm >= 600 && pachyUneven == 0;
    var femtoPrefer := thicknessOk &&
      (localization in [Str("paracentral"), Str("central")] || totalLeucoma == 1 || edema == 2);
    Ok(if femtoPrefer then FemtoText else ScarText)
  }

  /** Follow-up interval for a severity label; any label but the three milder ones
      gets the most urgent text. */
  function FollowupTiming(severity: string): (r: string)
    ensures r in FollowupTexts
  {
    if severity == "Лёгкая" then FollowupTexts[0]
    else if severity == "Средняя" then FollowupTexts[1]
    else if severity == "Тяжёлая" then FollowupTexts[2]
    else FollowupTexts[3]
  }

  /** The follow-up text is the one in the label's position, the last for any other label. */
  lemma FollowupByPosition(severity: string)
    ensures FollowupTiming(severity) == FollowupTexts[Position(severity, FollowupLabels)]
  {
  }

  /** The four grades get four different follow-up texts. */
  lemma FollowupDistinct(a: Grade, b: Grade)
    ensures FollowupTiming(a.Label()) == FollowupTiming(b.Label()) <==> a == b
  {
  }

  /** Treatment recommendation. Score and scale are accepted but never read. */
  function RecommendTreatment(scale: string, severity: string, score: int, ctx: Context,
                              critical: bool): (r: Result<string>)
    ensures critical ==> r == Ok(EmergencyText)
    ensures r.Err? ==> !critical && !NumericFields(ctx)
  {
    if critical || severity == "Крайне тяжёлая" then Ok(EmergencyText)
    else if severity == "Лёгкая" then Ok(MedicalText + "\n" + FollowupTiming(severity))
    else
      var base :- ChooseDebridement(ctx);
      if severity == "Средняя" then Ok(ModifiedPrefix + base + ".\n" + FollowupTiming(severity))
      else Ok(ModifiedPrefix + base + ".\n" + ThinningWarning + "\n" + FollowupTiming(severity))
  }

  /** A critical or extremely severe result always gets emergency keratoplasty. */
  lemma RecommendEmergency(scale: string, severity: string, score: int, ctx: Context, critical: bool)
    requires critical || severity == ExtremelySevere.Label()
    ensures RecommendTreatment(scale, severity, score, ctx, critical) == Ok(EmergencyText)
  {
  }

  /** A mild, non-critical result gets drug therapy and a follow-up in 5 to 7 days. */
  lemma RecommendMild(scale: string, score: int, ctx: Context)
    ensures RecommendTreatment(scale, Mild.Label(), score, ctx, false)
         == Ok(MedicalText + "\n" + FollowupTexts[0])
  {
  }

  /** A moderate result gets the modified cross-linking with the chosen debridement
      and a follow-up in 48 to 72 hours; it fails only when the debridement choice does. */
  lemma RecommendModerate(scale: string, score: int, ctx: Context)
    ensures var r := RecommendTreatment(scale, Moderate.Label(), score, ctx, false);
      (r.Ok? <==> NumericFields(ctx)) &&
      (r.Ok? ==> r.value == ModifiedPrefix + ChooseDebridement(ctx).value + ".\n" + FollowupTexts[1])
  {
  }

  /** A severe result gets the same first line as a moderate one, then the
      progressive-thinning warning, then a follow-up in 24 to 48 hours. */
  lemma RecommendSevere(scale: string, score: int, ctx: Context)
    ensures var r := RecommendTreatment(scale, Severe.Label(), score, ctx, false);
      (r.Ok? <==> NumericFields(ctx)) &&
      (r.Ok? ==> r.value == ModifiedPrefix + ChooseDebridement(ctx).value + ".\n"
                            + ThinningWarning + "\n" + FollowupTexts[2])
  {
  }

  /** Any other label is handled like a severe one, with the most urgent follow-up. */
  lemma RecommendOtherLabel(scale: string, severity: string, score: int, ctx: Context)
    requires severity !in {Mild.Label(), Moderate.Label(), Severe.Label(), ExtremelySevere.Label()}
    ensures var r := RecommendTreatment(scale, severity, score, ctx, false);
      (r.Ok? <==> NumericFields(ctx)) &&
      (r.Ok? ==> r.value == ModifiedPrefix + ChooseDebridement(ctx).value + ".\n"
                            + ThinningWarning + "\n" + FollowupTexts[3])
  {
  }

  /** The recommendation reads neither the score nor the scale. */
  lemma RecommendIgnoresScoreAndScale(scale1: string, scale2: string, severity: string,
                                      score1: int, score2: int, ctx: Context, critical: bool)
    ensures RecommendTreatment(scale1, severity, score1, ctx, critical)
         == RecommendTreatment(scale2, severity, score2, ctx, critical)
  {
  }

  /** For a graded result, emergency keratoplasty is recommended exactly when the result
      is critical or extremely severe: every other recommendation starts differently. */
  lemma EmergencyExactly(scale: string, g: Grade, score: int, ctx: Context, critical: bool)
    ensures RecommendTreatment(scale, g.Label(), score, ctx, critical) == Ok(EmergencyText)
        <==> critical || g == ExtremelySevere
  {
    var r := RecommendTreatment(scale, g.Label(), score, ctx, critical);
    if !critical && g != ExtremelySevere && r.Ok? {
      assert EmergencyText[0] == 'Э';
      if g == Mild {
        assert MedicalText[0] == 'М';
        assert r.value[0] == MedicalText[0];
      } else {
        assert r.value[0] == ModifiedPrefix[0] == 'М';
      }
    }
  }
}
