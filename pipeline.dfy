/** How the stages fit together when a caller grades a scale's result and asks for
    the recommendation that goes with it. */
module Pipeline {
  import opened Values
  import opened Criteria
  import opened Scoring
  import opened Severity
  import opened Recommendation

  /** Emergency keratoplasty is recommended exactly when the result is critical or the
      score lies above the scale's highest band threshold (36 for FUSS, 42 otherwise). */
  lemma EmergencyIffCriticalOrTopBand(score: int, scale: string, ctx: Context, critical: bool)
    ensures var severity := SeverityFromScore(score, scale, critical).Label();
      RecommendTreatment(scale, severity, score, ctx, critical) == Ok(EmergencyText)
      <==> critical || score as real > Thresholds(scale)[2]
  {
    EmergencyExactly(scale, SeverityFromScore(score, scale, critical), score, ctx, critical);
  }

  /** Without an OCT minimum-thickness measurement, scoring assumes the best case
      (0 points, 400 um) while the debridement choice assumes the worst (0 um): such a
      record is never offered the femtosecond flap. */
  lemma MissingThicknessReadTwoWays(ctx: Context)
    requires "min_thickness_um" !in ctx && NumericFields(ctx)
    ensures Points(MinThickness, ctx) == Ok(0)
    ensures ChooseDebridement(ctx) == Ok(ScarText)
  {
  }
}
