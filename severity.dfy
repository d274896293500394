/** Severity grading: a total score on one of the two scales, together with the
    critical flag, graded into four ordered bands. */
module Severity {
  import opened Breakpoints

  /** The four grades, mildest first. */
  datatype Grade = Mild | Moderate | Severe | ExtremelySevere
  {
    /** The label shown to the clinician and passed on to the recommender. */
    function Label(): string
    {
      match this
      case Mild => "Лёгкая"
      case Moderate => "Средняя"
      case Severe => "Тяжёлая"
      case ExtremelySevere => "Крайне тяжёлая"
    }

    /** Position of the grade from mildest (0) to most severe (3). */
    function Rank(): nat
    {
      match this
      case Mild => 0
      case Moderate => 1
      case Severe => 2
      case ExtremelySevere => 3
    }
  }

  /** The grades in rank order. */
  const Grades: seq<Grade> := [Mild, Moderate, Severe, ExtremelySevere]

  /** Upper bounds of the three milder bands; FUSS has its own, every other scale
      name is graded like AUSS. */
  function Thresholds(scale: string): (t: seq<real>)
    ensures |t| == 3 && t[0] < t[1] < t[2]
  {
    if scale == "FUSS" then [16.0, 26.0, 36.0] else [18.0, 30.0, 42.0]
  }

  /** Grade of a total score; a critical result is always graded extremely severe. */
  function SeverityFromScore(score: int, scale: string, critical: bool): (r: Grade)
    ensures critical ==> r == ExtremelySevere
    ensures !critical && scale == "FUSS" ==>
      (r == Mild <==> score <= 16) && (r == Moderate <==> 16 < score <= 26) &&
      (r == Severe <==> 26 < score <= 36) && (r == ExtremelySevere <==> 36 < score)
    ensures !critical && scale != "FUSS" ==>
      (r == Mild <==> score <= 18) && (r == Moderate <==> 18 < score <= 30) &&
      (r == Severe <==> 30 < score <= 42) && (r == ExtremelySevere <==> 42 < score)
  {
    if critical then ExtremelySevere
    else if scale == "FUSS" then
      if score <= 16 then Mild
      else if score <= 26 then Moderate
      else if score <= 36 then Severe
      else ExtremelySevere
    else
      if score <= 18 then Mild
      else if score <= 30 then Moderate
      else if score <= 42 then Severe
      else ExtremelySevere
  }

  /** Without the critical flag, the grade's rank is the number of band thresholds the
      score exceeds. */
  lemma SeverityByThresholds(score: int, scale: string)
    ensures SeverityFromScore(score, scale, false) == Grades[CountBelow(score as real, Thresholds(scale))]
    ensures SeverityFromScore(score, scale, false).Rank() == CountBelow(score as real, Thresholds(scale))
  {
    CountThree(score as real, Thresholds(scale));
  }

  /** On a fixed scale a higher score never gets a milder grade. */
  lemma SeverityMonotone(a: int, b: int, scale: string)
    requires a <= b
    ensures SeverityFromScore(a, scale, false).Rank() <= SeverityFromScore(b, scale, false).Rank()
  {
    SeverityByThresholds(a, scale);
    SeverityByThresholds(b, scale);
    CountBelowMonotone(a as real, b as real, Thresholds(scale));
  }

  /** The critical flag only ever raises the grade, to the top one. */
  lemma CriticalRaisesGrade(score: int, scale: string)
    ensures SeverityFromScore(score, scale, false).Rank() <= SeverityFromScore(score, scale, true).Rank()
    ensures SeverityFromScore(score, scale, true).Rank() == |Thresholds(scale)|
  {
    SeverityByThresholds(score, scale);
  }

  /** Different grades carry different labels, so a label determines its grade. */
  lemma LabelsDistinct(a: Grade, b: Grade)
    ensures a.Label() == b.Label() <==> a == b
  {
  }
}
