# Keratitis severity scoring — a verified model

This project models the scoring engine of a clinical decision aid for infectious
keratitis. The engine takes one clinical-observation record (a dictionary of field
codes filled in by an ophthalmologist) and runs it through five stages:

1. **Normalisers.** Three functions bucket raw measurements into ordinal categories:
   ulcer size in millimetres, minimum corneal thickness and mean corneal thickness.
2. **Scoring.** There are two scales: FUSS for fungal keratitis and AUSS for
   acanthamoeba keratitis.
   - Each builds a labelled per-criterion breakdown from fixed point tables, in a
     fixed order (23 entries for FUSS, 28 for AUSS).
   - Each sums the breakdown into a total score.
   - Each sets a *critical* flag when perforation is imminent: the minimum thickness
     is under 200 µm, or the ulcer is a descemetocele.
3. **Severity.** The score, the scale and the critical flag are graded into four
   bands: Лёгкая, Средняя, Тяжёлая and Крайне тяжёлая (mild to extremely severe).
4. **Debridement choice.** For a modified UV cross-linking, the engine picks one of
   two techniques:
   - a femtosecond-laser flap;
   - scarification of the infiltrate under OCT control.
5. **Recommendation.** The engine assembles the treatment text from fixed
   sentences, ending with a follow-up interval.

The report file names are modelled as well, with the report date passed in as a
parameter.

Modules, one file each:

- `values.dfy` (`Values`): the record and its values, and the failures a lookup can
  raise. The record is `map<string, Value>`, where a value is a whole number or a
  text code.
- `breakpoints.dfy` (`Breakpoints`): counting breakpoints below or above a value.
  This is the reference definition of every ordinal bucket and band.
- `normalisers.dfy` (`Normalisers`): the three bucket functions.
- `criteria.dfy`:
  - `Criteria` holds the point tables as data. Each criterion has a label, a record
    key, an optional default, a normaliser and a point table. Both scales' criteria
    are listed in breakdown order.
  - `CriteriaFacts` holds what is proved about the tables: distinct labels, maximum
    totals, and the tables shared between the scales.
- `scoring.dfy` (`Scoring`):
  - the specification `ScoreSpec`;
  - the imperative `Breakdown`, `Total` and `Score`, proved against it;
  - the two entry points, `ComputeFuss` and `ComputeAuss`.
- `scoring_facts.dfy` (`ScoringFacts`): required and optional fields, the minimal
  record, and the critical flag as it shows in the breakdown.
- `severity.dfy` (`Severity`): grading a score.
- `recommendation.dfy` (`Recommendation`): the debridement choice, the follow-up
  interval and the treatment text.
- `pipeline.dfy` (`Pipeline`): facts that span several stages.
- `report.dfy` (`Report`): the ISO date and the two report file names.

A lookup that Python would answer with `KeyError` or `ValueError` is an `Err`
result here. This covers three cases:
- a missing required field;
- a value that is not a key of its criterion's table;
- a field read as a whole number that holds text.

Every such path is modelled. None is excluded by a precondition.

## Model

| member | source | states |
|---|---|---|
| Normalisers.CatSizeMm | scoring.py:10-17 | each size bucket holds exactly its range, upper bound included: "<=2" iff mm ≤ 2, "2-4" iff 2 < mm ≤ 4, "4-6" iff 4 < mm ≤ 6, ">6" iff mm > 6 |
| Normalisers.CatMinThickness | scoring.py:20-27 | ">=400" iff ≥ 400, "300-399" iff 300..399, "200-299" iff 200..299, "<200" iff < 200 (negative values included), so every integer falls in exactly one bucket |
| Normalisers.CatMeanThickness | scoring.py:30-37 | the same for breakpoints 600/520/450 |
| Normalisers.CatSizeByBreakpoints | scoring.py:10-17 | the size bucket is the category indexed by the number of breakpoints (2, 4, 6) strictly below the size |
| Normalisers.CatMinThicknessByBreakpoints | scoring.py:20-27 | the minimum-thickness bucket is the category indexed by the number of breakpoints (400, 300, 200) strictly above the value |
| Normalisers.CatMeanThicknessByBreakpoints | scoring.py:30-37 | the mean-thickness bucket is the category indexed by the number of breakpoints (600, 520, 450) strictly above the value |
| Normalisers.CatSizeMonotone | scoring.py:10-17 | a larger ulcer never lands in a smaller-size bucket |
| Normalisers.CatMinThicknessMonotone | scoring.py:20-27 | a thicker cornea never lands in a thinner minimum-thickness bucket |
| Normalisers.CatMeanThicknessMonotone | scoring.py:30-37 | a thicker cornea never lands in a thinner mean-thickness bucket |
| Breakpoints.CountBelowMonotone | scoring.py:10-17 | a larger value never has fewer breakpoints below it |
| Breakpoints.CountAboveAntitone | scoring.py:20-37 | a larger value never has more breakpoints above it |
| Criteria.Lookup | scoring.py:51-92 | a dictionary lookup: it succeeds exactly when the value is a key of the table, and then yields the points stored with that key |
| CriteriaFacts.FussTitles | scoring.py:51-92 | FUSS writes 23 entries under 23 pairwise different labels, so no assignment overwrites an earlier one |
| CriteriaFacts.AussTitles | scoring.py:102-145 | AUSS writes 28 entries under 28 pairwise different labels |
| CriteriaFacts.FussMaxTotal | scoring.py:51-92 | the largest entries of the FUSS tables add up to 74 |
| CriteriaFacts.AussMaxTotal | scoring.py:102-145 | the largest entries of the AUSS tables add up to 94 |
| CriteriaFacts.AnteriorChamberDiverges | scoring.py:69-70 | the FUSS and AUSS anterior-chamber tables (the AUSS one is at line 124) accept the same values and agree on all of them except "not_visible", which gives 4 in FUSS and 2 in AUSS |
| CriteriaFacts.SharedCriteriaAgree | scoring.py:102-145 | any criterion both scales label alike has the same key, default and table in both, except the anterior chamber's |
| Scoring.FieldValue | scoring.py:51-92 | a field read with `ctx.get(key, default)` or `ctx[key]`: the stored value when present, else the default; it fails with a missing-field error exactly when the field is absent and has no default |
| Scoring.TableKey | scoring.py:76-79 | the table key of a value: the value itself, or for the two thickness criteria its bucket; it fails exactly when a thickness value is not a whole number |
| Scoring.Points | scoring.py:51-92 | the points on one criterion are always an entry of its table; an absent field without a default fails with that field's missing-field error |
| Scoring.PointsByTable | scoring.py:51-92 | once the field value and its table key are read, the criterion succeeds exactly when the key is in its table, earns the points stored with that key, and otherwise fails with a not-in-table error naming the criterion and the key |
| Scoring.Sum | scoring.py:94 | the sum of the breakdown's points, never negative when no entry is negative (the partner loop is `Scoring.Total`) |
| Scoring.Critical | scoring.py:95 | a descemetocele is critical; a present numeric minimum thickness under 200 µm is critical; without a thickness field (read as 400 µm) only a descemetocele is |
| Scoring.ScoreSpec | scoring.py:47-96 | scoring fails exactly when some criterion's lookup fails; otherwise the breakdown has one entry per criterion, labelled with the criteria's labels in order |
| Scoring.Evaluate | scoring.py:48-92 | a successful breakdown has one entry per criterion |
| Scoring.EvaluateEntries | scoring.py:48-92 | entry k of a breakdown is criterion k's label paired with the points the record earns on it |
| Scoring.EvaluateLabels | scoring.py:48-92 | the breakdown's labels are the criteria's labels, in order |
| Scoring.FirstFailure | scoring.py:51-92 | a failed scoring reports the failure of the first failing criterion, and every earlier criterion succeeds |
| Scoring.EvaluateFails | scoring.py:51-92 | scoring fails exactly when some criterion's lookup fails |
| Scoring.PointsBounded | scoring.py:51-92 | the points on a criterion never exceed the largest entry of its table |
| Scoring.SumBounded | scoring.py:94 | a breakdown's sum lies between 0 and the criteria's largest total |
| Scoring.Breakdown | scoring.py:48-92 | the loop that writes the entries one by one yields exactly the specified breakdown, or the first failure |
| Scoring.Total | scoring.py:94 | the summing loop yields the sum of the breakdown's points |
| Scoring.Score | scoring.py:47-96 | the result is the specified breakdown, its sum and the critical flag |
| Scoring.ComputeFuss | scoring.py:47-96 | the specified result; it fails iff some criterion fails; on success, 23 distinct labels in source order and a score that equals the breakdown's sum and lies in 0..74 |
| Scoring.ComputeAuss | scoring.py:99-149 | the specified result; it fails iff some criterion fails; on success, 28 distinct labels in source order and a score that equals the breakdown's sum and lies in 0..94 |
| ScoringFacts.FussBaseline | scoring.py:51-92 | in FUSS, a criterion has a default exactly when its key is not size, localization or depth; the default earns 0 points; the minimal record earns 0 on every criterion |
| ScoringFacts.AussBaseline | scoring.py:102-145 | the same for every AUSS criterion |
| ScoringFacts.ValueOutsideTable | scoring.py:51-145 | a stored value that is not a key of its criterion's table fails that criterion with a not-in-table error, and the whole scale fails |
| ScoringFacts.FussPainOutOfRange | scoring.py:51 | FUSS fails on a record whose pain grade is 5, which is not a key of the pain table |
| ScoringFacts.AbsentField | scoring.py:51-92 | an absent optional field earns 0 points; an absent required field fails with a missing-field error, and the whole scale fails |
| ScoringFacts.FussAbsentOptional | scoring.py:51-92 | every FUSS field read with a default earns 0 points when absent |
| ScoringFacts.FussMissingRequired | scoring.py:57-60 | FUSS fails when size, localization or depth is missing |
| ScoringFacts.AussAbsentOptional | scoring.py:102-145 | every AUSS field read with a default earns 0 points when absent |
| ScoringFacts.AussMissingRequired | scoring.py:113-116 | AUSS fails when size, localization or depth is missing |
| ScoringFacts.AllZeroScoresZero | scoring.py:94 | when every criterion earns 0, scoring succeeds with total 0 |
| ScoringFacts.SuperficialNotCritical | scoring.py:95 | every record without a minimum-thickness field whose depth is "superficial" is not critical |
| ScoringFacts.FussMinimalRecord | scoring.py:47-96 | FUSS scores the minimal record (size "<=2", peripheral, superficial, nothing else) 0, not critical |
| ScoringFacts.AussMinimalRecord | scoring.py:99-149 | AUSS scores the minimal record 0, not critical |
| ScoringFacts.MinThicknessSix | scoring.py:77-78 | the minimum-thickness entry is 6 exactly when the measured (or default 400) thickness buckets to "<200" |
| ScoringFacts.DepthSix | scoring.py:60 | the depth entry is 6 exactly for a descemetocele |
| ScoringFacts.CriticalByEntries | scoring.py:95 | the critical flag is set exactly when the minimum-thickness entry or the depth entry reaches 6 |
| ScoringFacts.FussCritical | scoring.py:95 | in a FUSS result, critical iff breakdown entry 16 (minimum thickness) or entry 8 (depth) is 6 |
| ScoringFacts.AussCritical | scoring.py:148 | in an AUSS result, critical iff breakdown entry 19 (minimum thickness) or entry 12 (depth) is 6 |
| ScoringFacts.CriticalReadsTwoFields | scoring.py:95 | records that agree on minimum thickness and depth agree on the flag, whatever else they hold |
| ScoringFacts.CriticalSameOnBothScales | scoring.py:148 | when both scales accept a record, they agree on the critical flag |
| Severity.Thresholds | scoring.py:155-170 | three strictly increasing band thresholds per scale |
| Severity.SeverityFromScore | scoring.py:152-170 | critical gives "Крайне тяжёлая"; otherwise the upper-inclusive bands ≤16/≤26/≤36 for "FUSS" and ≤18/≤30/≤42 for every other scale name, each band iff its range |
| Severity.SeverityByThresholds | scoring.py:155-170 | without the flag, the grade's rank is the number of thresholds the score exceeds |
| Severity.SeverityMonotone | scoring.py:155-170 | on a fixed scale, a higher score never gets a milder grade |
| Severity.CriticalRaisesGrade | scoring.py:153-154 | the critical flag only raises the grade, to the top one |
| Severity.Grade.Label | scoring.py:152-170 | the four label strings the grading returns; `Severity.LabelsDistinct` proves they are pairwise different |
| Severity.LabelsDistinct | scoring.py:152-170 | different grades carry different labels |
| Recommendation.IntField | scoring.py:174-179 | a field read as a whole number succeeds iff it is absent or numeric, and yields the stored number or the default |
| Recommendation.FemtoIndicated | scoring.py:181-182 | the femtosecond-flap condition: both thickness fields present and ≥ 400/600 µm, no local thinning, and a central or paracentral ulcer, a total leucoma or grade-2 oedema; `Recommendation.ChooseDebridement` is proved to pick the flap exactly when it holds |
| Recommendation.ChooseDebridement | scoring.py:173-185 | it fails iff a numeric field holds text; otherwise femtosecond flap iff both thickness measurements are present and at least 400/600 µm, there is no local thinning, and the ulcer is central or paracentral, or there is a total leucoma, or grade-2 oedema; scarification otherwise |
| Recommendation.FollowupTiming | scoring.py:188-195 | the result is one of the four follow-up texts |
| Recommendation.FollowupByPosition | scoring.py:188-195 | the text is the one at the label's position among the three milder labels, and the last one for any other label |
| Recommendation.FollowupDistinct | scoring.py:188-195 | the four grades get four different follow-up texts |
| Recommendation.RecommendTreatment | scoring.py:198-219 | a critical result always gets the emergency text; the recommendation fails only for a non-critical result whose numeric fields hold text; the per-label lemmas below state each branch's text |
| Recommendation.RecommendEmergency | scoring.py:200-204 | critical or extremely severe gives the emergency keratoplasty text, whatever the record |
| Recommendation.RecommendMild | scoring.py:206-208 | a mild, non-critical result gets drug therapy plus the 5–7-day follow-up |
| Recommendation.RecommendModerate | scoring.py:210-213 | moderate gives "Модифицированный " + the chosen technique + "." and the 48–72-hour follow-up; it fails iff the technique choice does |
| Recommendation.RecommendSevere | scoring.py:214-219 | severe gives the same first line as moderate, then the progressive-thinning warning, then the 24–48-hour follow-up |
| Recommendation.RecommendOtherLabel | scoring.py:214-219 | any unknown label is treated like severe, with the most urgent follow-up |
| Recommendation.RecommendIgnoresScoreAndScale | scoring.py:198 | the recommendation does not depend on the score or the scale it is given |
| Recommendation.EmergencyExactly | scoring.py:198-219 | for a graded result, the emergency text comes out exactly when the result is critical or extremely severe |
| Pipeline.EmergencyIffCriticalOrTopBand | scoring.py:152-204 | grading and then recommending yields emergency keratoplasty exactly when the result is critical or the score exceeds 36 (FUSS) or 42 (other scales) |
| Pipeline.MissingThicknessReadTwoWays | scoring.py:174 | without a minimum-thickness measurement, scoring gives 0 points (it assumes 400 µm), while the technique choice assumes 0 µm and picks scarification |
| Report.PaddedRoundTrip | scoring.py:237 | reading back a zero-padded number gives the number |
| Report.DigitsRoundTrip | scoring.py:237 | padding a digit string's value to its own width gives the string back |
| Report.IsoFormat | scoring.py:237 | the ISO date is 10 characters: four digits, "-", two digits, "-", two digits |
| Report.IsoRoundTrip | scoring.py:237 | the ISO form reads back to the date it was made from |
| Report.Underscored | scoring.py:259 | every space is replaced by "_", and every other character is unchanged |
| Report.SafeIdentifier | scoring.py:259 | the result has no spaces; it is the card number with spaces replaced when the number is non-empty, else the name with spaces replaced when that is non-empty, else "patient" |
| Report.WebFilename | scoring.py:237 | the web report's name is the scale, "_", the ISO date and ".docx" |
| Report.LocalFilename | scoring.py:260 | the local report's name is the scale, "_", the patient part, "_", the ISO date and ".docx" |
| Report.DateFromFilenames | scoring.py:237 | the report date can be read back from either file name |
| Report.FilenamesDistinguishDates | scoring.py:237 | two web reports of different dates never share a name |

## Left out

- The user interface (`app.py`) is not part of this model. It collects the record,
  calls the engine and offers the downloads. Its own size bucketing duplicates
  `CatSizeMm`.
- Document construction is not modelled: the `docx` calls, `BytesIO` and the saved
  bytes. Only the file names are modelled.
- The report date comes from the system clock in the program. Here it is a
  parameter.
- Python's `int(...)` coercion is modelled for whole numbers and text only:
  - a text thickness or a text debridement field is an error;
  - numeric strings such as "350" are not parsed;
  - floats are not truncated.
- Record values are whole numbers or text. Python's mixing of `bool`, `float` and
  `int` as dictionary keys (`True == 1`, `1.0 == 1`) is not modelled.
- Python distinguishes `KeyError` from `ValueError`. Both become `Err` results,
  with a reason.
- A point table is a list of pairs searched from the front. The source's
  dictionaries have unique keys, so the first match is the only one.
- Ulcer size is a `real`. Only its comparisons against 2, 4 and 6 matter.
- `ComputeFuss`/`ComputeAuss` are written as a loop over a table of criteria. The
  source unrolls one assignment per criterion. The order, labels, keys, defaults and
  tables are the source's, and the breakdown is the same sequence of entries.
- Recommendation.RecommendTreatment: its own postcondition covers only the critical
  case and when it can fail. The text of each branch is stated by the `Recommend…`
  and `EmergencyExactly` lemmas.
- `Report.SafeIdentifier` treats only the empty string as a missing name or number.
  A `None` argument is not modelled, since both parameters are strings.
- The emergency text and the drug-therapy text are written as concatenations of two
  literals. The text is unchanged.
