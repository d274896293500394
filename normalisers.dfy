/** The three category normalisers: ulcer size in millimetres, minimum corneal
    thickness and mean corneal thickness, each mapped onto four ordinal buckets. */
module Normalisers {
  import opened Breakpoints

  /** Ulcer-size buckets, smallest first, and the breakpoints (mm) between them. */
  const SizeCategories: seq<string> := ["<=2", "2-4", "4-6", ">6"]
  const SizeBreakpoints: seq<real> := [2.0, 4.0, 6.0]

  /** Minimum-thickness buckets, thickest first, and the breakpoints (um) between them. */
  const MinThicknessCategories: seq<string> := [">=400", "300-399", "200-299", "<200"]
  const MinThicknessBreakpoints: seq<real> := [400.0, 300.0, 200.0]

  /** Mean-thickness buckets, thickest first, and the breakpoints (um) between them. */
  const MeanThicknessCategories: seq<string> := [">=600", "520-599", "450-519", "<450"]
  const MeanThicknessBreakpoints: seq<real> := [600.0, 520.0, 450.0]

  /** Bucket of an ulcer size; each bucket includes its upper bound. */
  function CatSizeMm(mm: real): (r: string)
    ensures r == "<=2" <==> mm <= 2.0
    ensures r == "2-4" <==> 2.0 < mm <= 4.0
    ensures r == "4-6" <==> 4.0 < mm <= 6.0
    ensures r == ">6" <==> 6.0 < mm
  {
    if mm <= 2.0 then "<=2"
    else if mm <= 4.0 then "2-4"
    else if mm <= 6.0 then "4-6"
    else ">6"
  }

  /** Bucket of a minimum corneal thickness; every integer, negative ones included,
      falls in exactly one bucket. */
  function CatMinThickness(um: int): (r: string)
    ensures r == ">=400" <==> um >= 400
    ensures r == "300-399" <==> 300 <= um <= 399
    ensures r == "200-299" <==> 200 <= um <= 299
    ensures r == "<200" <==> um < 200
  {
    if um >= 400 then ">=400"
    else if 300 <= um <= 399 then "300-399"
    else if 200 <= um <= 299 then "200-299"
    else "<200"
  }

  /** Bucket of a mean corneal thickness, with breakpoints 600, 520 and 450. */
  function CatMeanThickness(um: int): (r: string)
    ensures r == ">=600" <==> um >= 600
    ensures r == "520-599" <==> 520 <= um <= 599
    ensures r == "450-519" <==> 450 <= um <= 519
    ensures r == "<450" <==> um < 450
  {
    if um >= 600 then ">=600"
    else if 520 <= um <= 599 then "520-599"
    else if 450 <= um <= 519 then "450-519"
    else "<450"
  }

  /** The size bucket is the one indexed by the number of breakpoints below the size. */
  lemma CatSizeByBreakpoints(mm: real)
    ensures CatSizeMm(mm) == SizeCategories[CountBelow(mm, SizeBreakpoints)]
  {
    CountThree(mm, SizeBreakpoints);
  }

  /** The minimum-thickness bucket is the one indexed by the number of breakpoints above it. */
  lemma CatMinThicknessByBreakpoints(um: int)
    ensures CatMinThickness(um) == MinThicknessCategories[CountAbove(um as real, MinThicknessBreakpoints)]
  {
    CountThree(um as real, MinThicknessBreakpoints);
  }

  /** The mean-thickness bucket is the one indexed by the number of breakpoints above it. */
  lemma CatMeanThicknessByBreakpoints(um: int)
    ensures CatMeanThickness(um) == MeanThicknessCategories[CountAbove(um as real, MeanThicknessBreakpoints)]
  {
    CountThree(um as real, MeanThicknessBreakpoints);
  }

  /** A larger ulcer never falls in a smaller-size bucket. */
  lemma CatSizeMonotone(a: real, b: real)
    requires a <= b
    ensures Position(CatSizeMm(a), SizeCategories) <= Position(CatSizeMm(b), SizeCategories)
  {
    CatSizeByBreakpoints(a);
    CatSizeByBreakpoints(b);
    CountBelowMonotone(a, b, SizeBreakpoints);
  }

  /** A thicker cornea never falls in a thinner minimum-thickness bucket. */
  lemma CatMinThicknessMonotone(a: int, b: int)
    requires a <= b
    ensures Position(CatMinThickness(b), MinThicknessCategories)
         <= Position(CatMinThickness(a), MinThicknessCategories)
  {
    CatMinThicknessByBreakpoints(a);
    CatMinThicknessByBreakpoints(b);
    CountAboveAntitone(a as real, b as real, MinThicknessBreakpoints);
  }

  /** A thicker cornea never falls in a thinner mean-thickness bucket. */
  lemma CatMeanThicknessMonotone(a: int, b: int)
    requires a <= b
    ensures Position(CatMeanThickness(b), MeanThicknessCategories)
         <= Position(CatMeanThickness(a), MeanThicknessCategories)
  {
    CatMeanThicknessByBreakpoints(a);
    CatMeanThicknessByBreakpoints(b);
    CountAboveAntitone(a as real, b as real, MeanThicknessBreakpoints);
  }
}
