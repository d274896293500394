/** The two scoring entry points: each walks its scale's criteria, writes one
    breakdown entry per criterion, sums the entries and sets the critical flag. */
module Scoring {
  import opened Values
  import opened Normalisers
  import opened Criteria
  import opened CriteriaFacts

  /** Total score, labelled per-criterion points in insertion order, critical flag. */
  datatype ScoreResult = ScoreResult(score: int, breakdown: seq<(string, int)>, critical: bool)

  /** The value a criterion reads: the stored one, its default, or a missing-key failure. */
  function FieldValue(c: Criterion, ctx: Context): (r: Result<Value>)
    ensures r.Err? <==> c.key !in ctx && c.default.None?
    ensures c.key in ctx ==> r == Ok(ctx[c.key])
    ensures c.key !in ctx && c.default.Some? ==> r == Ok(c.default.value)
  {
    if c.key in ctx then Ok(ctx[c.key])
    else if c.default.Some? then Ok(c.default.value)
    else Err(MissingField(c.key))
  }

  /** The table key for a field value; thickness values are first put in their bucket. */
  function TableKey(c: Criterion, v: Value): (r: Result<Value>)
    ensures r.Err? <==> !c.norm.AsIs? && !v.Int?
    ensures c.norm.AsIs? ==> r == Ok(v)
    ensures c.norm.MinThicknessBucket? && v.Int? ==> r == Ok(Str(CatMinThickness(v.n)))
    ensures c.norm.MeanThicknessBucket? && v.Int? ==> r == Ok(Str(CatMeanThickness(v.n)))
  {
    match c.norm
    case AsIs => Ok(v)
    case MinThicknessBucket => if v.Int? then Ok(Str(CatMinThickness(v.n))) else Err(NotAnInteger(c.key))
    case MeanThicknessBucket => if v.Int? then Ok(Str(CatMeanThickness(v.n))) else Err(NotAnInteger(c.key))
  }

  /** Points a record earns on one criterion. */
  function Points(c: Criterion, ctx: Context): (r: Result<nat>)
    ensures FieldValue(c, ctx).Err? ==> r.Err? && r.error == MissingField(c.key)
    ensures r.Ok? ==> exists k :: 0 <= k < |c.table| && c.table[k].1 == r.value
  {
    var v :- FieldValue(c, ctx);
    var k :- TableKey(c, v);
    var p := Lookup(c.table, k);
    if p.Some? then Ok(p.value) else Err(NotInTable(c.title, k))
  }

  /** The breakdown of a record over a list of criteria, or the first failure. */
  function Evaluate(cs: seq<Criterion>, ctx: Context): (r: Result<seq<(string, int)>>)
    ensures r.Ok? ==> |r.value| == |cs|
  {
    if cs == [] then Ok([])
    else
      var front :- Evaluate(cs[..|cs| - 1], ctx);
      var p :- Points(cs[|cs| - 1], ctx);
      Ok(front + [(cs[|cs| - 1].title, p)])
  }

  /** Sum of the points in a breakdown. */
  function Sum(bd: seq<(string, int)>): (s: int)
    ensures (forall k :: 0 <= k < |bd| ==> bd[k].1 >= 0) ==> s >= 0
  {
    if bd == [] then 0 else Sum(bd[..|bd| - 1]) + bd[|bd| - 1].1
  }

  /** Imminent perforation: minimum thickness (400 when absent) under 200 um, or a
      descemetocele. The same rule for both scales. */
  predicate Critical(ctx: Context)
    ensures "depth_cat" in ctx && ctx["depth_cat"] == Str("descemetocele") ==> Critical(ctx)
    ensures "min_thickness_um" in ctx && ctx["min_thickness_um"].Int? && ctx["min_thickness_um"].n < 200 ==> Critical(ctx)
    ensures "min_thickness_um" !in ctx && !("depth_cat" in ctx && ctx["depth_cat"] == Str("descemetocele")) ==> !Critical(ctx)
  {
    var m := Get(ctx, "min_thickness_um", Int(400));
    (m.Int? && CatMinThickness(m.n) == "<200")
    || ("depth_cat" in ctx && ctx["depth_cat"] == Str("descemetocele"))
  }

  /** What scoring a record over a list of criteria yields. */
  function ScoreSpec(cs: seq<Criterion>, ctx: Context): (r: Result<ScoreResult>)
    ensures r.Err? <==> exists k :: 0 <= k < |cs| && Points(cs[k], ctx).Err?
    ensures r.Ok? ==> |r.value.breakdown| == |cs| && Labels(r.value.breakdown) == Titles(cs)
  {
    EvaluateFails(cs, ctx);
    var bd :- Evaluate(cs, ctx);
    EvaluateLabels(cs, ctx);
    Ok(ScoreResult(Sum(bd), bd, Critical(ctx)))
  }

  // ---------------------------------------------------------------------------
  // Properties of the specification

  /** A breakdown has one entry per criterion, labelled with its title and holding
      the points the record earns on it. */
  lemma {:induction false} EvaluateEntries(cs: seq<Criterion>, ctx: Context)
    requires Evaluate(cs, ctx).Ok?
    ensures var bd := Evaluate(cs, ctx).value;
      |bd| == |cs| &&
      forall k :: 0 <= k < |cs| ==> Points(cs[k], ctx).Ok? && bd[k] == (cs[k].title, Points(cs[k], ctx).value)
  {
    if cs != [] {
      var front := cs[..|cs| - 1];
      EvaluateEntries(front, ctx);
      var bd, last := Evaluate(cs, ctx).value, cs[|cs| - 1];
      assert bd == Evaluate(front, ctx).value + [(last.title, Points(last, ctx).value)];
      forall k | 0 <= k < |cs|
        ensures Points(cs[k], ctx).Ok? && bd[k] == (cs[k].title, Points(cs[k], ctx).value)
      {
        if k < |front| {
          assert cs[k] == front[k];
        }
      }
    }
  }

  /** A failed scoring reports the failure of the first criterion that fails. */
  lemma {:induction false} FirstFailure(cs: seq<Criterion>, ctx: Context) returns (k: nat)
    requires Evaluate(cs, ctx).Err?
    ensures k < |cs| && Points(cs[k], ctx).Err?
    ensures Evaluate(cs, ctx).error == Points(cs[k], ctx).error
    ensures forall j :: 0 <= j < k ==> Points(cs[j], ctx).Ok?
  {
    var front := cs[..|cs| - 1];
    if Evaluate(front, ctx).Err? {
      k := FirstFailure(front, ctx);
      assert cs[k] == front[k];
      assert forall j :: 0 <= j < k ==> cs[j] == front[j];
    } else {
      EvaluateEntries(front, ctx);
      k := |cs| - 1;
      assert forall j :: 0 <= j < k ==> cs[j] == front[j];
    }
  }

  /** Scoring fails exactly when some criterion fails. */
  lemma EvaluateFails(cs: seq<Criterion>, ctx: Context)
    ensures Evaluate(cs, ctx).Err? <==> exists k :: 0 <= k < |cs| && Points(cs[k], ctx).Err?
  {
    if Evaluate(cs, ctx).Err? {
      var k := FirstFailure(cs, ctx);
    } else {
      EvaluateEntries(cs, ctx);
    }
  }

  /** Once a prefix of the criteria fails, scoring the whole list fails the same way. */
  lemma {:induction false} EvaluatePrefixFails(cs: seq<Criterion>, ctx: Context, n: nat)
    requires n <= |cs| && Evaluate(cs[..n], ctx).Err?
    ensures Evaluate(cs, ctx) == Evaluate(cs[..n], ctx)
    decreases |cs| - n
  {
    if n < |cs| {
      var front := cs[..|cs| - 1];
      assert front[..n] == cs[..n];
      EvaluatePrefixFails(front, ctx, n);
    } else {
      assert cs[..n] == cs;
    }
  }

  /** An entry of a table never exceeds the largest of the first n entries. */
  lemma {:induction false} MaxPointsBounds(table: seq<(Value, nat)>, n: nat, k: nat)
    requires k < n <= |table|
    ensures table[k].1 <= MaxPoints(table, n)
  {
    if k < n - 1 {
      MaxPointsBounds(table, n - 1, k);
    }
  }

  /** Once the field value and its table key are known, a criterion earns the points
      its table stores for that key, and fails with a not-in-table error exactly when
      the key is missing from the table. */
  lemma PointsByTable(c: Criterion, ctx: Context)
    requires FieldValue(c, ctx).Ok? && TableKey(c, FieldValue(c, ctx).value).Ok?
    ensures var key := TableKey(c, FieldValue(c, ctx).value).value;
      (Points(c, ctx).Ok? <==> exists k :: 0 <= k < |c.table| && c.table[k].0 == key)
      && (Points(c, ctx).Ok? ==> exists k :: 0 <= k < |c.table| && c.table[k] == (key, Points(c, ctx).value))
      && (Points(c, ctx).Err? ==> Points(c, ctx).error == NotInTable(c.title, key))
  {
  }

  /** Points come from the table, so never exceed its largest entry. */
  lemma PointsBounded(c: Criterion, ctx: Context)
    requires Points(c, ctx).Ok?
    ensures Points(c, ctx).value <= MaxPoints(c.table, |c.table|)
  {
    var key := TableKey(c, FieldValue(c, ctx).value).value;
    var k :| 0 <= k < |c.table| && c.table[k] == (key, Lookup(c.table, key).value);
    MaxPointsBounds(c.table, |c.table|, k);
  }

  /** The first n entries of a breakdown sum to at most the first n criteria's largest total. */
  lemma {:induction false} SumBounded(cs: seq<Criterion>, ctx: Context, n: nat)
    requires Evaluate(cs, ctx).Ok? && n <= |cs|
    ensures 0 <= Sum(Evaluate(cs, ctx).value[..n]) <= MaxTotal(cs, n)
  {
    EvaluateEntries(cs, ctx);
    if n > 0 {
      var bd := Evaluate(cs, ctx).value;
      SumBounded(cs, ctx, n - 1);
      PointsBounded(cs[n - 1], ctx);
      assert bd[..n][..n - 1] == bd[..n - 1];
    }
  }

  /** Labels of a breakdown, in order. */
  function Labels(bd: seq<(string, int)>): (ls: seq<string>)
    ensures |ls| == |bd| && forall k :: 0 <= k < |bd| ==> ls[k] == bd[k].0
  {
    if bd == [] then [] else Labels(bd[..|bd| - 1]) + [bd[|bd| - 1].0]
  }

  /** A breakdown carries the criteria's titles, in order. */
  lemma EvaluateLabels(cs: seq<Criterion>, ctx: Context)
    requires Evaluate(cs, ctx).Ok?
    ensures Labels(Evaluate(cs, ctx).value) == Titles(cs)
  {
    EvaluateEntries(cs, ctx);
  }

  /** Scoring one more criterion extends the breakdown by its entry, or fails with its failure. */
  lemma EvaluateStep(cs: seq<Criterion>, ctx: Context, i: nat)
    requires i < |cs| && Evaluate(cs[..i], ctx).Ok?
    ensures Evaluate(cs[..i + 1], ctx) ==
      if Points(cs[i], ctx).Err? then Err(Points(cs[i], ctx).error)
      else Ok(Evaluate(cs[..i], ctx).value + [(cs[i].title, Points(cs[i], ctx).value)])
  {
    assert cs[..i + 1][..i] == cs[..i];
  }

  /** Builds the breakdown entry by entry, stopping at the first lookup that fails. */
  method Breakdown(cs: seq<Criterion>, ctx: Context) returns (r: Result<seq<(string, int)>>)
    ensures r == Evaluate(cs, ctx)
  {
    var bd: seq<(string, int)> := [];
    var i := 0;
    while i < |cs|
      invariant 0 <= i <= |cs|
      invariant Evaluate(cs[..i], ctx) == Ok(bd)
    {
      var p := Points(cs[i], ctx);
      EvaluateStep(cs, ctx, i);
      if p.Err? {
        EvaluatePrefixFails(cs, ctx, i + 1);
        return Err(p.error);
      }
      bd := bd + [(cs[i].title, p.value)];
      i := i + 1;
    }
    assert cs[..i] == cs;
    r := Ok(bd);
  }

  /** Adds up the points of a breakdown. */
  method Total(bd: seq<(string, int)>) returns (score: int)
    ensures score == Sum(bd)
  {
    score := 0;
    var j := 0;
    while j < |bd|
      invariant 0 <= j <= |bd|
      invariant score == Sum(bd[..j])
    {
      assert bd[..j + 1][..j] == bd[..j];
      score := score + bd[j].1;
      j := j + 1;
    }
    assert bd[..j] == bd;
  }

  /** Scores a record over a list of criteria: breakdown, total, critical flag. */
  method Score(cs: seq<Criterion>, ctx: Context) returns (r: Result<ScoreResult>)
    ensures r == ScoreSpec(cs, ctx)
  {
    var bd :- Breakdown(cs, ctx);
    var score := Total(bd);
    r := Ok(ScoreResult(score, bd, Critical(ctx)));
  }

  /** Fungal keratitis scale (FUSS): 23 entries, total between 0 and 74. */
  method ComputeFuss(ctx: Context) returns (r: Result<ScoreResult>)
    ensures r == ScoreSpec(FussCriteria, ctx)
    ensures r.Err? <==> exists k :: 0 <= k < |FussCriteria| && Points(FussCriteria[k], ctx).Err?
    ensures r.Ok? ==> |r.value.breakdown| == 23 && Labels(r.value.breakdown) == Titles(FussCriteria)
    ensures r.Ok? ==> Distinct(Labels(r.value.breakdown))
    ensures r.Ok? ==> r.value.score == Sum(r.value.breakdown) && 0 <= r.value.score <= 74
  {
    r := Score(FussCriteria, ctx);
    EvaluateFails(FussCriteria, ctx);
    if r.Ok? {
      FussTitles();
      FussMaxTotal();
      EvaluateLabels(FussCriteria, ctx);
      SumBounded(FussCriteria, ctx, |FussCriteria|);
      assert r.value.breakdown[..|FussCriteria|] == r.value.breakdown;
    }
  }

  /** Acanthamoeba keratitis scale (AUSS): 28 entries, total between 0 and 94. */
  method ComputeAuss(ctx: Context) returns (r: Result<ScoreResult>)
    ensures r == ScoreSpec(AussCriteria, ctx)
    ensures r.Err? <==> exists k :: 0 <= k < |AussCriteria| && Points(AussCriteria[k], ctx).Err?
    ensures r.Ok? ==> |r.value.breakdown| == 28 && Labels(r.value.breakdown) == Titles(AussCriteria)
    ensures r.Ok? ==> Distinct(Labels(r.value.breakdown))
    ensures r.Ok? ==> r.value.score == Sum(r.value.breakdown) && 0 <= r.value.score <= 94
  {
    r := Score(AussCriteria, ctx);
    EvaluateFails(AussCriteria, ctx);
    if r.Ok? {
      AussTitles();
      AussMaxTotal();
      EvaluateLabels(AussCriteria, ctx);
      SumBounded(AussCriteria, ctx, |AussCriteria|);
      assert r.value.breakdown[..|AussCriteria|] == r.value.breakdown;
    }
  }
}
