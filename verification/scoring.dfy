/** The six additive suitability rules (`_should_use_*`). Each adds fixed
    increments for structural features of the summary and ends with
    `min(score, 1.0)`. Scores are kept as integer tenths, so 1.0 is 10. */
module Scoring {
  import opened Base
  import opened Tables
  import opened Analyzer

  /** The cap every rule applies, 1.0 in tenths. */
  const Full: nat := 10

  /** `min(score, 1.0)`. */
  function Clamp(score: nat): (r: nat)
    ensures r <= Full && r <= score
    ensures score <= Full ==> r == score
    ensures score >= Full ==> r == Full
  {
    if score <= Full then score else Full
  }

  /** Python truthiness of the optional target: both `None` and `""` are false. */
  predicate Truthy(target: Option<string>) {
    target.Some? && target.value != ""
  }

  /** `target_column and target_column in analysis['numeric_columns']`. */
  predicate TargetIsNumeric(s: Summary, target: Option<string>) {
    Truthy(target) && target.value in s.numeric
  }

  /** The largest distinct-value count among the columns `cs`. */
  function MaxCardinality(unique: map<string, nat>, cs: seq<string>): (m: nat)
    requires |cs| > 0
    requires forall c :: c in cs ==> c in unique
    ensures forall i :: 0 <= i < |cs| ==> unique[cs[i]] <= m
    ensures exists i :: 0 <= i < |cs| && unique[cs[i]] == m
  {
    if |cs| == 1 then unique[cs[0]]
    else
      var m := MaxCardinality(unique, cs[1..]);
      assert forall i :: 1 <= i < |cs| ==> cs[i] == cs[1..][i - 1];
      if unique[cs[0]] >= m then unique[cs[0]] else m
  }

  /** Bar: +0.8 for a categorical and a numeric column, +0.6 when a numeric
      target can be compared across another categorical column, and +0.4
      (at most 10 categories) or +0.2 (at most 20) for the widest categorical column. */
  function BarScore(s: Summary, target: Option<string>): (r: nat)
    requires CardinalityKnown(s)
    ensures r <= Full
    ensures |s.categorical| >= 1 && |s.numeric| >= 1 ==> r >= 8
    ensures !(|s.categorical| >= 1 && |s.numeric| >= 1) ==> r <= 4
    ensures |s.categorical| >= 1 && |s.numeric| >= 1 && MaxCardinality(s.unique, s.categorical) <= 20 ==> r == Full
  {
    var both := if |s.categorical| >= 1 && |s.numeric| >= 1 then 8 else 0;
    var compare :=
      if TargetIsNumeric(s, target) && exists c :: c in s.categorical && c != target.value then 6 else 0;
    var spread :=
      if |s.categorical| == 0 then 0
      else
        var widest := MaxCardinality(s.unique, s.categorical);
        if widest <= 10 then 4 else if widest <= 20 then 2 else 0;
    Clamp(both + compare + spread)
  }

  /** Line: +0.9 for a datetime column, +0.5 for a numeric column, +0.3 for a numeric target. */
  function LineScore(s: Summary, target: Option<string>): (r: nat)
    ensures r <= Full
    ensures |s.datetime| >= 1 ==> r >= 9
    ensures |s.datetime| >= 1 && |s.numeric| >= 1 ==> r == Full
    ensures |s.datetime| == 0 ==> r <= 8
  {
    var time := if |s.datetime| > 0 then 9 else 0;
    var trend := if |s.numeric| >= 1 then 5 else 0;
    var continuous := if TargetIsNumeric(s, target) then 3 else 0;
    Clamp(time + trend + continuous)
  }

  /** Every present cell of `cells` is a non-negative number
      (true when every cell is missing, like `.all()` on an empty series). */
  predicate AllNonNegative(cells: seq<Option<Value>>) {
    forall i :: 0 <= i < |cells| && cells[i].Some? && cells[i].value.Number? ==> cells[i].value.x >= 0.0
  }

  /** `(data[target].dropna() >= 0).all()` for the column called `name`. */
  predicate NonNegativeColumn(t: Table, name: string) {
    var c := Lookup(t.columns, name);
    c.Some? && AllNonNegative(c.value.cells)
  }

  /** Pie: +0.7 for exactly one numeric and one categorical column, +0.6 when
      some categorical column has 2 to 7 values or else +0.3 when some has at
      most 10, and +0.2 for a numeric target whose present values are all non-negative. */
  function PieScore(t: Table, s: Summary, target: Option<string>): (r: nat)
    requires CardinalityKnown(s)
    ensures r <= Full
    ensures |s.categorical| == 0 ==> r <= 2
    ensures |s.numeric| == 1 && |s.categorical| == 1 && 2 <= s.unique[s.categorical[0]] <= 7 ==> r == Full
  {
    var single := if |s.numeric| == 1 && |s.categorical| == 1 then 7 else 0;
    var few :=
      if |s.categorical| == 0 then 0
      else if exists c :: c in s.categorical && 2 <= s.unique[c] <= 7 then 6
      else if exists c :: c in s.categorical && s.unique[c] <= 10 then 3
      else 0;
    var parts := if TargetIsNumeric(s, target) && NonNegativeColumn(t, target.value) then 2 else 0;
    Clamp(single + few + parts)
  }

  /** Scatter: +0.8 and +0.4 (two separate checks) for at least two numeric
      columns, +0.2 for more than 50 rows. */
  function ScatterScore(s: Summary): (r: nat)
    ensures r <= Full
    ensures |s.numeric| >= 2 ==> r == Full
    ensures |s.numeric| < 2 ==> r <= 2
    ensures |s.numeric| < 2 ==> (r == 2 <==> s.rows > 50)
  {
    var relation := if |s.numeric| >= 2 then 8 else 0;
    var pairs := if |s.numeric| >= 2 then 4 else 0;
    var large := if s.rows > 50 then 2 else 0;
    Clamp(relation + pairs + large)
  }

  /** Area: +0.7 for a datetime column, +0.5 for a numeric column. */
  function AreaScore(s: Summary): (r: nat)
    ensures r <= Full
    ensures |s.datetime| >= 1 ==> r >= 7
    ensures |s.datetime| >= 1 && |s.numeric| >= 1 ==> r == Full
    ensures |s.datetime| == 0 ==> r <= 5
  {
    var time := if |s.datetime| > 0 then 7 else 0;
    var magnitude := if |s.numeric| >= 1 then 5 else 0;
    Clamp(time + magnitude)
  }

  /** Histogram: +0.8 for exactly one numeric column, +0.6 for a numeric
      target, +0.3 for at least 20 rows. */
  function HistogramScore(s: Summary, target: Option<string>): (r: nat)
    ensures r <= Full
    ensures |s.numeric| == 1 ==> r >= 8
    ensures |s.numeric| == 1 && s.rows >= 20 ==> r == Full
    ensures |s.numeric| == 0 ==> (r == 3 <==> s.rows >= 20) && r <= 3
  {
    var single := if |s.numeric| == 1 then 8 else 0;
    var distribution := if TargetIsNumeric(s, target) then 6 else 0;
    var enough := if s.rows >= 20 then 3 else 0;
    Clamp(single + distribution + enough)
  }

  /** The target raises the pie score only when it names a numeric column whose
      present values are all non-negative, and then by 0.2 up to the cap. */
  lemma PieTargetBonus(t: Table, s: Summary, target: Option<string>)
    requires CardinalityKnown(s)
    ensures PieScore(t, s, target) != PieScore(t, s, None) ==>
              TargetIsNumeric(s, target) && NonNegativeColumn(t, target.value)
    ensures TargetIsNumeric(s, target) && NonNegativeColumn(t, target.value) ==>
              PieScore(t, s, target) == Clamp(PieScore(t, s, None) + 2)
  {
  }
}
