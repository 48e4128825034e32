/** What the recommender picks for characteristic tables, derived from the
    rule table and the first-best selection rather than stated case by case,
    and how the caller's target column can and cannot influence it. Each
    property is proved on an arbitrary summary and then read back on the
    summary `analyze_data` produces. */
module Scenarios {
  import opened Base
  import opened Tables
  import opened Analyzer
  import opened Scoring
  import opened Recommender

  /** The first-best selection is determined by the scores: a chart whose
      score is maximal and beats every chart declared before it is the one
      picked, with that score. */
  lemma BestIsDetermined(t: Table, s: Summary, target: Option<string>, ct: ChartType, conf: nat)
    requires CardinalityKnown(s)
    requires ScoreOf(t, s, ct, target) == conf
    requires forall c :: ScoreOf(t, s, c, target) <= conf
    requires forall c :: Order(c) < Order(ct) ==> ScoreOf(t, s, c, target) < conf
    ensures BestFor(t, s, target) == Recommendation(ct, conf)
  {
    var r := BestFor(t, s, target);
    assert Order(r.chart) == Order(ct);
  }

  /** Every rule reads the target only through `TargetIsNumeric`. */
  lemma RuleIgnoresNonNumericTarget(t: Table, s: Summary, ct: ChartType, target: Option<string>)
    requires CardinalityKnown(s) && !TargetIsNumeric(s, target)
    ensures ScoreOf(t, s, ct, target) == ScoreOf(t, s, ct, None)
  {
    match ct
    case Bar => assert BarScore(s, target) == BarScore(s, None);
    case Line => assert LineScore(s, target) == LineScore(s, None);
    case Pie => assert PieScore(t, s, target) == PieScore(t, s, None);
    case Histogram => assert HistogramScore(s, target) == HistogramScore(s, None);
    case _ =>
  }

  /** A target that does not name a numeric column changes no score, so the
      pick is the one made without a target. */
  lemma TargetIgnoredFor(t: Table, s: Summary, target: Option<string>)
    requires CardinalityKnown(s) && !TargetIsNumeric(s, target)
    ensures BestFor(t, s, target) == BestFor(t, s, None)
  {
    var r := BestFor(t, s, None);
    forall ct ensures ScoreOf(t, s, ct, target) == ScoreOf(t, s, ct, None) {
      RuleIgnoresNonNumericTarget(t, s, ct, target);
    }
    BestIsDetermined(t, s, target, r.chart, r.confidence);
  }

  /** A target that does not name a numeric column of the table leaves the
      recommendation as it is without a target. */
  lemma NonNumericTargetIgnored(t: Table, target: Option<string>)
    requires !TargetIsNumeric(Analyze(t), target)
    ensures RecommendChartType(t, target) == RecommendChartType(t, None)
  {
    AnalyzeCounts(t);
    TargetIgnoredFor(t, Analyze(t), target);
  }

  /** `CategoryAgainstNumberIsBar` for any summary. */
  lemma BarForCategoryAndNumber(t: Table, s: Summary, target: Option<string>)
    requires CardinalityKnown(s) && |s.categorical| >= 1 && |s.numeric| >= 1
    requires forall n :: n in s.categorical ==> s.unique[n] <= 20
    ensures BestFor(t, s, target) == Recommendation(Bar, Full)
  {
    var m := MaxCardinality(s.unique, s.categorical);
    assert m <= 20;
    BestIsDetermined(t, s, target, Bar, Full);
  }

  /** A categorical and a numeric column, with no categorical column wider
      than 20 values, make a bar chart with full confidence, whatever the target. */
  lemma CategoryAgainstNumberIsBar(t: Table, target: Option<string>)
    requires var s := Analyze(t);
      |s.categorical| >= 1 && |s.numeric| >= 1 &&
      forall n :: n in s.categorical ==> n in s.unique && s.unique[n] <= 20
    ensures RecommendChartType(t, target) == Recommendation(Bar, Full)
  {
    AnalyzeCounts(t);
    BarForCategoryAndNumber(t, Analyze(t), target);
  }

  /** `TimeSeriesIsLine` for any summary. */
  lemma LineForTimeSeries(t: Table, s: Summary, target: Option<string>)
    requires CardinalityKnown(s) && |s.datetime| >= 1 && |s.numeric| >= 1 && |s.categorical| == 0
    ensures BestFor(t, s, target) == Recommendation(Line, Full)
  {
    assert ScoreOf(t, s, Bar, target) <= 4;
    BestIsDetermined(t, s, target, Line, Full);
  }

  /** A datetime and a numeric column without categorical columns make a line
      chart with full confidence. */
  lemma TimeSeriesIsLine(t: Table, target: Option<string>)
    requires var s := Analyze(t);
      |s.datetime| >= 1 && |s.numeric| >= 1 && |s.categorical| == 0
    ensures RecommendChartType(t, target) == Recommendation(Line, Full)
  {
    AnalyzeCounts(t);
    LineForTimeSeries(t, Analyze(t), target);
  }

  /** `NumbersOnlyIsScatter` for any summary. */
  lemma ScatterForNumbers(t: Table, s: Summary, target: Option<string>)
    requires CardinalityKnown(s) && |s.numeric| >= 2 && |s.categorical| == 0 && |s.datetime| == 0
    ensures BestFor(t, s, target) == Recommendation(Scatter, Full)
  {
    assert ScoreOf(t, s, Bar, target) <= 4;
    assert ScoreOf(t, s, Line, target) <= 8;
    assert ScoreOf(t, s, Pie, target) <= 2;
    BestIsDetermined(t, s, target, Scatter, Full);
  }

  /** At least two numeric columns and neither categorical nor datetime ones
      make a scatter plot with full confidence. */
  lemma NumbersOnlyIsScatter(t: Table, target: Option<string>)
    requires var s := Analyze(t);
      |s.numeric| >= 2 && |s.categorical| == 0 && |s.datetime| == 0
    ensures RecommendChartType(t, target) == Recommendation(Scatter, Full)
  {
    AnalyzeCounts(t);
    ScatterForNumbers(t, Analyze(t), target);
  }

  /** `SingleNumberIsHistogram` for any summary. */
  lemma HistogramForSingleNumber(t: Table, s: Summary, target: Option<string>)
    requires CardinalityKnown(s) && |s.numeric| == 1 && |s.categorical| == 0 && |s.datetime| == 0 && s.rows >= 20
    ensures BestFor(t, s, target) == Recommendation(Histogram, Full)
  {
    assert ScoreOf(t, s, Bar, target) <= 4;
    assert ScoreOf(t, s, Line, target) <= 8;
    assert ScoreOf(t, s, Pie, target) <= 2;
    assert ScoreOf(t, s, Scatter, target) <= 2;
    assert ScoreOf(t, s, Area, target) <= 5;
    BestIsDetermined(t, s, target, Histogram, Full);
  }

  /** A single numeric column over at least 20 rows, with neither categorical
      nor datetime columns, makes a histogram with full confidence. */
  lemma SingleNumberIsHistogram(t: Table, target: Option<string>)
    requires var s := Analyze(t);
      |s.numeric| == 1 && |s.categorical| == 0 && |s.datetime| == 0 && s.rows >= 20
    ensures RecommendChartType(t, target) == Recommendation(Histogram, Full)
  {
    AnalyzeCounts(t);
    HistogramForSingleNumber(t, Analyze(t), target);
  }

  /** `CategoriesOnlyIsPie` for any summary. */
  lemma PieForCategories(t: Table, s: Summary, target: Option<string>)
    requires CardinalityKnown(s) && |s.numeric| == 0 && |s.datetime| == 0
    requires exists n :: n in s.categorical && 2 <= s.unique[n] <= 7
    ensures BestFor(t, s, target) == Recommendation(Pie, 6)
  {
    assert ScoreOf(t, s, Pie, target) == 6;
    BestIsDetermined(t, s, target, Pie, 6);
  }

  /** Categorical columns alone, one of them with 2 to 7 values, make a pie
      chart with confidence 0.6, although there is no numeric column for its
      wedge sizes. */
  lemma CategoriesOnlyIsPie(t: Table, target: Option<string>)
    requires var s := Analyze(t);
      |s.numeric| == 0 && |s.datetime| == 0 &&
      exists n :: n in s.categorical && n in s.unique && 2 <= s.unique[n] <= 7
    ensures RecommendChartType(t, target) == Recommendation(Pie, 6)
  {
    AnalyzeCounts(t);
    PieForCategories(t, Analyze(t), target);
  }

  /** `NoNumbersYetHistogram` for any summary. */
  lemma HistogramForNoRoles(t: Table, s: Summary, target: Option<string>)
    requires |s.numeric| == 0 && |s.categorical| == 0 && |s.datetime| == 0 && 20 <= s.rows <= 50
    ensures BestFor(t, s, target) == Recommendation(Histogram, 3)
  {
    assert ScoreOf(t, s, Histogram, target) == 3;
    BestIsDetermined(t, s, target, Histogram, 3);
  }

  /** With no numeric, categorical or datetime column but 20 to 50 rows, the
      histogram still wins, with confidence 0.3. */
  lemma NoNumbersYetHistogram(t: Table, target: Option<string>)
    requires var s := Analyze(t);
      |s.numeric| == 0 && |s.categorical| == 0 && |s.datetime| == 0 && 20 <= s.rows <= 50
    ensures RecommendChartType(t, target) == Recommendation(Histogram, 3)
  {
    AnalyzeCounts(t);
    HistogramForNoRoles(t, Analyze(t), target);
  }

  /** A summary with no role columns and fewer than 20 rows scores 0 everywhere, so bar wins. */
  lemma BarForNothing(t: Table, s: Summary, target: Option<string>)
    requires |s.numeric| == 0 && |s.categorical| == 0 && |s.datetime| == 0 && s.rows < 20
    ensures BestFor(t, s, target) == Recommendation(Bar, 0)
  {
    assert ScoreOf(t, s, Bar, target) == 0;
    BestIsDetermined(t, s, target, Bar, 0);
  }

  /** A table without columns and with fewer than 20 rows is not refused: it
      gets a bar chart with confidence 0. */
  lemma EmptyTableIsBar(t: Table, target: Option<string>)
    requires |t.columns| == 0 && t.rows < 20
    ensures RecommendChartType(t, target) == Recommendation(Bar, 0)
  {
    AnalyzeCounts(t);
    BarForNothing(t, Analyze(t), target);
  }
}
