/** The chart recommender: the rule table in declared order, the arg-max
    that picks the best chart (`recommend_chart_type`), and the per-type
    column-binding policy (`get_chart_config`). */
module Recommender {
  import opened Base
  import opened Tables
  import opened Analyzer
  import opened Scoring

  /** The six chart types the analyzer scores, in declaration order. */
  datatype ChartType = Bar | Line | Pie | Scatter | Area | Histogram

  const AllCharts: seq<ChartType> := [Bar, Line, Pie, Scatter, Area, Histogram]

  /** The enum value string of each chart type. */
  function ChartName(ct: ChartType): string {
    match ct
    case Bar => "bar"
    case Line => "line"
    case Pie => "pie"
    case Scatter => "scatter"
    case Area => "area"
    case Histogram => "histogram"
  }

  /** The position of `ct` in the declared rule order. */
  function Order(ct: ChartType): (i: nat)
    ensures i < |AllCharts| && AllCharts[i] == ct
  {
    match ct
    case Bar => 0
    case Line => 1
    case Pie => 2
    case Scatter => 3
    case Area => 4
    case Histogram => 5
  }

  /** The rule table: the score rule of `ct` applied to the summary `s` of `t`. */
  function ScoreOf(t: Table, s: Summary, ct: ChartType, target: Option<string>): (r: nat)
    requires CardinalityKnown(s)
    ensures r <= Full
  {
    match ct
    case Bar => BarScore(s, target)
    case Line => LineScore(s, target)
    case Pie => PieScore(t, s, target)
    case Scatter => ScatterScore(s)
    case Area => AreaScore(s)
    case Histogram => HistogramScore(s, target)
  }

  /** The score of `ct` for the table `t`. */
  function Score(t: Table, ct: ChartType, target: Option<string>): (r: nat)
    ensures r <= Full
  {
    AnalyzeCounts(t);
    ScoreOf(t, Analyze(t), ct, target)
  }

  /** The first position holding a maximal element, as Python's `max` picks it. */
  function FirstArgMax(xs: seq<int>): (k: nat)
    requires |xs| > 0
    ensures k < |xs|
    ensures forall j :: 0 <= j < |xs| ==> xs[j] <= xs[k]
    ensures forall j :: 0 <= j < k ==> xs[j] < xs[k]
  {
    if |xs| == 1 then 0
    else
      var k := FirstArgMax(xs[..|xs| - 1]);
      assert forall j :: 0 <= j < |xs| - 1 ==> xs[..|xs| - 1][j] == xs[j];
      if xs[|xs| - 1] > xs[k] then |xs| - 1 else k
  }

  datatype Recommendation = Recommendation(chart: ChartType, confidence: nat)

  /** The arg-max over the rule table in declared order: the first chart type
      whose score is maximal, together with that score. */
  function FirstBest(scoreOf: ChartType -> nat): (r: Recommendation)
    ensures r.confidence == scoreOf(r.chart)
    ensures forall ct :: scoreOf(ct) <= r.confidence
    ensures forall ct :: Order(ct) < Order(r.chart) ==> scoreOf(ct) < r.confidence
  {
    var scores := [scoreOf(Bar), scoreOf(Line), scoreOf(Pie), scoreOf(Scatter), scoreOf(Area), scoreOf(Histogram)];
    var k := FirstArgMax(scores);
    assert forall ct :: scores[Order(ct)] == scoreOf(ct);
    Recommendation(AllCharts[k], scores[k])
  }

  /** Scores every chart type once and returns the best one with its score;
      a tie goes to the type declared first. No table is refused, not even an
      empty one. */
  function RecommendChartType(t: Table, target: Option<string>): (r: Recommendation)
    ensures r.confidence == Score(t, r.chart, target)
    ensures forall ct :: Score(t, ct, target) <= r.confidence
    ensures forall ct :: Order(ct) < Order(r.chart) ==> Score(t, ct, target) < r.confidence
  {
    AnalyzeCounts(t);
    BestFor(t, Analyze(t), target)
  }

  /** The first best chart type under the rule table applied to the summary `s`. */
  function BestFor(t: Table, s: Summary, target: Option<string>): (r: Recommendation)
    requires CardinalityKnown(s)
    ensures r.confidence == ScoreOf(t, s, r.chart, target)
    ensures forall ct :: ScoreOf(t, s, ct, target) <= r.confidence
    ensures forall ct :: Order(ct) < Order(r.chart) ==> ScoreOf(t, s, ct, target) < r.confidence
  {
    var r := FirstBest(ct => ScoreOf(t, s, ct, target));
    assert forall ct :: (ct => ScoreOf(t, s, ct, target))(ct) == ScoreOf(t, s, ct, target);
    r
  }

  /** A configuration value: a column name or other text, a bin count, a
      confidence in tenths, or a list of column names. */
  datatype Field = Str(text: string) | Count(n: int) | Confidence(tenths: int) | StrList(items: seq<string>)

  type Config = map<string, Field>

  /** The indexing `get_chart_config` does cannot fail: every `data.columns[0]`
      or `data.columns[1]` fallback it evaluates exists. */
  predicate Bindable(s: Summary, ct: ChartType) {
    match ct
    case Bar => (|s.categorical| > 0 || |s.columnNames| >= 1) && (|s.numeric| > 0 || |s.columnNames| >= 2)
    case Line => (|s.datetime| > 0 || |s.columnNames| >= 1) && (|s.numeric| > 0 || |s.columnNames| >= 2)
    case Pie => (|s.categorical| > 0 || |s.columnNames| >= 1) && (|s.numeric| > 0 || |s.columnNames| >= 2)
    case Scatter => (|s.numeric| > 0 || |s.columnNames| >= 1) && (|s.numeric| > 1 || |s.columnNames| >= 2)
    case Area => (|s.datetime| > 0 || |s.columnNames| >= 1) && (|s.numeric| > 0 || |s.columnNames| >= 2)
    case Histogram => |s.numeric| > 0 || |s.columnNames| >= 1
  }

  /** `(target or numeric[0]) if numeric else data.columns[j]`: with a numeric
      column present a truthy target wins, whatever it names; without one the
      target is ignored. */
  function ValueColumn(s: Summary, target: Option<string>, j: nat): string
    requires |s.numeric| > 0 || j < |s.columnNames|
  {
    if |s.numeric| > 0 then (if Truthy(target) then target.value else s.numeric[0]) else s.columnNames[j]
  }

  /** `list[i] if len(list) > i else data.columns[j]`. */
  function PickOr(list: seq<string>, i: nat, s: Summary, j: nat): string
    requires i < |list| || j < |s.columnNames|
  {
    if i < |list| then list[i] else s.columnNames[j]
  }

  /** The keys each chart type's configuration carries. */
  function ConfigKeys(ct: ChartType): set<string> {
    match ct
    case Bar => {"chart_type", "x_column", "y_column", "orientation"}
    case Line => {"chart_type", "x_column", "y_column"}
    case Pie => {"chart_type", "labels_column", "values_column"}
    case Scatter => {"chart_type", "x_column", "y_column"}
    case Area => {"chart_type", "x_column", "y_column"}
    case Histogram => {"chart_type", "column", "bins"}
  }

  /** The key holding the value column of `ct`. */
  function ValueKey(ct: ChartType): string {
    match ct
    case Pie => "values_column"
    case Histogram => "column"
    case _ => "y_column"
  }

  /** The key holding the category or axis column of `ct` (none for histograms). */
  function AxisKey(ct: ChartType): string
    requires ct != Histogram
  {
    if ct == Pie then "labels_column" else "x_column"
  }

  /** `min(30, max(5, rows // 10))`. */
  function Bins(rows: nat): (b: int)
    ensures 5 <= b <= 30
    ensures rows < 50 ==> b == 5
    ensures 50 <= rows < 310 ==> b == rows / 10
    ensures rows >= 300 ==> b == 30
  {
    Min(30, Max(5, rows / 10))
  }

  /** The configuration `get_chart_config` builds for chart type `ct` from the
      summary `s` of the table. */
  function ConfigFor(s: Summary, ct: ChartType, target: Option<string>): (r: Config)
    requires Bindable(s, ct)
    ensures r.Keys == ConfigKeys(ct)
    ensures r["chart_type"] == Str(ChartName(ct))
    ensures ct == Bar ==> r["orientation"] == Str("vertical")
    ensures ct == Histogram ==> r["bins"] == Count(Bins(s.rows))
  {
    match ct
    case Bar =>
      map[
        "chart_type" := Str("bar"),
        "x_column" := Str(PickOr(s.categorical, 0, s, 0)),
        "y_column" := Str(ValueColumn(s, target, 1)),
        "orientation" := Str("vertical")]
    case Line =>
      map[
        "chart_type" := Str("line"),
        "x_column" := Str(PickOr(s.datetime, 0, s, 0)),
        "y_column" := Str(ValueColumn(s, target, 1))]
    case Pie =>
      map[
        "chart_type" := Str("pie"),
        "labels_column" := Str(PickOr(s.categorical, 0, s, 0)),
        "values_column" := Str(ValueColumn(s, target, 1))]
    case Scatter =>
      map[
        "chart_type" := Str("scatter"),
        "x_column" := Str(PickOr(s.numeric, 0, s, 0)),
        "y_column" := Str(PickOr(s.numeric, 1, s, 1))]
    case Area =>
      map[
        "chart_type" := Str("area"),
        "x_column" := Str(PickOr(s.datetime, 0, s, 0)),
        "y_column" := Str(ValueColumn(s, target, 1))]
    case Histogram =>
      map[
        "chart_type" := Str("histogram"),
        "column" := Str(ValueColumn(s, target, 0)),
        "bins" := Count(Bins(s.rows))]
  }

  /** `get_chart_config`: analyses `t` afresh and builds the configuration for `ct`. */
  function GetChartConfig(t: Table, ct: ChartType, target: Option<string>): (r: Config)
    requires Bindable(Analyze(t), ct)
    ensures r.Keys == ConfigKeys(ct)
    ensures r["chart_type"] == Str(ChartName(ct))
    ensures ct == Bar ==> r["orientation"] == Str("vertical")
    ensures ct == Histogram ==> r["bins"] == Count(Bins(t.rows))
  {
    ConfigFor(Analyze(t), ct, target)
  }
}

/** The column-binding policy restated over a direct scan of the table, as an
    independent reference for `get_chart_config`, and the facts connecting
    the two. */
module BindingPolicy {
  import opened Base
  import opened Tables
  import opened Analyzer
  import opened Scoring
  import opened Recommender

  /** The first position at or after `from` holding a column of kind `k`, or -1. */
  function IndexOfKind(cols: seq<Column>, k: Kind, from: nat): (i: int)
    requires from <= |cols|
    ensures i == -1 || (from <= i < |cols| && cols[i].kind == k)
    ensures forall j :: from <= j < |cols| && (i == -1 || j < i) ==> cols[j].kind != k
    decreases |cols| - from
  {
    if from == |cols| then -1
    else if cols[from].kind == k then from
    else IndexOfKind(cols, k, from + 1)
  }

  /** Scanning from `from`, the role list of kind `k` starts with the first
      column of that kind and continues with the role list after it. */
  lemma {:induction false} ScanMatchesRoleList(cols: seq<Column>, k: Kind, from: nat)
    requires from <= |cols|
    ensures var i := IndexOfKind(cols, k, from);
      && (i == -1 <==> |NamesOfKind(cols[from..], k)| == 0)
      && (i >= 0 ==> NamesOfKind(cols[from..], k) == [cols[i].name] + NamesOfKind(cols[i + 1..], k))
    decreases |cols| - from
  {
    if from < |cols| {
      var tail := cols[from..];
      assert tail[0] == cols[from] && tail[1..] == cols[from + 1..];
      if cols[from].kind == k {
        assert NamesOfKind(tail, k) == [cols[from].name] + NamesOfKind(cols[from + 1..], k);
      } else {
        ScanMatchesRoleList(cols, k, from + 1);
        assert NamesOfKind(tail, k) == NamesOfKind(cols[from + 1..], k);
      }
    }
  }

  /** The name of column `i` when one was found (`i >= 0`), else of the
      fallback column `j` when the table has one. */
  function NameAtOr(cols: seq<Column>, i: int, j: nat): (r: Option<string>)
    requires i < |cols|
    ensures r.Some? ==> r.value in Names(cols)
  {
    if i >= 0 then Some(cols[i].name)
    else if j < |cols| then Some(cols[j].name)
    else None
  }

  /** The first column of kind `k`, else column `j`. */
  function ScanFirst(cols: seq<Column>, k: Kind, j: nat): Option<string> {
    NameAtOr(cols, IndexOfKind(cols, k, 0), j)
  }

  /** The second column of kind `k`, else column `j`. */
  function ScanSecond(cols: seq<Column>, k: Kind, j: nat): Option<string> {
    var first := IndexOfKind(cols, k, 0);
    NameAtOr(cols, if first >= 0 then IndexOfKind(cols, k, first + 1) else -1, j)
  }

  /** The value column by scan: a truthy target when any numeric column
      exists, else the first numeric column, else column `j`. */
  function ScanValue(cols: seq<Column>, target: Option<string>, j: nat): (r: Option<string>)
    ensures r.Some? ==> r.value in Names(cols) || (Truthy(target) && r.value == target.value)
  {
    var first := IndexOfKind(cols, Numeric, 0);
    if first >= 0 then Some(if Truthy(target) then target.value else cols[first].name)
    else if j < |cols| then Some(cols[j].name)
    else None
  }

  /** The reference policy: bar and pie bind the first categorical column,
      line and area the first datetime column, scatter the first two numeric
      columns and histograms nothing but the value column; every missing
      column falls back to the first or second column of the table. */
  function ReferenceBindings(cols: seq<Column>, ct: ChartType, target: Option<string>): seq<Option<string>> {
    match ct
    case Bar => [ScanFirst(cols, Categorical, 0), ScanValue(cols, target, 1)]
    case Line => [ScanFirst(cols, Datetime, 0), ScanValue(cols, target, 1)]
    case Pie => [ScanFirst(cols, Categorical, 0), ScanValue(cols, target, 1)]
    case Scatter => [ScanFirst(cols, Numeric, 0), ScanSecond(cols, Numeric, 1)]
    case Area => [ScanFirst(cols, Datetime, 0), ScanValue(cols, target, 1)]
    case Histogram => [ScanValue(cols, target, 0)]
  }

  /** The column-naming keys of each configuration, in binding order. */
  function BindingKeys(ct: ChartType): seq<string> {
    match ct
    case Pie => ["labels_column", "values_column"]
    case Histogram => ["column"]
    case _ => ["x_column", "y_column"]
  }

  /** Key by key, the configuration `r` binds the columns `ref` finds. */
  predicate BindsReference(r: Config, ct: ChartType, ref: seq<Option<string>>) {
    var keys := BindingKeys(ct);
    |keys| == |ref| &&
    forall i :: 0 <= i < |keys| ==> keys[i] in r && ref[i].Some? && r[keys[i]] == Str(ref[i].value)
  }

  /** The first column of kind `k` found by scanning is the head of the role list. */
  lemma PickFirstAgrees(cols: seq<Column>, s: Summary, k: Kind, j: nat)
    requires s.columnNames == Names(cols)
    ensures var list := NamesOfKind(cols, k);
      var p := ScanFirst(cols, k, j);
      && (p.Some? <==> 0 < |list| || j < |s.columnNames|)
      && (p.Some? ==> p.value == PickOr(list, 0, s, j))
  {
    var list := NamesOfKind(cols, k);
    var first := IndexOfKind(cols, k, 0);
    assert cols[0..] == cols;
    ScanMatchesRoleList(cols, k, 0);
    if first >= 0 {
      assert list[0] == cols[first].name;
      assert ScanFirst(cols, k, j) == Some(cols[first].name);
    } else {
      assert |list| == 0;
      assert ScanFirst(cols, k, j) == if j < |cols| then Some(cols[j].name) else None;
    }
  }

  /** The role list of kind `k` is empty when no column has that kind, and
      otherwise starts with the first such column, followed by the role list
      of the columns after it. */
  lemma SplitAtFirst(cols: seq<Column>, k: Kind)
    ensures var first := IndexOfKind(cols, k, 0);
      && (first < 0 ==> NamesOfKind(cols, k) == [])
      && (first >= 0 ==> NamesOfKind(cols, k) == [cols[first].name] + NamesOfKind(cols[first + 1..], k))
  {
    assert cols[0..] == cols;
    ScanMatchesRoleList(cols, k, 0);
  }

  /** After the first column of kind `k`, the next one found is the role
      list's second entry, and none is found exactly when the list has one entry. */
  lemma SecondIndex(cols: seq<Column>, k: Kind)
    requires IndexOfKind(cols, k, 0) >= 0
    ensures var next := IndexOfKind(cols, k, IndexOfKind(cols, k, 0) + 1);
      var list := NamesOfKind(cols, k);
      && (next < 0 <==> |list| == 1)
      && (next >= 0 ==> |list| > 1 && list[1] == cols[next].name)
  {
    var first := IndexOfKind(cols, k, 0);
    var list := NamesOfKind(cols, k);
    var rest := NamesOfKind(cols[first + 1..], k);
    var next := IndexOfKind(cols, k, first + 1);
    SplitAtFirst(cols, k);
    assert |list| == 1 + |rest| && list[1..] == rest;
    ScanMatchesRoleList(cols, k, first + 1);
    if next >= 0 {
      assert rest[0] == cols[next].name;
    }
  }

  /** The second scanned column of kind `k` when a first one exists. */
  lemma PickSecondAfterFirst(cols: seq<Column>, s: Summary, k: Kind, j: nat)
    requires s.columnNames == Names(cols)
    requires IndexOfKind(cols, k, 0) >= 0
    ensures var list := NamesOfKind(cols, k);
      var p := ScanSecond(cols, k, j);
      && (p.Some? <==> 1 < |list| || j < |s.columnNames|)
      && (p.Some? ==> p.value == PickOr(list, 1, s, j))
  {
    var next := IndexOfKind(cols, k, IndexOfKind(cols, k, 0) + 1);
    SecondIndex(cols, k);
    assert ScanSecond(cols, k, j) == NameAtOr(cols, next, j);
  }

  /** The second column of kind `k` found by scanning is the second entry of the role list. */
  lemma PickSecondAgrees(cols: seq<Column>, s: Summary, k: Kind, j: nat)
    requires s.columnNames == Names(cols)
    ensures var list := NamesOfKind(cols, k);
      var p := ScanSecond(cols, k, j);
      && (p.Some? <==> 1 < |list| || j < |s.columnNames|)
      && (p.Some? ==> p.value == PickOr(list, 1, s, j))
  {
    if IndexOfKind(cols, k, 0) >= 0 {
      PickSecondAfterFirst(cols, s, k, j);
    } else {
      SplitAtFirst(cols, k);
    }
  }

  /** The scanned value column is the one `get_chart_config` binds. */
  lemma ValueAgrees(cols: seq<Column>, s: Summary, target: Option<string>, j: nat)
    requires s.columnNames == Names(cols) && s.numeric == NamesOfKind(cols, Numeric)
    ensures var p := ScanValue(cols, target, j);
      && (p.Some? <==> |s.numeric| > 0 || j < |s.columnNames|)
      && (p.Some? ==> p.value == ValueColumn(s, target, j))
  {
    assert cols[0..] == cols;
    ScanMatchesRoleList(cols, Numeric, 0);
  }

  /** `s` holds the column names and role lists of the columns `cols`, as
      `analyze_data` computes them. */
  predicate Describes(s: Summary, cols: seq<Column>) {
    && s.columnNames == Names(cols)
    && s.numeric == NamesOfKind(cols, Numeric)
    && s.categorical == NamesOfKind(cols, Categorical)
    && s.datetime == NamesOfKind(cols, Datetime)
  }

  /** The fallback indexing of `get_chart_config` succeeds exactly when the
      reference policy finds a column for every binding. */
  lemma BindableIffReferenceFinds(t: Table, ct: ChartType, target: Option<string>)
    ensures Bindable(Analyze(t), ct) <==> forall b :: b in ReferenceBindings(t.columns, ct, target) ==> b.Some?
  {
    BindableIffFound(t.columns, Analyze(t), ct, target);
  }

  /** `BindableIffReferenceFinds` for any summary describing the columns. */
  lemma BindableIffFound(cols: seq<Column>, s: Summary, ct: ChartType, target: Option<string>)
    requires Describes(s, cols)
    ensures Bindable(s, ct) <==> forall b :: b in ReferenceBindings(cols, ct, target) ==> b.Some?
  {
    match ct
    case Bar =>
      PickFirstAgrees(cols, s, Categorical, 0);
      ValueAgrees(cols, s, target, 1);
    case Line =>
      PickFirstAgrees(cols, s, Datetime, 0);
      ValueAgrees(cols, s, target, 1);
    case Pie =>
      PickFirstAgrees(cols, s, Categorical, 0);
      ValueAgrees(cols, s, target, 1);
    case Scatter =>
      PickFirstAgrees(cols, s, Numeric, 0);
      PickSecondAgrees(cols, s, Numeric, 1);
    case Area =>
      PickFirstAgrees(cols, s, Datetime, 0);
      ValueAgrees(cols, s, target, 1);
    case Histogram =>
      ValueAgrees(cols, s, target, 0);
  }

  /** When its indexing succeeds, `get_chart_config` binds the columns the
      reference policy finds, key by key. */
  lemma ConfigMatchesReference(t: Table, ct: ChartType, target: Option<string>)
    requires Bindable(Analyze(t), ct)
    ensures BindsReference(GetChartConfig(t, ct, target), ct, ReferenceBindings(t.columns, ct, target))
  {
    ConfigAgrees(t.columns, Analyze(t), ct, target);
  }

  /** `ConfigMatchesReference` for any summary describing the columns. */
  lemma ConfigAgrees(cols: seq<Column>, s: Summary, ct: ChartType, target: Option<string>)
    requires Describes(s, cols) && Bindable(s, ct)
    ensures BindsReference(ConfigFor(s, ct, target), ct, ReferenceBindings(cols, ct, target))
  {
    if ct in {Bar, Pie} {
      CategoryConfigAgrees(cols, s, ct, target);
    } else if ct in {Line, Area} {
      TimeConfigAgrees(cols, s, ct, target);
    } else {
      NumericConfigAgrees(cols, s, ct, target);
    }
  }

  /** The agreement for bar and pie charts. */
  lemma CategoryConfigAgrees(cols: seq<Column>, s: Summary, ct: ChartType, target: Option<string>)
    requires Describes(s, cols) && Bindable(s, ct) && ct in {Bar, Pie}
    ensures BindsReference(ConfigFor(s, ct, target), ct, ReferenceBindings(cols, ct, target))
  {
    PickFirstAgrees(cols, s, Categorical, 0);
    ValueAgrees(cols, s, target, 1);
  }

  /** The agreement for line and area charts. */
  lemma TimeConfigAgrees(cols: seq<Column>, s: Summary, ct: ChartType, target: Option<string>)
    requires Describes(s, cols) && Bindable(s, ct) && ct in {Line, Area}
    ensures BindsReference(ConfigFor(s, ct, target), ct, ReferenceBindings(cols, ct, target))
  {
    PickFirstAgrees(cols, s, Datetime, 0);
    ValueAgrees(cols, s, target, 1);
  }

  /** The agreement for scatter plots and histograms. */
  lemma NumericConfigAgrees(cols: seq<Column>, s: Summary, ct: ChartType, target: Option<string>)
    requires Describes(s, cols) && Bindable(s, ct) && ct in {Scatter, Histogram}
    ensures BindsReference(ConfigFor(s, ct, target), ct, ReferenceBindings(cols, ct, target))
  {
    if ct == Scatter {
      PickFirstAgrees(cols, s, Numeric, 0);
      PickSecondAgrees(cols, s, Numeric, 1);
    } else {
      ValueAgrees(cols, s, target, 0);
    }
  }

  /** Without numeric columns the target is ignored: every binding falls
      back to a position in the table. */
  lemma TargetIgnoredWithoutNumbers(t: Table, ct: ChartType, a: Option<string>, b: Option<string>)
    requires Bindable(Analyze(t), ct) && |Analyze(t).numeric| == 0
    ensures GetChartConfig(t, ct, a) == GetChartConfig(t, ct, b)
  {
  }

  /** With a numeric column present, a truthy target becomes the value column
      of every chart type but scatter, even when it names no numeric column
      (or no column at all). */
  lemma TargetTakesValueColumn(t: Table, ct: ChartType, target: Option<string>)
    requires Bindable(Analyze(t), ct) && |Analyze(t).numeric| > 0 && Truthy(target) && ct != Scatter
    ensures GetChartConfig(t, ct, target)[ValueKey(ct)] == Str(target.value)
  {
  }

  /** With unique column names and two numeric columns, the scatter axes are
      two different numeric columns. */
  lemma ScatterAxesDiffer(t: Table, target: Option<string>)
    requires UniqueNames(t.columns) && |Analyze(t).numeric| >= 2
    ensures var r := GetChartConfig(t, Scatter, target);
      && r["x_column"] != r["y_column"]
      && r["x_column"].text in Analyze(t).numeric && r["y_column"].text in Analyze(t).numeric
  {
    NamesOfKindDistinct(t.columns, Numeric);
  }

  /** Outside the target, every column a configuration names is a column of the table. */
  lemma BindingsNameColumns(t: Table, ct: ChartType, target: Option<string>)
    requires Bindable(Analyze(t), ct)
    ensures var r := GetChartConfig(t, ct, target);
      forall i :: 0 <= i < |BindingKeys(ct)| ==>
        var f := r[BindingKeys(ct)[i]];
        f.Str? && (f.text in Names(t.columns) || (Truthy(target) && f.text == target.value))
  {
    ConfigMatchesReference(t, ct, target);
    var ref := ReferenceBindings(t.columns, ct, target);
    forall i | 0 <= i < |ref| && ref[i].Some?
      ensures ref[i].value in Names(t.columns) || (Truthy(target) && ref[i].value == target.value)
    {
    }
  }
}
