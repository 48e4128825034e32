/** The skill generator's decisions (`PowerPointSkillGenerator`): which
    charts to put in a deck, the configuration of a custom chart, where the
    deck is written, and the data-quality ratios. Rendering the slides is
    not modelled; each operation returns the plan it would render. */
module SkillGenerator {
  import opened Base
  import opened Tables
  import opened Analyzer
  import opened Scoring
  import opened Recommender
  import opened Loading

  /** `config['confidence'] = tenths / 10`. */
  function WithConfidence(c: Config, tenths: nat): (r: Config)
    ensures r.Keys == c.Keys + {"confidence"}
    ensures r["confidence"] == Confidence(tenths)
    ensures forall k :: k in c && k != "confidence" ==> r[k] == c[k]
  {
    c["confidence" := Confidence(tenths)]
  }

  /** `if c not in xs: xs.append(c)`. */
  function AppendIfAbsent(xs: seq<Config>, c: Config): (r: seq<Config>)
    ensures |r| == if c in xs then |xs| else |xs| + 1
    ensures r[..|xs|] == xs
    ensures c in r
  {
    if c in xs then xs else xs + [c]
  }

  /** The columns the recommended chart's configuration indexes exist. */
  predicate Visualisable(t: Table, target: Option<string>) {
    Bindable(Analyze(t), RecommendChartType(t, target).chart)
  }

  /** The first recommendation: the best chart's configuration for the
      target, carrying its confidence. */
  function PrimaryEntry(t: Table, target: Option<string>): (r: Config)
    requires Visualisable(t, target)
    ensures "chart_type" in r && "confidence" in r
    ensures r["chart_type"] == Str(ChartName(RecommendChartType(t, target).chart))
    ensures r["confidence"] == Confidence(RecommendChartType(t, target).confidence)
  {
    var best := RecommendChartType(t, target);
    WithConfidence(GetChartConfig(t, best.chart, target), best.confidence)
  }

  /** The extra scatter plot, built without the target at confidence 0.7,
      offered when there are at least two numeric columns. */
  function ScatterExtra(t: Table): (r: Option<Config>)
    ensures r.Some? <==> |Analyze(t).numeric| >= 2
    ensures r.Some? ==> "chart_type" in r.value && "confidence" in r.value
    ensures r.Some? ==> r.value["chart_type"] == Str("scatter") && r.value["confidence"] == Confidence(7)
  {
    if |Analyze(t).numeric| >= 2 then Some(WithConfidence(GetChartConfig(t, Scatter, None), 7)) else None
  }

  /** The extra bar chart, built without the target at confidence 0.8,
      offered when there are a categorical and a numeric column. */
  function BarExtra(t: Table): (r: Option<Config>)
    ensures r.Some? <==> |Analyze(t).categorical| >= 1 && |Analyze(t).numeric| >= 1
    ensures r.Some? ==> "chart_type" in r.value && "confidence" in r.value
    ensures r.Some? ==> r.value["chart_type"] == Str("bar") && r.value["confidence"] == Confidence(8)
  {
    var s := Analyze(t);
    if |s.categorical| >= 1 && |s.numeric| >= 1 then Some(WithConfidence(GetChartConfig(t, Bar, None), 8)) else None
  }

  /** The extra histogram, built without the target at confidence 0.6,
      offered when there is exactly one numeric column. */
  function HistogramExtra(t: Table): (r: Option<Config>)
    ensures r.Some? <==> |Analyze(t).numeric| == 1
    ensures r.Some? ==> "chart_type" in r.value && "confidence" in r.value
    ensures r.Some? ==> r.value["chart_type"] == Str("histogram") && r.value["confidence"] == Confidence(6)
  {
    if |Analyze(t).numeric| == 1 then Some(WithConfidence(GetChartConfig(t, Histogram, None), 6)) else None
  }

  /** `extra` appended if present and not already listed. */
  function AddExtra(xs: seq<Config>, extra: Option<Config>): seq<Config> {
    if extra.Some? then AppendIfAbsent(xs, extra.value) else xs
  }

  /** The primary configuration followed by the extra perspectives that
      apply, each added only if an equal configuration (confidence included)
      is not already listed. */
  function Assemble(primary: Config, scatter: Option<Config>, bar: Option<Config>, histogram: Option<Config>): (r: seq<Config>)
    ensures 1 <= |r| && r[0] == primary
  {
    AddExtra(AddExtra(AddExtra([primary], scatter), bar), histogram)
  }

  /** The primary configuration and the extra perspectives for `t`. */
  function Ensemble(t: Table, target: Option<string>): seq<Config>
    requires Visualisable(t, target)
  {
    Assemble(PrimaryEntry(t, target), ScatterExtra(t), BarExtra(t), HistogramExtra(t))
  }

  /** `recommend_visualizations` on the loaded table (`None` when nothing
      was loaded): the ensemble cut to `maxCharts` as Python slices it. The
      primary configuration indexes the table's columns, which fails when the
      table is too narrow for the recommended chart. */
  function RecommendVisualizations(data: Option<Table>, target: Option<string>, maxCharts: int): (r: Result<seq<Config>, Error>)
    ensures data.None? ==> r == Failure(NoDataLoaded)
    ensures data.Some? ==>
      (r.Success? <==> Visualisable(data.value, target))
    ensures r.Failure? && data.Some? ==> r.error == ColumnIndexOutOfRange
    ensures r.Success? ==> r.value == PyPrefix(Ensemble(data.value, target), maxCharts)
  {
    match data
    case None => Failure(NoDataLoaded)
    case Some(t) =>
      if Visualisable(t, target) then
        var all := Ensemble(t, target);
        var r := PyPrefix(all, maxCharts);
        Success(r)
      else Failure(ColumnIndexOutOfRange)
  }

  /** Appending only absent configurations keeps the list free of repeats. */
  lemma AddExtraKeepsDistinct(xs: seq<Config>, extra: Option<Config>)
    requires Distinct(xs)
    ensures Distinct(AddExtra(xs, extra))
    ensures forall c :: c in AddExtra(xs, extra) <==> c in xs || extra == Some(c)
  {
    if extra.Some? && extra.value !in xs {
      var r := xs + [extra.value];
      assert forall i :: 0 <= i < |xs| ==> r[i] == xs[i];
    }
  }

  /** The place of `c` in the fixed order of the extras: 0 for the scatter
      plot, 1 for the bar chart, 2 for the histogram, 3 for anything else. */
  function ExtraRank(scatter: Option<Config>, bar: Option<Config>, histogram: Option<Config>, c: Config): nat {
    if scatter == Some(c) then 0 else if bar == Some(c) then 1 else if histogram == Some(c) then 2 else 3
  }

  /** After the primary configuration every entry is one of the extras, and
      they follow one another in the order scatter, bar, histogram. */
  predicate ExtrasInOrder(xs: seq<Config>, scatter: Option<Config>, bar: Option<Config>, histogram: Option<Config>) {
    && (forall i :: 1 <= i < |xs| ==> ExtraRank(scatter, bar, histogram, xs[i]) < 3)
    && (forall i, j :: 1 <= i < j < |xs| ==>
          ExtraRank(scatter, bar, histogram, xs[i]) < ExtraRank(scatter, bar, histogram, xs[j]))
  }

  /** The assembled list repeats no configuration and holds exactly the
      primary configuration and the extras that apply. */
  lemma {:induction false} AssembleContents(primary: Config, scatter: Option<Config>, bar: Option<Config>, histogram: Option<Config>)
    ensures Distinct(Assemble(primary, scatter, bar, histogram))
    ensures forall c :: c in Assemble(primary, scatter, bar, histogram) <==>
      c == primary || scatter == Some(c) || bar == Some(c) || histogram == Some(c)
    ensures |Assemble(primary, scatter, bar, histogram)| <=
      1 + (if scatter.Some? then 1 else 0) + (if bar.Some? then 1 else 0) + (if histogram.Some? then 1 else 0)
  {
    var one := [primary];
    AddExtraKeepsDistinct(one, scatter);
    var two := AddExtra(one, scatter);
    AddExtraKeepsDistinct(two, bar);
    var three := AddExtra(two, bar);
    AddExtraKeepsDistinct(three, histogram);
  }

  /** Every extra listed after the primary configuration ranks below `k`. */
  predicate RanksBelow(xs: seq<Config>, scatter: Option<Config>, bar: Option<Config>, histogram: Option<Config>, k: nat) {
    forall i :: 1 <= i < |xs| ==> ExtraRank(scatter, bar, histogram, xs[i]) < k
  }

  /** Adding an extra of rank `k` after extras ranked below `k` keeps the
      extras in order. */
  lemma AddInOrder(xs: seq<Config>, extra: Option<Config>, k: nat,
                   scatter: Option<Config>, bar: Option<Config>, histogram: Option<Config>)
    requires |xs| >= 1 && k < 3
    requires ExtrasInOrder(xs, scatter, bar, histogram) && RanksBelow(xs, scatter, bar, histogram, k)
    requires extra.Some? && extra.value !in xs ==> ExtraRank(scatter, bar, histogram, extra.value) == k
    ensures var r := AddExtra(xs, extra);
      ExtrasInOrder(r, scatter, bar, histogram) && RanksBelow(r, scatter, bar, histogram, k + 1)
  {
    if extra.Some? && extra.value !in xs {
      var r := xs + [extra.value];
      assert forall i :: 0 <= i < |xs| ==> r[i] == xs[i];
    }
  }

  /** The three extras are appended in their fixed order. */
  lemma AssembleInOrder(primary: Config, scatter: Option<Config>, bar: Option<Config>, histogram: Option<Config>)
    ensures ExtrasInOrder(Assemble(primary, scatter, bar, histogram), scatter, bar, histogram)
  {
    var one := [primary];
    AddInOrder(one, scatter, 0, scatter, bar, histogram);
    var two := AddExtra(one, scatter);
    assert scatter.Some? ==> scatter.value in two;
    AddInOrder(two, bar, 1, scatter, bar, histogram);
    var three := AddExtra(two, bar);
    assert scatter.Some? ==> scatter.value in three;
    assert bar.Some? ==> bar.value in three;
    AddInOrder(three, histogram, 2, scatter, bar, histogram);
  }

  /** The recommendations name the primary chart and exactly those extras
      whose conditions hold, each once; since a scatter plot needs two
      numeric columns and a histogram exactly one, there are never more than
      three, so the default limit of five never cuts the list. */
  lemma EnsembleContents(t: Table, target: Option<string>)
    requires Visualisable(t, target)
    ensures var all := Ensemble(t, target);
      && Distinct(all)
      && |all| <= 3
      && all[0] == PrimaryEntry(t, target)
      && (forall c :: c in all <==>
           c == PrimaryEntry(t, target) || ScatterExtra(t) == Some(c) || BarExtra(t) == Some(c) || HistogramExtra(t) == Some(c))
      && ExtrasInOrder(all, ScatterExtra(t), BarExtra(t), HistogramExtra(t))
  {
    AssembleContents(PrimaryEntry(t, target), ScatterExtra(t), BarExtra(t), HistogramExtra(t));
    AssembleInOrder(PrimaryEntry(t, target), ScatterExtra(t), BarExtra(t), HistogramExtra(t));
  }

  /** Every recommendation carries its chart type and a confidence of at most 1.0. */
  lemma EntriesCarryConfidence(t: Table, target: Option<string>)
    requires Visualisable(t, target)
    ensures forall c: Config :: c in Ensemble(t, target) ==>
      "chart_type" in c && "confidence" in c && c["confidence"].Confidence? && 0 <= c["confidence"].tenths <= Full
  {
    EnsembleContents(t, target);
  }

  /** When the scatter plot is the primary recommendation, the extra scatter
      plot is listed as well: the two bind the same columns and differ only
      in their confidence, so the duplicate check does not catch it. */
  lemma PrimaryScatterRepeated(t: Table, target: Option<string>)
    requires Visualisable(t, target) && RecommendChartType(t, target).chart == Scatter
    requires |Analyze(t).numeric| >= 2
    ensures ScatterExtra(t).Some? && ScatterExtra(t).value in Ensemble(t, target)
    ensures ScatterExtra(t).value != PrimaryEntry(t, target)
    ensures forall k :: k != "confidence" ==>
      (k in ScatterExtra(t).value <==> k in PrimaryEntry(t, target)) &&
      (k in ScatterExtra(t).value ==> ScatterExtra(t).value[k] == PrimaryEntry(t, target)[k])
  {
    EnsembleContents(t, target);
    assert Score(t, Scatter, target) == Full;
    assert PrimaryEntry(t, target)["confidence"] == Confidence(Full);
  }

  /** A limit of at least three keeps every recommendation. */
  lemma LargeLimitKeepsAll(t: Table, target: Option<string>, maxCharts: int)
    requires Visualisable(t, target) && maxCharts >= 3
    ensures RecommendVisualizations(Some(t), target, maxCharts) == Success(Ensemble(t, target))
  {
    var all := Ensemble(t, target);
    EnsembleContents(t, target);
    var r := RecommendVisualizations(Some(t), target, maxCharts);
    assert r.Success? && r.value == PyPrefix(all, maxCharts);
    assert |r.value| == |all|;
    assert all[..|all|] == all;
  }

  /** The recommendations never repeat a configuration and number at most
      three, and at most `maxCharts` when that is not negative. */
  lemma VisualizationsBounded(t: Table, target: Option<string>, maxCharts: int)
    requires Visualisable(t, target)
    ensures var r := RecommendVisualizations(Some(t), target, maxCharts);
      && r.Success?
      && Distinct(r.value)
      && |r.value| <= 3
      && (maxCharts >= 0 ==> |r.value| <= maxCharts)
  {
    var all := Ensemble(t, target);
    EnsembleContents(t, target);
    var r := PyPrefix(all, maxCharts);
    assert forall i :: 0 <= i < |r| ==> r[i] == all[i];
  }

  /** A table without columns cannot be visualised: whichever chart wins,
      its configuration indexes a column that does not exist. */
  lemma NoColumnsNoVisualizations(t: Table, target: Option<string>, maxCharts: int)
    requires |t.columns| == 0
    ensures RecommendVisualizations(Some(t), target, maxCharts) == Failure(ColumnIndexOutOfRange)
  {
    var s := Analyze(t);
    assert |s.numeric| == 0 && |s.columnNames| == 0;
  }

  /** Two columns are always enough for the primary configuration. */
  lemma TwoColumnsSuffice(t: Table, target: Option<string>)
    requires |t.columns| >= 2
    ensures Visualisable(t, target)
  {
    assert |Analyze(t).columnNames| >= 2;
  }

  /** `ChartType(name)`: the chart type whose value string is `name`. */
  function ParseChartType(name: string): (r: Result<ChartType, Error>)
    ensures r.Success? ==> ChartName(r.value) == name
    ensures r.Failure? ==> r.error == InvalidChartType(name)
  {
    if name == "bar" then Success(Bar)
    else if name == "line" then Success(Line)
    else if name == "pie" then Success(Pie)
    else if name == "scatter" then Success(Scatter)
    else if name == "area" then Success(Area)
    else if name == "histogram" then Success(Histogram)
    else Failure(InvalidChartType(name))
  }

  /** Parsing accepts exactly the six value strings, each naming its own type. */
  lemma ParseChartTypeInverts(name: string, ct: ChartType)
    ensures ParseChartType(ChartName(ct)) == Success(ct)
    ensures ParseChartType(name).Failure? <==> forall c :: ChartName(c) != name
  {
  }

  /** The stacked variants the styler knows are not chart types: a custom
      chart of either kind is refused once the data has loaded. */
  lemma StackedChartTypesRejected(source: Source, read: (Reader, string) -> Table, config: Config, outputPath: Option<string>)
    requires LoadData(source, read).Success?
    ensures CreateCustomChart("stacked_bar", source, read, config, outputPath) == Failure(InvalidChartType("stacked_bar"))
    ensures CreateCustomChart("stacked_area", source, read, config, outputPath) == Failure(InvalidChartType("stacked_area"))
  {
    StackedNamesUnparsed();
  }

  lemma StackedNamesUnparsed()
    ensures ParseChartType("stacked_bar").Failure? && ParseChartType("stacked_area").Failure?
  {
    assert |"stacked_bar"| == 11 && |"stacked_area"| == 12;
  }

  /** `auto.update(user)`: every key of either, the user's value winning. */
  function MergeConfig(auto: Config, user: Config): (r: Config)
    ensures r.Keys == auto.Keys + user.Keys
    ensures forall k :: k in user ==> r[k] == user[k]
    ensures forall k :: k in auto && k !in user ==> r[k] == auto[k]
  {
    auto + user
  }

  /** Updating twice with the same settings is updating once, and an empty
      update changes nothing. */
  lemma MergeConfigIdempotent(auto: Config, user: Config)
    ensures MergeConfig(MergeConfig(auto, user), user) == MergeConfig(auto, user)
    ensures MergeConfig(auto, map[]) == auto
  {
  }

  predicate IsAsciiLetter(c: char) {
    'a' <= c <= 'z' || 'A' <= c <= 'Z'
  }

  function Upper(c: char): char {
    if 'a' <= c <= 'z' then (c as int - 32) as char else c
  }

  /** `str.title` on ASCII text: a letter is upper-cased when it follows a
      non-letter (or starts the text) and lower-cased otherwise. */
  function TitleFrom(s: string, afterLetter: bool): (r: string)
    ensures |r| == |s|
  {
    if |s| == 0 then []
    else
      var c := s[0];
      var d := if !IsAsciiLetter(c) then c else if afterLetter then Lower(c) else Upper(c);
      [d] + TitleFrom(s[1..], IsAsciiLetter(c))
  }

  function TitleCase(s: string): (r: string)
    ensures |r| == |s|
  {
    TitleFrom(s, false)
  }

  /** Lower-case letters following a letter stay as they are. */
  lemma {:induction false} TitleKeepsLowerTail(s: string)
    requires forall i :: 0 <= i < |s| ==> 'a' <= s[i] <= 'z'
    ensures TitleFrom(s, true) == s
  {
    if |s| > 0 {
      TitleKeepsLowerTail(s[1..]);
    }
  }

  /** A chart type's value string comes out of `str.title` with only its
      first letter capitalised. */
  lemma TitleOfChartName(ct: ChartType)
    ensures var name := ChartName(ct);
      TitleCase(name) == [Upper(name[0])] + name[1..] && 'A' <= TitleCase(name)[0] <= 'Z'
  {
    var name := ChartName(ct);
    TitleKeepsLowerTail(name[1..]);
  }

  /** `s.replace(' ', '_')`. */
  function Underscored(s: string): (r: string)
    ensures |r| == |s|
    ensures forall i :: 0 <= i < |s| ==> r[i] == (if s[i] == ' ' then '_' else s[i])
  {
    if |s| == 0 then [] else [if s[0] == ' ' then '_' else s[0]] + Underscored(s[1..])
  }

  /** The file the renderer writes a deck titled `title` to. */
  function PresentationFile(title: string): (r: string)
    ensures |r| == |title| + 5 && r[|title|..] == ".pptx"
    ensures forall i :: 0 <= i < |title| ==> r[i] == (if title[i] == ' ' then '_' else title[i])
    ensures forall i :: 0 <= i < |title| ==> r[i] != ' '
  {
    Underscored(title) + ".pptx"
  }

  /** A deck to render: its table, chart configurations and title, the path
      it ends up at, and the rendered file it is moved from, if any. */
  datatype DeckPlan = DeckPlan(data: Table, configs: seq<Config>, title: string, outputPath: string, movedFrom: Option<string>)

  /** The deck is rendered to its title's file and moved when the requested
      path differs. */
  function Placement(title: string, outputPath: string): (r: Option<string>)
    ensures r.None? <==> outputPath == PresentationFile(title)
    ensures r.Some? ==> r.value == PresentationFile(title)
  {
    if outputPath != PresentationFile(title) then Some(PresentationFile(title)) else None
  }

  /** `create_custom_chart`: load, validate the chart type, configure it
      without a target, apply the caller's settings and name the deck. */
  function CreateCustomChart(chartType: string, source: Source, read: (Reader, string) -> Table,
                             config: Config, outputPath: Option<string>): (r: Result<DeckPlan, Error>)
    ensures LoadData(source, read).Failure? ==> r == Failure(LoadData(source, read).error)
    ensures LoadData(source, read).Success? && ParseChartType(chartType).Failure? ==> r == Failure(InvalidChartType(chartType))
    ensures r.Success? ==> ParseChartType(chartType).Success? && r.value.data == LoadData(source, read).value
    ensures r.Success? ==> |r.value.configs| == 1 && r.value.title == TitleCase(chartType) + " Chart Analysis"
    ensures LoadData(source, read).Success? && ParseChartType(chartType).Success? ==>
      (r.Success? <==> Bindable(Analyze(LoadData(source, read).value), ParseChartType(chartType).value)) &&
      (r.Failure? ==> r.error == ColumnIndexOutOfRange)
    ensures r.Success? ==> r.value.outputPath == (if outputPath.Some? then outputPath.value else chartType + "_chart.pptx")
    ensures r.Success? ==> (r.value.movedFrom.None? <==> r.value.outputPath == PresentationFile(r.value.title))
    ensures r.Success? && r.value.movedFrom.Some? ==> r.value.movedFrom.value == PresentationFile(r.value.title)
  {
    match LoadData(source, read)
    case Failure(e) => Failure(e)
    case Success(t) =>
      match ParseChartType(chartType)
      case Failure(e) => Failure(e)
      case Success(ct) =>
        if !Bindable(Analyze(t), ct) then Failure(ColumnIndexOutOfRange)
        else
          var title := TitleCase(chartType) + " Chart Analysis";
          var out := if outputPath.Some? then outputPath.value else chartType + "_chart.pptx";
          Success(DeckPlan(t, [MergeConfig(GetChartConfig(t, ct, None), config)], title, out, Placement(title, out)))
  }

  /** The custom chart's configuration is the automatic one for its type,
      built without a target, with the caller's settings laid over it. */
  lemma CustomChartConfig(chartType: string, source: Source, read: (Reader, string) -> Table, config: Config, outputPath: Option<string>)
    requires LoadData(source, read).Success? && ParseChartType(chartType).Success?
    requires Bindable(Analyze(LoadData(source, read).value), ParseChartType(chartType).value)
    ensures var plan := CreateCustomChart(chartType, source, read, config, outputPath).value;
      var ct := ParseChartType(chartType).value;
      && Bindable(Analyze(plan.data), ct)
      && plan.configs == [MergeConfig(GetChartConfig(plan.data, ct, None), config)]
      && plan.configs[0].Keys == ConfigKeys(ct) + config.Keys
  {
  }

  /** Without a requested path the custom deck goes to `<type>_chart.pptx`,
      which never matches the rendered file name, so it is always moved. */
  lemma CustomChartDefaultPathMoved(chartType: string, source: Source, read: (Reader, string) -> Table, config: Config)
    requires LoadData(source, read).Success? && ParseChartType(chartType).Success?
    requires Bindable(Analyze(LoadData(source, read).value), ParseChartType(chartType).value)
    ensures var plan := CreateCustomChart(chartType, source, read, config, None).value;
      plan.outputPath == chartType + "_chart.pptx" && plan.movedFrom == Some(PresentationFile(plan.title))
  {
    var plan := CreateCustomChart(chartType, source, read, config, None).value;
    assert |plan.outputPath| == |chartType| + 11;
    assert |PresentationFile(plan.title)| == |chartType| + 20;
  }

  /** `create_presentation`: load, take the caller's configurations or else
      the recommended ones (all of them, or the single best without a
      confidence), and name the deck. */
  function CreatePresentation(source: Source, read: (Reader, string) -> Table, outputPath: Option<string>,
                              title: string, target: Option<string>, autoRecommend: bool,
                              chartConfigs: Option<seq<Config>>): (r: Result<DeckPlan, Error>)
    ensures LoadData(source, read).Failure? ==> r == Failure(LoadData(source, read).error)
    ensures r.Success? ==> r.value.data == LoadData(source, read).value && r.value.title == title
    ensures r.Success? && chartConfigs.Some? ==> r.value.configs == chartConfigs.value
    ensures LoadData(source, read).Success? && chartConfigs.Some? ==> r.Success?
    ensures r.Success? ==> r.value.outputPath == (if outputPath.Some? then outputPath.value else PresentationFile(title))
    ensures r.Success? ==> (r.value.movedFrom.None? <==> r.value.outputPath == PresentationFile(title))
    ensures r.Success? && r.value.movedFrom.Some? ==> r.value.movedFrom.value == PresentationFile(title)
  {
    match LoadData(source, read)
    case Failure(e) => Failure(e)
    case Success(t) => PlanDeck(t, outputPath, title, target, autoRecommend, chartConfigs)
  }

  /** The deck for loaded data: the caller's configurations, the
      recommendations, or the best chart alone, saved at the requested path
      or at the default one. */
  function PlanDeck(t: Table, outputPath: Option<string>, title: string, target: Option<string>,
                    autoRecommend: bool, chartConfigs: Option<seq<Config>>): (r: Result<DeckPlan, Error>)
    ensures r.Success? ==> r.value.data == t && r.value.title == title
    ensures chartConfigs.Some? ==> r.Success? && r.value.configs == chartConfigs.value
    ensures r.Success? ==> r.value.outputPath == (if outputPath.Some? then outputPath.value else PresentationFile(title))
    ensures r.Success? ==> (r.value.movedFrom.None? <==> r.value.outputPath == PresentationFile(title))
    ensures r.Success? && r.value.movedFrom.Some? ==> r.value.movedFrom.value == PresentationFile(title)
  {
    var configs :=
      if chartConfigs.Some? then Success(chartConfigs.value)
      else if autoRecommend then RecommendVisualizations(Some(t), target, 5)
      else if Visualisable(t, target) then Success([GetChartConfig(t, RecommendChartType(t, target).chart, target)])
      else Failure(ColumnIndexOutOfRange);
    match configs
    case Failure(e) => Failure(e)
    case Success(cs) =>
      var out := if outputPath.Some? then outputPath.value else PresentationFile(title);
      Success(DeckPlan(t, cs, title, out, Placement(title, out)))
  }

  /** Without caller configurations the deck holds every recommendation
      (the default limit of five never cuts them) or, without automatic
      recommendation, the best chart alone; without a requested path the
      deck stays where it was rendered. */
  lemma PresentationContents(source: Source, read: (Reader, string) -> Table, outputPath: Option<string>,
                             title: string, target: Option<string>, autoRecommend: bool)
    requires LoadData(source, read).Success?
    ensures var t := LoadData(source, read).value;
      var r := CreatePresentation(source, read, outputPath, title, target, autoRecommend, None);
      && (r.Success? <==> Visualisable(t, target))
      && (r.Success? && autoRecommend ==> r.value.configs == Ensemble(t, target))
      && (r.Success? && !autoRecommend ==> r.value.configs == [GetChartConfig(t, RecommendChartType(t, target).chart, target)])
      && (r.Success? && outputPath.None? ==> r.value.outputPath == PresentationFile(title) && r.value.movedFrom.None?)
  {
    DeckContents(LoadData(source, read).value, outputPath, title, target, autoRecommend);
  }

  lemma DeckContents(t: Table, outputPath: Option<string>, title: string, target: Option<string>, autoRecommend: bool)
    ensures var r := PlanDeck(t, outputPath, title, target, autoRecommend, None);
      && (r.Success? <==> Visualisable(t, target))
      && (r.Success? && autoRecommend ==> r.value.configs == Ensemble(t, target))
      && (r.Success? && !autoRecommend ==> r.value.configs == [GetChartConfig(t, RecommendChartType(t, target).chart, target)])
      && (r.Success? && outputPath.None? ==> r.value.outputPath == PresentationFile(title) && r.value.movedFrom.None?)
  {
    if Visualisable(t, target) {
      LargeLimitKeepsAll(t, target, 5);
    }
  }

  /** The data-quality figures of `get_data_insights`, in percent. */
  datatype Quality = Quality(completeness: real, numericRatio: real, categoricalRatio: real)

  /** The analysis together with the recommendation made without a target
      and the data-quality figures. */
  datatype Insights = Insights(analysis: Summary, primaryChart: string, confidence: nat, quality: Quality)

  /** The sum of `m` over the keys `ks`. */
  function SumOver(m: map<string, nat>, ks: seq<string>): (r: nat)
    requires forall i :: 0 <= i < |ks| ==> ks[i] in m
  {
    if |ks| == 0 then 0 else m[ks[0]] + SumOver(m, ks[1..])
  }

  /** A sum of naturals is zero exactly when every term is. */
  lemma {:induction false} SumOverZero(m: map<string, nat>, ks: seq<string>)
    requires forall i :: 0 <= i < |ks| ==> ks[i] in m
    ensures SumOver(m, ks) == 0 <==> forall i :: 0 <= i < |ks| ==> m[ks[i]] == 0
  {
    if |ks| > 0 {
      SumOverZero(m, ks[1..]);
      assert forall i :: 1 <= i < |ks| ==> ks[i] == ks[1..][i - 1];
    }
  }

  /** A sum of `|ks|` terms each at most `bound` is at most `|ks| * bound`. */
  lemma {:induction false} SumOverBound(m: map<string, nat>, ks: seq<string>, bound: nat)
    requires forall i :: 0 <= i < |ks| ==> ks[i] in m && m[ks[i]] <= bound
    ensures SumOver(m, ks) <= |ks| * bound
  {
    if |ks| > 0 {
      SumOverBound(m, ks[1..], bound);
    }
  }

  /** `sum(missing_values.values())`: each column name's count once. */
  function TotalMissing(t: Table): nat {
    var s := Analyze(t);
    AnalyzeCounts(t);
    SumOver(s.missing, Dedup(s.columnNames))
  }

  /** The three percentages for a table of `rows` by `cols` cells with
      `missing` missing cells and the given numbers of numeric and
      categorical columns. */
  function QualityOf(missing: nat, rows: nat, cols: nat, numeric: nat, categorical: nat): Quality
    requires rows * cols != 0
  {
    Quality(
      (1.0 - missing as real / (rows * cols) as real) * 100.0,
      numeric as real / cols as real * 100.0,
      categorical as real / cols as real * 100.0)
  }

  /** A product of naturals is zero exactly when a factor is. */
  lemma ProductZero(a: nat, b: nat)
    ensures a * b == 0 <==> a == 0 || b == 0
  {
    if a > 0 && b > 0 {
      assert a * b >= b by {
        assert a * b == (a - 1) * b + b;
      }
    }
  }

  /** `get_data_insights`; `ZeroDivision` when the table has no rows or no
      columns, as the completeness divides by their product. */
  function GetDataInsights(data: Option<Table>): (r: Result<Insights, Error>)
    ensures data.None? ==> r == Failure(NoDataLoaded)
    ensures data.Some? ==> (r.Failure? <==> data.value.rows == 0 || |data.value.columns| == 0)
    ensures r.Failure? && data.Some? ==> r.error == ZeroDivision
    ensures r.Success? ==> r.value.analysis == Analyze(data.value)
    ensures r.Success? ==>
      r.value.primaryChart == ChartName(RecommendChartType(data.value, None).chart) &&
      r.value.confidence == RecommendChartType(data.value, None).confidence
  {
    match data
    case None => Failure(NoDataLoaded)
    case Some(t) =>
      var s := Analyze(t);
      var best := RecommendChartType(t, None);
      ProductZero(s.rows, s.cols);
      if s.rows * s.cols == 0 then Failure(ZeroDivision)
      else
        var q := QualityOf(TotalMissing(t), s.rows, s.cols, |s.numeric|, |s.categorical|);
        Success(Insights(s, ChartName(best.chart), best.confidence, q))
  }

  /** Completeness lies in [0, 100] when the missing cells fit the table,
      and is 100 exactly when nothing is missing. */
  lemma CompletenessBounds(missing: nat, cells: nat)
    requires 0 < cells && missing <= cells
    ensures var c := (1.0 - missing as real / cells as real) * 100.0;
      0.0 <= c <= 100.0 && (c == 100.0 <==> missing == 0)
  {
    var share := missing as real / cells as real;
    assert share * cells as real == missing as real;
    assert 0.0 <= share <= 1.0;
  }

  /** Two column counts that together fit the columns give ratios that
      together stay within 100. */
  lemma RatioBounds(numeric: nat, categorical: nat, cols: nat)
    requires 0 < cols && numeric + categorical <= cols
    ensures var c := cols as real;
      && 0.0 <= numeric as real / c * 100.0 && 0.0 <= categorical as real / c * 100.0
      && numeric as real / c * 100.0 + categorical as real / c * 100.0 <= 100.0
  {
    var c := cols as real;
    assert numeric as real / c + categorical as real / c == (numeric + categorical) as real / c;
    assert (numeric + categorical) as real / c <= 1.0;
  }

  /** The percentages lie in [0, 100] when the counts fit the table, the two
      role ratios together stay within 100, and completeness is 100 exactly
      when nothing is missing. */
  lemma QualityBounds(missing: nat, rows: nat, cols: nat, numeric: nat, categorical: nat)
    requires rows * cols != 0 && missing <= rows * cols && numeric + categorical <= cols
    ensures var q := QualityOf(missing, rows, cols, numeric, categorical);
      && 0.0 <= q.completeness <= 100.0
      && (q.completeness == 100.0 <==> missing == 0)
      && 0.0 <= q.numericRatio && 0.0 <= q.categoricalRatio
      && q.numericRatio + q.categoricalRatio <= 100.0
  {
    CompletenessBounds(missing, rows * cols);
    RatioBounds(numeric, categorical, cols);
  }

  /** Each column name's missing count is at most the number of rows, so
      the total is at most the number of cells. */
  lemma TotalMissingFits(t: Table)
    requires Rectangular(t)
    ensures TotalMissing(t) <= t.rows * |t.columns|
  {
    var s := Analyze(t);
    var ks := Dedup(s.columnNames);
    assert forall i :: 0 <= i < |ks| ==> ks[i] in s.missing && s.missing[ks[i]] <= t.rows by {
      AnalyzeCounts(t);
      CountsFitRows(t);
    }
    SumOverBound(s.missing, ks, t.rows);
    MultiplyMonotone(|ks|, |t.columns|, t.rows);
  }

  lemma MultiplyMonotone(a: nat, b: nat, c: nat)
    requires a <= b
    ensures a * c <= c * b
  {
    assert b * c == a * c + (b - a) * c;
  }

  /** For a rectangular table the insights' percentages lie in [0, 100],
      the numeric and categorical ratios together stay within 100, and the
      completeness is 100 exactly when no column name has a missing cell. */
  lemma InsightsBounds(t: Table)
    requires Rectangular(t) && t.rows > 0 && |t.columns| > 0
    ensures var r := GetDataInsights(Some(t));
      var s := Analyze(t);
      && r.Success?
      && 0.0 <= r.value.quality.completeness <= 100.0
      && 0.0 <= r.value.quality.numericRatio && 0.0 <= r.value.quality.categoricalRatio
      && r.value.quality.numericRatio + r.value.quality.categoricalRatio <= 100.0
      && (r.value.quality.completeness == 100.0 <==> forall n :: n in s.missing ==> s.missing[n] == 0)
  {
    var s := Analyze(t);
    ProductZero(s.rows, s.cols);
    TotalMissingFits(t);
    RolesFitColumns(t.columns);
    QualityBounds(TotalMissing(t), s.rows, s.cols, |s.numeric|, |s.categorical|);
    AnalyzeCounts(t);
    var ks := Dedup(s.columnNames);
    SumOverZero(s.missing, ks);
    assert forall n :: n in s.missing ==> n in ks by {
      forall n | n in s.missing ensures n in ks {
        var i :| 0 <= i < |s.columnNames| && s.columnNames[i] == n;
      }
    }
  }
}
