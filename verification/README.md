# Chart recommendation for the PowerPoint skill generator, in Dafny

This project models the decision logic of a tool that turns a table into a
branded PowerPoint deck of charts:

- **Structural analysis** (`DataAnalyzer.analyze_data`). The columns are
  split into numeric, categorical and datetime role lists, in column order.
  Each column name gets a missing-value count and a distinct-value count.
  The summary also records whether descriptive statistics and a
  correlation matrix would be present.
- **Scoring and selection** (`_should_use_*`, `recommend_chart_type`). Six
  additive suitability rules score bar, line, pie, scatter, area and
  histogram charts, each capped at 1.0. The best chart is the first one in
  declaration order whose score is maximal.
- **Column binding** (`get_chart_config`). Each chart type has a policy for
  which columns become its axes, labels and values, with fallbacks to the
  table's first or second column, plus a clamped histogram bin count.
- **The skill generator** (`PowerPointSkillGenerator`). It covers:
  - how a data source is loaded, dispatched on the file extension;
  - the fixed ensemble of recommended charts, de-duplicated and cut to a
    limit;
  - chart-type validation and settings merge for a single custom chart;
  - the file names a deck is rendered to and moved to;
  - the data-quality percentages of the insights.
- **Branding** (`RBCBranding`). It covers the colour, font and palette
  tables, palette selection with wrap-around, and the per-chart style
  dictionaries.

Numbers are abstracted:

- Scores are integer tenths, so 1.0 is `Scoring.Full`, which is 10.
- Style fractions are integer hundredths.
- The data-quality figures are exact reals.

A table is a row count and a sequence of named columns. Each column has a
declared kind (numeric, categorical, datetime or other) and optional cells.

Every operation is a pure function. It returns either the value the Python
code computes or the error it raises (`Base.Result`). Operations that render
a deck return the plan they would render instead: its data, chart
configurations, title, final path, and the file it is moved from.

The modules follow the program:

| module | file | models |
|---|---|---|
| `Base` | `base.dfy` | optional values, results, the generator's errors, Python slicing, repetition |
| `Tables` | `tables.dfy` | the table |
| `Analyzer` | `analyzer.dfy` | `analyze_data` |
| `Scoring` | `scoring.dfy` | the six rules |
| `Recommender` | `recommender.dfy` | `recommend_chart_type`, `get_chart_config` |
| `BindingPolicy` | `recommender.dfy` | an independent, scan-based restatement of the binding policy, proved equal to `get_chart_config` |
| `Scenarios` | `scenarios.dfy` | what is recommended for characteristic tables |
| `Loading` | `loading.dfy` | `load_data` |
| `SkillGenerator` | `skill_generator.dfy` | the generator's operations |
| `Branding` | `branding.dfy` | `rbc_branding.py` |

Some behaviour of the code is easy to misread. The model follows the code in
each case:

- A table without columns and with fewer than 20 rows is not refused.
  `recommend_chart_type` returns bar with confidence 0
  (`Scenarios.EmptyTableIsBar`). With 20 to 50 rows the same table gets
  histogram at 0.3, because the histogram rule awards 0.3 for size alone
  (`Scenarios.NoNumbersYetHistogram`).
- A histogram can win without any numeric column
  (`Scenarios.NoNumbersYetHistogram`). So can a pie chart
  (`Scenarios.CategoriesOnlyIsPie`).
- The value column is taken from Python's operator precedence,
  `(target or numeric[0]) if numeric else columns[j]`. A truthy target is
  bound even when it is not numeric (`BindingPolicy.TargetTakesValueColumn`).
  Without numeric columns the target is ignored
  (`BindingPolicy.TargetIgnoredWithoutNumbers`).
- `stacked_bar` and `stacked_area` are not chart types. `create_custom_chart`
  refuses them (`SkillGenerator.StackedChartTypesRejected`). The styler has
  styles for them, and `test_stacked_charts.py:90-91`, `:107-108` and
  `:121-122` pass `stacked_bar` and `stacked_area` to `create_custom_chart`;
  in the model each of those calls raises the invalid-chart-type error.
- The de-duplication of recommendations compares whole configurations,
  confidence included. A primary scatter plot is therefore listed twice
  (`SkillGenerator.PrimaryScatterRepeated`).

## Model

| member | source | states |
|---|---|---|
| Tables.MissingCount | data_analyzer.py:33 | a column's `isnull().sum()` is at most its length, is zero exactly when no cell is missing, and equals the length exactly when every cell is missing |
| Tables.PresentValues | data_analyzer.py:34 | the values `nunique` counts are exactly the values of present cells; missing cells are ignored |
| Tables.DistinctAndMissingFit | data_analyzer.py:33-34 | a column's distinct values and its missing cells together never outnumber its cells |
| Tables.Lookup | data_analyzer.py:119 | `data[name]` finds a column exactly when the name is a column name, and the column found carries that name |
| Analyzer.NamesOfKindListsKind | data_analyzer.py:30-32 | each `select_dtypes` list is an order-preserving subsequence of the column names and names exactly the columns of its kind |
| Analyzer.LastWinsByName | data_analyzer.py:33-34 | a dictionary built column by column has one key per column name, each holding the value of the last column with that name |
| Analyzer.Analyze | data_analyzer.py:25-41 | the summary records the frame's shape and column names, and no role list is longer than the column list |
| Analyzer.AnalyzeRoles | data_analyzer.py:30-32 | the numeric, categorical and datetime lists name exactly the columns of their kinds, in column order |
| Analyzer.AnalyzeCounts | data_analyzer.py:33-34 | `missing_values` and `unique_counts` are keyed by exactly the column names and hold each column's missing and distinct counts; every categorical column has a distinct count |
| Analyzer.AnalyzeStatistics | data_analyzer.py:38-39 | statistics list exactly the columns declared numeric, in column order, and are empty exactly when no column is declared numeric; the correlation matrix is empty exactly when fewer than two columns are declared numeric, and otherwise covers exactly the numeric columns |
| Analyzer.NamesOfKindCount | data_analyzer.py:30-39 | a kind's name list is empty exactly when no column has that kind, and has two or more entries exactly when two columns have it |
| Analyzer.RolesDisjoint | data_analyzer.py:30-32 | with unique column names no column is listed under two roles |
| Analyzer.NamesOfKindDistinct | data_analyzer.py:30-32 | with unique column names no role list repeats a name |
| Analyzer.RolesFitColumns | data_analyzer.py:30-32 | the three role lists together are no longer than the column list |
| Analyzer.CountsFitRows | data_analyzer.py:33-34 | in a rectangular table each name's distinct and missing counts together fit in the row count |
| Scoring.Clamp | data_analyzer.py:80 | `min(score, 1.0)` never exceeds 1.0 or the score, and leaves scores up to 1.0 unchanged |
| Scoring.MaxCardinality | data_analyzer.py:74 | the value is the distinct count of some listed column and no listed column has more |
| Scoring.BarScore | data_analyzer.py:57-80 | bar scores at most 1.0, at least 0.8 with a categorical and a numeric column, at most 0.4 without both, and 1.0 when also no categorical column exceeds 20 values |
| Scoring.LineScore | data_analyzer.py:82-98 | line scores at most 1.0, at least 0.9 with a datetime column, 1.0 with a datetime and a numeric column, and at most 0.8 without a datetime column |
| Scoring.PieScore | data_analyzer.py:100-123 | pie scores at most 1.0, at most 0.2 without categorical columns, and 1.0 for one numeric and one categorical column of 2 to 7 values |
| Scoring.ScatterScore | data_analyzer.py:125-141 | scatter scores 1.0 with two numeric columns and otherwise at most 0.2, reached exactly when there are more than 50 rows |
| Scoring.AreaScore | data_analyzer.py:143-155 | area scores at most 1.0, at least 0.7 with a datetime column, 1.0 with a datetime and a numeric column, and at most 0.5 without a datetime column |
| Scoring.HistogramScore | data_analyzer.py:157-173 | histogram scores at least 0.8 with exactly one numeric column, 1.0 when there are also 20 rows, and without numeric columns at most 0.3, reached exactly when there are 20 rows |
| Scoring.PieTargetBonus | data_analyzer.py:117-121 | the target changes the pie score only if it names a numeric column whose present values are all non-negative, and then adds 0.2 up to the cap |
| Recommender.Order | data_analyzer.py:16-23 | each chart type has its own position in the declared rule order |
| Recommender.ScoreOf | data_analyzer.py:16-23 | every rule in the table scores within [0, 1.0] |
| Recommender.FirstArgMax | data_analyzer.py:52 | Python's `max` over the scores picks a maximal position before which every score is strictly smaller |
| Recommender.FirstBest | data_analyzer.py:47-55 | the pick's confidence is its score, no chart scores higher, and every chart declared earlier scores strictly lower |
| Recommender.BestFor | data_analyzer.py:47-55 | the same first-best guarantee over the rule table applied to a summary |
| Recommender.RecommendChartType | data_analyzer.py:43-55 | the recommended chart has the maximal score, ties go to the chart declared first, and the confidence is that score |
| Recommender.Bins | data_analyzer.py:215 | the histogram bin count lies in [5, 30], is 5 below 50 rows, `rows // 10` for 50 to 309 rows, and 30 from 300 rows on |
| Recommender.ConfigFor | data_analyzer.py:175-218 | each configuration carries exactly its type's keys, `chart_type` is the requested type's value string, bar charts are vertical, and histograms carry the clamped bin count |
| Recommender.GetChartConfig | data_analyzer.py:175-218 | the configuration built from a table carries exactly its type's keys and its type's value string, bar charts are vertical, and histograms carry the clamped bin count for the table's rows |
| BindingPolicy.PickFirstAgrees | data_analyzer.py:182 | scanning for the first column of a kind finds the head of its role list, or else the fallback column, exactly when the indexing succeeds |
| BindingPolicy.PickSecondAgrees | data_analyzer.py:203 | scanning for the second column of a kind finds the second entry of its role list, or else the fallback column, exactly when the indexing succeeds |
| BindingPolicy.ValueAgrees | data_analyzer.py:183 | the scanned value column is the one the precedence expression selects, found exactly when the indexing succeeds |
| BindingPolicy.BindableIffReferenceFinds | data_analyzer.py:180-216 | `get_chart_config` indexes no missing column exactly when the scan-based policy finds a column for every binding |
| BindingPolicy.ConfigMatchesReference | data_analyzer.py:180-216 | when its indexing succeeds, `get_chart_config` binds, key by key, the columns the scan-based policy finds |
| BindingPolicy.TargetIgnoredWithoutNumbers | data_analyzer.py:183 | without numeric columns the configuration is the same for every target |
| BindingPolicy.TargetTakesValueColumn | data_analyzer.py:183 | with a numeric column, a truthy target becomes the value column of every chart type but scatter, whatever it names |
| BindingPolicy.ScatterAxesDiffer | data_analyzer.py:199-204 | with unique names and two numeric columns, the scatter axes are two different numeric columns |
| BindingPolicy.BindingsNameColumns | data_analyzer.py:180-216 | every bound column is a column of the table, except a target bound as the value column |
| Scenarios.BestIsDetermined | data_analyzer.py:52-55 | a chart whose score is maximal and beats every chart declared before it is the one recommended, with that score |
| Scenarios.RuleIgnoresNonNumericTarget | data_analyzer.py:57-173 | every rule reads the target only through "is it a numeric column" |
| Scenarios.NonNumericTargetIgnored | data_analyzer.py:43-55 | a target that is not a numeric column leaves the recommendation as it is without one |
| Scenarios.CategoryAgainstNumberIsBar | data_analyzer.py:57-80 | a categorical and a numeric column, with no categorical column over 20 values, yield bar at 1.0 whatever the target |
| Scenarios.TimeSeriesIsLine | data_analyzer.py:82-98 | a datetime and a numeric column without categorical columns yield line at 1.0 |
| Scenarios.NumbersOnlyIsScatter | data_analyzer.py:125-141 | two or more numeric columns and no categorical or datetime column yield scatter at 1.0 |
| Scenarios.SingleNumberIsHistogram | data_analyzer.py:157-173 | one numeric column over at least 20 rows, with no categorical or datetime column, yields histogram at 1.0 |
| Scenarios.CategoriesOnlyIsPie | data_analyzer.py:100-123 | categorical columns alone, one of them with 2 to 7 values, yield pie at 0.6 |
| Scenarios.NoNumbersYetHistogram | data_analyzer.py:157-173 | with no numeric, categorical or datetime column and 20 to 50 rows, histogram wins at 0.3 |
| Scenarios.EmptyTableIsBar | data_analyzer.py:43-55 | a table without columns and with fewer than 20 rows is not refused; it gets bar at 0 |
| Loading.SplitExt | ppt_skill_generator.py:31 | `os.path.splitext` splits the path into two parts that concatenate back to it; the extension is empty or a dot followed by neither dots nor separators |
| Loading.SplitExtOfAppended | ppt_skill_generator.py:31 | appending an extension to a file name that is not all dots is undone by `splitext` |
| Loading.LowerString | ppt_skill_generator.py:31 | lower-casing keeps the length and lower-cases each character |
| Loading.ReaderFor | ppt_skill_generator.py:31-40 | a path is read with the reader its lower-cased extension belongs to; otherwise it is refused as unsupported, naming the extension |
| Loading.ReaderOfExtension | ppt_skill_generator.py:33-40 | `.csv` selects CSV, `.xlsx` and `.xls` Excel, `.json` JSON, and any other extension is unsupported |
| Loading.ReaderForAppended | ppt_skill_generator.py:31-38 | a file name ending in a supported extension, in any letter case, is read with that extension's reader |
| Loading.LoadData | ppt_skill_generator.py:20-45 | a frame is taken as given, a path is read by its extension's reader or refused, and any other value is refused |
| SkillGenerator.WithConfidence | ppt_skill_generator.py:66 | setting the confidence adds that one key and keeps every other entry |
| SkillGenerator.AppendIfAbsent | ppt_skill_generator.py:74-75 | the list afterwards extends the old one, contains the configuration, and has grown only if it was absent |
| SkillGenerator.PrimaryEntry | ppt_skill_generator.py:64-67 | the first recommendation names the best chart and carries its score as confidence |
| SkillGenerator.ScatterExtra | ppt_skill_generator.py:70-75 | an extra scatter plot at 0.7 is offered exactly when there are two numeric columns |
| SkillGenerator.BarExtra | ppt_skill_generator.py:77-82 | an extra bar chart at 0.8 is offered exactly when there are a categorical and a numeric column |
| SkillGenerator.HistogramExtra | ppt_skill_generator.py:84-89 | an extra histogram at 0.6 is offered exactly when there is exactly one numeric column |
| SkillGenerator.RecommendVisualizations | ppt_skill_generator.py:47-91 | fails when nothing is loaded or the best chart's columns are missing, and otherwise returns the primary-plus-extras ensemble sliced to the limit |
| SkillGenerator.AddExtraKeepsDistinct | ppt_skill_generator.py:74-89 | adding an extra only when absent keeps the list free of repeats and adds exactly that extra |
| SkillGenerator.AssembleInOrder | ppt_skill_generator.py:70-89 | after the primary entry the added extras appear in the order scatter, bar, histogram |
| SkillGenerator.AssembleContents | ppt_skill_generator.py:61-89 | the assembled list repeats nothing, holds exactly the primary and the applicable extras, and has at most one entry per candidate |
| SkillGenerator.EnsembleContents | ppt_skill_generator.py:61-89 | the recommendations start with the primary entry, hold exactly the extras whose conditions apply, in the order scatter, bar, histogram, repeat nothing, and number at most three |
| SkillGenerator.EntriesCarryConfidence | ppt_skill_generator.py:64-89 | every recommendation carries a chart type and a confidence within [0, 1.0] |
| SkillGenerator.PrimaryScatterRepeated | ppt_skill_generator.py:64-75 | a primary scatter plot is listed again as the extra, differing only in confidence |
| SkillGenerator.LargeLimitKeepsAll | ppt_skill_generator.py:91 | a limit of three or more, including the default five, cuts nothing |
| SkillGenerator.VisualizationsBounded | ppt_skill_generator.py:74-91 | the result repeats no configuration and has at most three entries, and at most `max_charts` when that is not negative |
| SkillGenerator.NoColumnsNoVisualizations | ppt_skill_generator.py:64-65 | a table without columns cannot be visualised, because the primary configuration indexes a missing column |
| SkillGenerator.TwoColumnsSuffice | ppt_skill_generator.py:64-65 | with two columns the primary configuration's indexing always succeeds |
| SkillGenerator.ParseChartType | ppt_skill_generator.py:158-161 | a parsed name is the value string of the chart type returned; any other name is refused as an invalid chart type |
| SkillGenerator.ParseChartTypeInverts | ppt_skill_generator.py:158-161 | every chart type's value string parses back to it, and parsing fails exactly for strings that are no chart type's value |
| SkillGenerator.StackedChartTypesRejected | ppt_skill_generator.py:158-161 | a custom `stacked_bar` or `stacked_area` chart is refused once the data has loaded |
| SkillGenerator.MergeConfig | ppt_skill_generator.py:164-165 | the merged configuration has the keys of both; the caller's values win and the other automatic values are kept |
| SkillGenerator.MergeConfigIdempotent | ppt_skill_generator.py:164-165 | applying the same settings twice is applying them once, and empty settings change nothing |
| SkillGenerator.TitleOfChartName | ppt_skill_generator.py:168 | `str.title` capitalises only the first letter of a chart type's value string |
| SkillGenerator.Underscored | ppt_skill_generator.py:130 | replacing spaces keeps the length, turns every space into `_`, and keeps every other character |
| SkillGenerator.PresentationFile | ppt_skill_generator.py:129-130 | the default deck file is the title with every space turned into `_` and every other character kept, followed by `.pptx` |
| SkillGenerator.CreateCustomChart | ppt_skill_generator.py:140-178 | load errors and invalid chart types are reported; with loaded data and a valid type it succeeds exactly when the data binds that type, and otherwise fails with a missing column; a success holds the loaded data, one configuration, the title "<Type> Chart Analysis" and the requested path or `<type>_chart.pptx`, and is moved, from the title's file, exactly when that path differs from it |
| SkillGenerator.CustomChartConfig | ppt_skill_generator.py:163-165 | when the data loads and binds a valid chart type, the custom configuration is the type's automatic one, built without a target, with the caller's settings laid over it |
| SkillGenerator.CustomChartDefaultPathMoved | ppt_skill_generator.py:168-176 | when the data loads and binds a valid chart type and no path is requested, the deck goes to `<type>_chart.pptx`, which never matches the rendered file, so it is always moved |
| SkillGenerator.CreatePresentation | ppt_skill_generator.py:93-138 | load errors are reported; the deck holds the loaded data and the title, and the caller's configurations when given, which always succeed; it ends at the requested path or the title's file, and is moved, from the title's file, exactly when the two differ |
| SkillGenerator.PresentationContents | ppt_skill_generator.py:119-136 | without caller configurations the deck holds all recommendations or the best chart alone, and without a path it stays at the title's file |
| SkillGenerator.GetDataInsights | ppt_skill_generator.py:180-203 | fails without data or on a table with no rows or no columns, and otherwise returns the analysis with the target-free recommendation |
| SkillGenerator.CompletenessBounds | ppt_skill_generator.py:197 | completeness lies in [0, 100] and is 100 exactly when nothing is missing |
| SkillGenerator.RatioBounds | ppt_skill_generator.py:198-199 | the numeric and categorical ratios are non-negative and together at most 100 |
| SkillGenerator.QualityBounds | ppt_skill_generator.py:197-199 | all three percentages lie in range when the counts fit the table |
| SkillGenerator.TotalMissingFits | ppt_skill_generator.py:197 | in a rectangular table the summed missing counts never exceed the cell count |
| SkillGenerator.InsightsBounds | ppt_skill_generator.py:180-203 | for a non-empty rectangular table the insights succeed, the percentages lie in [0, 100], the role ratios sum to at most 100, and completeness is 100 exactly when nothing is missing |
| Base.PyPrefix | ppt_skill_generator.py:91 | `xs[:k]` is a prefix of `xs` of length `min(k, len)`, or `len + k` elements for a negative `k` |
| Base.RepetitionCycles | rbc_branding.py:77 | cutting `n // len + 1` copies of a palette to `n` entries yields `n` entries cycling through the palette |
| Branding.ColorsAreHex | rbc_branding.py:14-24 | every brand colour is `#` followed by six upper-case hex digits |
| Branding.PaletteIsHex | rbc_branding.py:61-66 | every palette entry is a hex colour |
| Branding.GetColorPalette | rbc_branding.py:68-80 | an unknown palette name gives a prefix of the primary palette, never repeated; a known palette is only cut when it is long enough |
| Branding.PaletteCycles | rbc_branding.py:71-77 | a known palette asked for `n >= 0` colours gives exactly `n`, the `i`-th being the palette's colour at `i` modulo its length |
| Branding.GetChartStyleConfig | rbc_branding.py:112-176 | the style has the shared keys and the chart type's own keys, keeps every shared value, and holds every value the chart type adds |
| Branding.StyleKeepsBase | rbc_branding.py:115-176 | no chart type overrides a shared setting: the ten shared settings keep their values in every style |
| Branding.StackedAndUnknownStyles | rbc_branding.py:128-176 | stacked bar and area are styled like bar and area, and an unknown chart type gets the shared settings alone |
| Branding.CategoricalStyleColors | rbc_branding.py:128-145 | bars and pies are coloured with the whole categorical palette |
| Branding.LineStyleColors | rbc_branding.py:134-140 | lines take the whole primary palette |
| Branding.ScatterStyleColors | rbc_branding.py:146-152 | scatter plots take the first three primary colours |
| Branding.AreaStyleColors | rbc_branding.py:153-157 | areas take the first five sequential colours |

## Left out

- Rendering: slides, images, matplotlib and python-pptx calls (`ppt_handler.py`) are foreign libraries and I/O. The deck operations return the plan they would render.
- File reading: the reader is a parameter `read`. pandas' dtype inference is not modelled; column kinds are taken as declared.
- Reader keyword arguments (`**kwargs`) are passed straight to pandas and do not affect any decision modelled here.
- Descriptive statistics and correlation values are floating-point statistics. Only which columns they cover is modelled.
- Floating point: scores are exact integer tenths, so float rounding such as `0.6 + 0.3 = 0.8999…` is not modelled. Style fractions are hundredths.
- `batch_process` is file-system orchestration with printed errors.
- Creating the output directory, `os.rename`, and replacing the handler for a `template_path` are I/O.
- `setup_matplotlib_style` and `apply_rbc_theme_to_axis` only mutate plotting-library state.
- `RGB_COLORS` is a second encoding of the brand colours that no modelled operation reads.
- The generator's mutable fields (`self.data`, `self.analysis`) become an `Option<Table>` argument. The analysis is recomputed from the table.
- Letter case: lower-casing of extensions and `str.title` are modelled for ASCII letters only.
- Extension splitting: `os.path.splitext` is modelled for POSIX separators only.
- Repeated column names: pandas returns a frame, not a column, for `data[name]`. The model keeps the last column's counts and looks up the first column.
- Index errors of `get_chart_config`: a missing `data.columns[0]` or `[1]` is a precondition (`Bindable`) of `Recommender.GetChartConfig`. Callers report it as the error `ColumnIndexOutOfRange`.
- Scoring.BarScore: states the threshold facts, not each increment. The exact sums for characteristic tables are pinned by the `Scenarios` lemmas.
- Scoring.PieScore: states the threshold facts and, through `Scoring.PieTargetBonus`, the target's effect, not each increment.
- Scoring.LineScore: states the threshold facts, not each increment.
- Scoring.HistogramScore: states the threshold facts, not each increment.
- Branding.GetColorPalette: its own contract covers unknown names and counts up to the palette's length, negative counts included. The cycling case is stated separately by `Branding.PaletteCycles`.
