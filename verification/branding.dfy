/** The brand configuration charts are styled with: the colour, font and
    palette tables, palette selection with wrap-around, and the per-chart
    style dictionaries. Applying styles to a plotting library is not
    modelled. */
module Branding {
  import opened Base

  const PrimaryBlue := "#005DAA"
  const AccentYellow := "#FFD200"
  const White := "#FFFFFF"
  const LightBlue := "#E6F2FF"
  const DarkBlue := "#003D73"
  const GrayLight := "#F5F5F5"
  const GrayMedium := "#CCCCCC"
  const GrayDark := "#666666"
  const Black := "#000000"

  /** The named brand colours, as hex strings. */
  const Colors: map<string, string> := map[
    "primary_blue" := PrimaryBlue,
    "accent_yellow" := AccentYellow,
    "white" := White,
    "light_blue" := LightBlue,
    "dark_blue" := DarkBlue,
    "gray_light" := GrayLight,
    "gray_medium" := GrayMedium,
    "gray_dark" := GrayDark,
    "black" := Black]

  const HeadingFont := "Arial Bold"
  const DataLabelFont := "Calibri"

  const Fonts: map<string, string> := map[
    "primary" := "Arial",
    "secondary" := "Calibri",
    "heading" := HeadingFont,
    "body" := "Arial",
    "data_labels" := DataLabelFont]

  /** Font sizes in points. */
  const HeadingSize := 16
  const DataLabelSize := 11

  const FontSizes: map<string, int> := map[
    "title" := 24,
    "subtitle" := 18,
    "heading" := HeadingSize,
    "body" := 12,
    "caption" := 10,
    "data_label" := DataLabelSize,
    "axis_label" := 10,
    "legend" := 10]

  const PrimaryPalette: seq<string> := ["#005DAA", "#FFD200", "#666666", "#CCCCCC", "#003D73"]

  const SequentialPalette: seq<string> :=
    ["#E6F2FF", "#B3D9FF", "#80C0FF", "#4DA7FF", "#1A8EFF", "#0075E6", "#005DAA", "#00458E", "#002D72"]

  const DivergingPalette: seq<string> :=
    ["#003D73", "#005DAA", "#4DA7FF", "#FFFFFF", "#FFD200", "#FFB300", "#FF9400"]

  const CategoricalPalette: seq<string> :=
    ["#005DAA", "#FFD200", "#666666", "#CCCCCC", "#003D73", "#FF9400", "#4DA7FF", "#FFB300"]

  const ChartPalettes: map<string, seq<string>> := map[
    "primary" := PrimaryPalette,
    "sequential" := SequentialPalette,
    "diverging" := DivergingPalette,
    "categorical" := CategoricalPalette]

  predicate IsHexDigit(c: char) {
    '0' <= c <= '9' || 'A' <= c <= 'F'
  }

  /** `#` followed by six upper-case hex digits. */
  predicate IsHexColor(s: string) {
    |s| == 7 && s[0] == '#' && forall i :: 1 <= i < 7 ==> IsHexDigit(s[i])
  }

  /** Every brand colour is a hex colour. */
  lemma ColorsAreHex(name: string)
    requires name in Colors
    ensures IsHexColor(Colors[name])
  {
  }

  /** Every palette entry is a hex colour. */
  lemma PaletteIsHex(paletteType: string)
    requires paletteType in ChartPalettes
    ensures forall i :: 0 <= i < |ChartPalettes[paletteType]| ==> IsHexColor(ChartPalettes[paletteType][i])
  {
    var p := ChartPalettes[paletteType];
    assert p in {PrimaryPalette, SequentialPalette, DivergingPalette, CategoricalPalette};
  }

  /** `get_color_palette`: a known palette cut to `n` colours, cycling when
      more colours are asked for than it has; an unknown palette name falls
      back to the primary palette, cut but never cycled. */
  function GetColorPalette(paletteType: string, n: int): (r: seq<string>)
    ensures paletteType !in ChartPalettes ==> r == PyPrefix(PrimaryPalette, n)
    ensures paletteType in ChartPalettes && n <= |ChartPalettes[paletteType]| ==>
      r == PyPrefix(ChartPalettes[paletteType], n)
  {
    if paletteType in ChartPalettes then CycleTo(ChartPalettes[paletteType], n)
    else PyPrefix(PrimaryPalette, n)
  }

  /** The palette cut to `n` colours, repeated `n // len + 1` times first
      when it is too short. */
  function CycleTo(palette: seq<string>, n: int): (r: seq<string>)
    ensures n <= |palette| ==> r == PyPrefix(palette, n)
  {
    if n <= |palette| || |palette| == 0 then PyPrefix(palette, n)
    else PyPrefix(Repeat(palette, n / |palette| + 1), n)
  }

  /** Every palette has at least one colour. */
  lemma PalettesNonEmpty(paletteType: string)
    requires paletteType in ChartPalettes
    ensures |ChartPalettes[paletteType]| > 0
  {
  }

  /** For a known palette and a non-negative count the result has exactly
      `n` colours, the `i`-th being the palette's colour at `i` modulo its
      length. */
  lemma PaletteCycles(paletteType: string, n: int)
    requires paletteType in ChartPalettes && n >= 0
    ensures var p := ChartPalettes[paletteType];
      var r := GetColorPalette(paletteType, n);
      |r| == n && forall i :: 0 <= i < n ==> r[i] == p[i % |p|]
  {
    PalettesNonEmpty(paletteType);
    CycleToCycles(ChartPalettes[paletteType], n);
  }

  /** Cut to `n >= 0` colours, a non-empty palette yields exactly `n`
      colours cycling through it. */
  lemma CycleToCycles(p: seq<string>, n: nat)
    requires |p| > 0
    ensures var r := CycleTo(p, n);
      |r| == n && forall i :: 0 <= i < n ==> r[i] == p[i % |p|]
  {
    if n > |p| {
      RepetitionCycles(p, n);
    }
  }

  /** A style setting: a font or colour name, a whole number, a fraction in
      hundredths, a list of colours, or a nested dictionary. */
  datatype StyleValue =
    | Str(s: string)
    | Whole(n: int)
    | Hundredths(h: int)
    | ColorList(colors: seq<string>)
    | Nested(entries: map<string, StyleValue>)

  type Style = map<string, StyleValue>

  /** The settings every chart type shares. */
  const BaseStyle: Style := map[
    "title_font" := Str(HeadingFont),
    "title_size" := Whole(HeadingSize),
    "title_color" := Str(DarkBlue),
    "label_font" := Str(DataLabelFont),
    "label_size" := Whole(DataLabelSize),
    "label_color" := Str(DarkBlue),
    "grid_color" := Str(GrayLight),
    "grid_alpha" := Hundredths(30),
    "spine_color" := Str(GrayMedium),
    "background_color" := Str(White)]

  /** The settings each chart type adds; the stacked variants take those of
      their plain counterparts, and any other name adds nothing. */
  function ChartStyleExtras(chartType: string): Style {
    if chartType == "bar" || chartType == "stacked_bar" then
      map[
        "bar_colors" := ColorList(GetColorPalette("categorical", 8)),
        "edge_color" := Str(White),
        "edge_width" := Hundredths(50)]
    else if chartType == "line" then
      map[
        "line_colors" := ColorList(GetColorPalette("primary", 5)),
        "line_width" := Hundredths(250),
        "marker_size" := Whole(6),
        "marker_color" := Str(PrimaryBlue)]
    else if chartType == "pie" then
      map[
        "pie_colors" := ColorList(GetColorPalette("categorical", 8)),
        "wedge_props" := Nested(map["edgecolor" := Str(White), "linewidth" := Whole(1)])]
    else if chartType == "scatter" then
      map[
        "scatter_colors" := ColorList(GetColorPalette("primary", 3)),
        "scatter_alpha" := Hundredths(70),
        "scatter_edge_color" := Str(White),
        "scatter_edge_width" := Hundredths(50)]
    else if chartType == "area" || chartType == "stacked_area" then
      map[
        "area_colors" := ColorList(GetColorPalette("sequential", 5)),
        "area_alpha" := Hundredths(70)]
    else if chartType == "histogram" then
      map[
        "hist_color" := Str(PrimaryBlue),
        "hist_edge_color" := Str(White),
        "hist_alpha" := Hundredths(80)]
    else map[]
  }

  /** `get_chart_style_config`: the shared settings updated with the chart
      type's own. */
  function GetChartStyleConfig(chartType: string): (r: Style)
    ensures r.Keys == BaseStyle.Keys + ChartStyleExtras(chartType).Keys
    ensures forall k :: k in BaseStyle ==> r[k] == BaseStyle[k]
    ensures forall k :: k in ChartStyleExtras(chartType) ==> r[k] == ChartStyleExtras(chartType)[k]
  {
    ExtrasAvoidBase(chartType);
    BaseStyle + ChartStyleExtras(chartType)
  }

  /** No chart type overrides a shared setting: the keys a chart type adds
      are new, so every style keeps the shared settings as they are. */
  lemma StyleKeepsBase(chartType: string)
    ensures BaseStyle.Keys !! ChartStyleExtras(chartType).Keys
    ensures forall k :: k in BaseStyle ==> GetChartStyleConfig(chartType)[k] == BaseStyle[k]
  {
    ExtrasAvoidBase(chartType);
  }

  /** The keys a chart type adds are none of the shared ones. */
  lemma ExtrasAvoidBase(chartType: string)
    ensures BaseStyle.Keys !! ChartStyleExtras(chartType).Keys
  {
    if chartType == "bar" || chartType == "stacked_bar" {
      assert ChartStyleExtras(chartType).Keys == {"bar_colors", "edge_color", "edge_width"};
      KeysAvoidBase({"bar_colors", "edge_color", "edge_width"});
    } else if chartType == "line" {
      assert ChartStyleExtras(chartType).Keys == {"line_colors", "line_width", "marker_size", "marker_color"};
      KeysAvoidBase({"line_colors", "line_width", "marker_size", "marker_color"});
    } else if chartType == "pie" {
      assert ChartStyleExtras(chartType).Keys == {"pie_colors", "wedge_props"};
      KeysAvoidBase({"pie_colors", "wedge_props"});
    } else if chartType == "scatter" {
      assert ChartStyleExtras(chartType).Keys == {"scatter_colors", "scatter_alpha", "scatter_edge_color", "scatter_edge_width"};
      KeysAvoidBase({"scatter_colors", "scatter_alpha", "scatter_edge_color", "scatter_edge_width"});
    } else if chartType == "area" || chartType == "stacked_area" {
      assert ChartStyleExtras(chartType).Keys == {"area_colors", "area_alpha"};
      KeysAvoidBase({"area_colors", "area_alpha"});
    } else if chartType == "histogram" {
      assert ChartStyleExtras(chartType).Keys == {"hist_color", "hist_edge_color", "hist_alpha"};
      KeysAvoidBase({"hist_color", "hist_edge_color", "hist_alpha"});
    }
  }

  /** None of the key sets the chart types add meets the shared keys. */
  lemma KeysAvoidBase(keys: set<string>)
    requires keys in {
      {"bar_colors", "edge_color", "edge_width"},
      {"line_colors", "line_width", "marker_size", "marker_color"},
      {"pie_colors", "wedge_props"},
      {"scatter_colors", "scatter_alpha", "scatter_edge_color", "scatter_edge_width"},
      {"area_colors", "area_alpha"},
      {"hist_color", "hist_edge_color", "hist_alpha"}}
    ensures BaseStyle.Keys !! keys
  {
  }

  /** The stacked variants are styled exactly like their plain chart types,
      and a name the styler does not know gets the shared settings alone. */
  lemma StackedAndUnknownStyles(chartType: string)
    ensures GetChartStyleConfig("stacked_bar") == GetChartStyleConfig("bar")
    ensures GetChartStyleConfig("stacked_area") == GetChartStyleConfig("area")
    ensures chartType !in {"bar", "line", "pie", "scatter", "area", "histogram", "stacked_bar", "stacked_area"} ==>
      GetChartStyleConfig(chartType) == BaseStyle
  {
  }

  /** Bars and pies are coloured with the whole categorical palette. */
  lemma CategoricalStyleColors()
    ensures GetChartStyleConfig("bar")["bar_colors"] == ColorList(CategoricalPalette)
    ensures GetChartStyleConfig("pie")["pie_colors"] == ColorList(CategoricalPalette)
  {
    assert GetColorPalette("categorical", 8) == CategoricalPalette;
  }

  /** Lines take the whole primary palette. */
  lemma LineStyleColors()
    ensures GetChartStyleConfig("line")["line_colors"] == ColorList(PrimaryPalette)
  {
    assert GetColorPalette("primary", 5) == PrimaryPalette;
  }

  /** Scatter plots take the first three primary colours. */
  lemma ScatterStyleColors()
    ensures GetChartStyleConfig("scatter")["scatter_colors"] == ColorList(PrimaryPalette[..3])
  {
  }

  /** Areas take the first five sequential colours. */
  lemma AreaStyleColors()
    ensures GetChartStyleConfig("area")["area_colors"] == ColorList(SequentialPalette[..5])
  {
  }
}
