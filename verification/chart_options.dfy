/**
 * `makeOptions` (app/lib/widget/builder/charts/BChart.php): the renderer options
 * assembled from the chart's settings and its loaded rows, in the order the source
 * writes them: the base options, the chart-type step (`makeOptionsBar`,
 * `makeOptionsline`, `makeOptionsPie`, each ending in `formatTooltip`), then the grid,
 * legend rotation and legend limit.
 *
 * Options are a record with one field per key the source writes; a JavaScript function
 * the source writes as text is represented by what it does (`LabelFormat`, `DataColor`).
 */
module ChartOptions {
  import opened Results
  import opened Cells
  import opened Seqs
  import opened Strings
  import opened Pivot
  import opened ChartShapes
  import opened ChartTooltip
  import opened ChartColors
  import opened ChartConfig

  /** The settings of a chart that `makeOptions` reads. */
  datatype Chart = Chart(
    kind: ChartType,
    name: string,
    fieldGroup: seq<string>,
    percentage: bool,
    displayFunction: string,
    tooltipFunction: string,
    height: string,
    area: bool,
    areaRounded: bool,
    title: string,
    showPanel: bool,
    legend: bool,
    zoom: bool,
    colors: Colors,
    fieldColor: bool,
    horizontal: bool,                     // `barDirection == 'horizontal'`
    barStack: bool,
    labelValue: Option<Cell>,
    grid: bool,
    rotateLegend: int,                    // 0 when not set
    legendHeight: int,
    legendsLimit: Option<(int, int)>,     // `setLegendsLimitShow(x, y)`
    value: Option<Transformer>,
    legendHook: Option<Transformer>,
    subLegend: Option<Transformer>)

  /** The rows `makeOptions` can work on: one or two group fields, each row the groups and the total. */
  predicate Loadable(c: Chart, data: seq<Row>) {
    1 <= |c.fieldGroup| <= 2 && WidthIs(data, |c.fieldGroup| + 1)
  }

  /** The value formatter of the chart's own labels (`options[type].label.format`). */
  datatype LabelFormat = NullFormat | Display(name: string) | FromTable(lookup: Lookup)

  /** `data.color`: none, the per-series lookup `colors[d.id] ?? color`, or `changeColor`. */
  datatype DataColor = NoColorFunction | ColorById | ChangeColor

  datatype Tick = Tick(centered: bool, rotate: Option<int>, culling: Option<int>)

  /** `axis.x`: the category list when the chart has one, the tick settings, the height. */
  datatype XAxis = XAxis(categories: Option<seq<Cell>>, tick: Tick, height: Option<int>)

  const NoTick := Tick(false, None, None)

  datatype Options = Options(
    chartLabel: LabelFormat,
    space: bool,                          // the bar width ratio `.1` is set
    height: string,
    columns: seq<Row>,
    dataType: string,
    bindto: string,
    legendShow: bool,
    zoom: bool,
    title: Option<string>,
    dataColors: Option<Colors>,
    dataColor: DataColor,
    pattern: Option<Colors>,
    rotated: Option<bool>,
    x: Option<XAxis>,
    yTickCount: Option<int>,
    groups: seq<seq<Cell>>,
    labelFormats: map<Cell, LabelFormatter>,
    tooltip: TooltipOption,
    tooltipFormats: map<Cell, seq<Cell>>,
    grid: bool)

  /** `getDisplayFunction`: the configured function, or `defaultFormatFunction`. */
  function DisplayName(c: Chart): (n: string)
    ensures Truthy(c.displayFunction) ==> n == c.displayFunction
    ensures Empty(c.displayFunction) ==> n == "defaultFormatFunction"
  {
    if Truthy(c.displayFunction) then c.displayFunction else "defaultFormatFunction"
  }

  /** The renderer's series type: the area variants when areas are on, else the chart type. */
  function DataType(c: Chart): string {
    if c.area then (if c.areaRounded then "area-spline" else "area") else TypeName(c.kind)
  }

  /** Bar and line charts have a category axis; pie and donut do not. */
  predicate HasAxis(c: Chart) {
    c.kind == Bar || c.kind == Line
  }

  /** The first block of `makeOptions`: label format, size, data, legend, zoom, title, colours. */
  function BaseOptions(c: Chart, data: seq<Row>): (o: Options)
    ensures o.columns == data
    ensures o.x.None? && o.rotated.None? && o.yTickCount.None? && o.groups == [] && !o.space && !o.grid
  {
    var hasColors := HasColors(c.colors);
    Options(
      if c.percentage then NullFormat else Display(DisplayName(c)),
      false,
      StripPx(c.height),
      data,
      DataType(c),
      "#" + c.name + "-container",
      c.legend,
      c.zoom,
      if Truthy(c.title) && !c.showPanel then Some(c.title) else None,
      if hasColors && c.fieldColor then Some(c.colors) else None,
      if hasColors && c.fieldColor then ColorById else NoColorFunction,
      if hasColors && !c.fieldColor then Some(c.colors) else None,
      None, None, None, [], map[], TooltipOption(None, ByPoint), map[], false)
  }

  /** The shaped columns of a chart: pivoted or single series, or relabelled slices. */
  function ShapedColumns(c: Chart, data: seq<Row>): (cols: seq<Row>)
    requires Loadable(c, data)
    ensures AllLabelled(cols)
  {
    if HasAxis(c) then
      if |c.fieldGroup| > 1 then
        TwoGroupLabelled(data, c.subLegend, c.kind == Bar);
        TwoGroupColumns(data, c.subLegend, c.kind == Bar)
      else SingleSeries(data, c.labelValue, c.fieldGroup[0])
    else RelabelSlices(data, c.legendHook)
  }

  /** `axis.x` as the bar and line steps write it: the categories, and centred ticks for bars. */
  function CategoryAxis(c: Chart, data: seq<Row>): XAxis
    requires Loadable(c, data)
  {
    XAxis(Some(AxisCategories(Categories(data), data, c.legendHook, c.kind == Bar)), Tick(c.kind == Bar, None, None), None)
  }

  /**
   * `makeOptionsBar` and `makeOptionsline` before `formatTooltip`: the bar width, the
   * direction, the category axis, the columns, and for one group the hidden legend (and,
   * for bars, `changeColor`); for two stacked bar groups, the stack of all series labels.
   */
  function AxisShape(c: Chart, data: seq<Row>, o: Options): (r: Options)
    requires Loadable(c, data) && HasAxis(c)
    ensures r.columns == ShapedColumns(c, data)
    ensures r.space == (o.space || c.kind == Bar) && r.rotated == Some(c.horizontal)
    ensures r.x == Some(CategoryAxis(c, data))
    ensures r.(columns := o.columns, space := o.space, rotated := o.rotated, x := o.x, groups := o.groups,
               legendShow := o.legendShow, dataColor := o.dataColor) == o
  {
    var bar := c.kind == Bar;
    var x := CategoryAxis(c, data);
    var values := ShapedColumns(c, data);
    var o1 := o.(space := bar || o.space, rotated := Some(c.horizontal));
    if |c.fieldGroup| > 1 then
      o1.(x := Some(x),
          groups := if bar && c.barStack then [Column(values, 0)] else o1.groups,
          columns := values)
    else
      o1.(legendShow := false,
          x := Some(x),
          dataColor := if bar then ChangeColor else o1.dataColor,
          columns := values)
  }

  /** `makeOptionsPie` before `formatTooltip`: only the columns change. */
  function PieShape(c: Chart, data: seq<Row>, o: Options): (r: Options)
    requires Loadable(c, data) && !HasAxis(c)
    ensures r == o.(columns := ShapedColumns(c, data))
  {
    o.(columns := RelabelSlices(data, c.legendHook))
  }

  /** The chart-type step of `makeOptions`, without its final `formatTooltip`. */
  function Shape(c: Chart, data: seq<Row>, o: Options): (r: Options)
    requires Loadable(c, data)
    ensures r.columns == ShapedColumns(c, data)
    ensures r.(columns := o.columns, space := o.space, rotated := o.rotated, x := o.x, groups := o.groups,
               legendShow := o.legendShow, dataColor := o.dataColor) == o
  {
    if HasAxis(c) then AxisShape(c, data, o) else PieShape(c, data, o)
  }

  /** Bar and line charts get the direction and the category axis; only bars get the width ratio. */
  lemma ShapeAxis(c: Chart, data: seq<Row>, o: Options)
    requires Loadable(c, data)
    ensures Shape(c, data, o).space == (o.space || c.kind == Bar)
    ensures Shape(c, data, o).rotated == if HasAxis(c) then Some(c.horizontal) else o.rotated
    ensures Shape(c, data, o).x == if HasAxis(c) then Some(CategoryAxis(c, data)) else o.x
  {
  }

  /** One group on an axis hides the legend; on a bar chart it also colours with `changeColor`. */
  lemma ShapeLegend(c: Chart, data: seq<Row>, o: Options)
    requires Loadable(c, data)
    ensures Shape(c, data, o).legendShow == (o.legendShow && !(HasAxis(c) && |c.fieldGroup| == 1))
    ensures Shape(c, data, o).dataColor == if c.kind == Bar && |c.fieldGroup| == 1 then ChangeColor else o.dataColor
  {
  }

  /** Two stacked bar groups stack every series label; nothing else touches the groups. */
  lemma ShapeGroups(c: Chart, data: seq<Row>, o: Options)
    requires Loadable(c, data)
    ensures Shape(c, data, o).groups ==
              if c.kind == Bar && c.barStack && |c.fieldGroup| > 1 then [Column(ShapedColumns(c, data), 0)] else o.groups
  {
  }

  /** `formatTooltip`: the label formatters, the tooltip, the side table and maybe the chart label. */
  function WithTooltip(c: Chart, o: Options): (r: Options)
    requires AllLabelled(o.columns)
    ensures r.(chartLabel := o.chartLabel, labelFormats := o.labelFormats, tooltip := o.tooltip,
               tooltipFormats := o.tooltipFormats) == o
  {
    var t := FormatTooltip(o.columns, !HasAxis(c), c.value, c.tooltipFunction, c.percentage);
    o.(chartLabel := if t.chartLabel.Some? then FromTable(t.chartLabel.value) else o.chartLabel,
       labelFormats := t.labelFormats,
       tooltip := t.tooltip,
       tooltipFormats := t.side)
  }

  /** The grid step of `makeOptions`: both grid lines are shown when the chart asks for them. */
  function WithGrid(c: Chart, o: Options): (r: Options)
    ensures r == o.(grid := o.grid || c.grid)
  {
    if c.grid then o.(grid := true) else o
  }

  /** No axis yet: what `$this->options['axis']['x'][...] = ...` starts from. */
  const EmptyAxis := XAxis(None, NoTick, None)

  /**
   * The rotated-legend step: the x tick becomes just the rotation, dropping any earlier
   * tick setting, and the axis gets the legend height; the categories stay.
   */
  function WithRotation(c: Chart, o: Options): (r: Options)
    ensures r.(x := o.x) == o
    ensures c.rotateLegend == 0 ==> r == o
    ensures c.rotateLegend != 0 ==>
              r.x == Some(XAxis(o.x.GetOr(EmptyAxis).categories, Tick(false, Some(c.rotateLegend), None), Some(c.legendHeight)))
  {
    if c.rotateLegend != 0
    then o.(x := Some(o.x.GetOr(EmptyAxis).(tick := Tick(false, Some(c.rotateLegend), None), height := Some(c.legendHeight))))
    else o
  }

  /**
   * The legend-limit step: the culling maximum is added to the x tick, keeping what the
   * tick already has, and the y axis gets the tick count.
   */
  function WithLimit(c: Chart, o: Options): (r: Options)
    ensures r.(x := o.x, yTickCount := o.yTickCount) == o
    ensures c.legendsLimit.None? ==> r == o
    ensures c.legendsLimit.Some? ==> r.yTickCount == Some(c.legendsLimit.value.1)
    ensures c.legendsLimit.Some? ==>
              r.x.Some? && r.x.value.(tick := o.x.GetOr(EmptyAxis).tick) == o.x.GetOr(EmptyAxis) &&
              r.x.value.tick == o.x.GetOr(EmptyAxis).tick.(culling := Some(c.legendsLimit.value.0))
  {
    match c.legendsLimit
    case None => o
    case Some(lim) =>
      var x := o.x.GetOr(EmptyAxis);
      o.(x := Some(x.(tick := x.tick.(culling := Some(lim.0)))), yTickCount := Some(lim.1))
  }

  /** The last block of `makeOptions`: grid, rotated legend, legend limit, in that order. */
  function Finish(c: Chart, o: Options): (r: Options)
    ensures r.(grid := o.grid, x := o.x, yTickCount := o.yTickCount) == o
    ensures r.grid == (o.grid || c.grid)
    ensures o.x.Some? ==> r.x.Some?
    ensures r.x.Some? ==> r.x.value.categories == o.x.GetOr(EmptyAxis).categories
  {
    WithLimit(c, WithRotation(c, WithGrid(c, o)))
  }

  /** `makeOptions`. */
  function MakeOptions(c: Chart, data: seq<Row>): (o: Options)
    requires Loadable(c, data)
    ensures o.columns == ShapedColumns(c, data)
  {
    Finish(c, WithTooltip(c, Shape(c, data, BaseOptions(c, data))))
  }

  /**
   * The chart's own label format: null whenever percentages are shown; otherwise the
   * display function for bar and line charts and the side-table lookup for pie and donut.
   */
  lemma LabelFormatRule(c: Chart, data: seq<Row>)
    requires Loadable(c, data)
    ensures MakeOptions(c, data).chartLabel.NullFormat? <==> c.percentage
    ensures !c.percentage && HasAxis(c) ==> MakeOptions(c, data).chartLabel == Display(DisplayName(c))
    ensures !c.percentage && !HasAxis(c) ==> MakeOptions(c, data).chartLabel == FromTable(FirstOfSeries)
  {
    var s := Shape(c, data, BaseOptions(c, data));
    var t := FormatTooltip(s.columns, !HasAxis(c), c.value, c.tooltipFunction, c.percentage);
    assert s.chartLabel == BaseOptions(c, data).chartLabel;
    assert MakeOptions(c, data).chartLabel == WithTooltip(c, s).chartLabel;
  }

  /** The series type is `area`/`area-spline` when areas are on, the chart type otherwise. */
  lemma DataTypeRule(c: Chart, data: seq<Row>)
    requires Loadable(c, data)
    ensures c.area && c.areaRounded ==> MakeOptions(c, data).dataType == "area-spline"
    ensures c.area && !c.areaRounded ==> MakeOptions(c, data).dataType == "area"
    ensures !c.area ==> MakeOptions(c, data).dataType == TypeName(c.kind)
    ensures !c.area ==> MakeOptions(c, data).dataType in {"pie", "line", "bar", "donut"}
  {
    var s := Shape(c, data, BaseOptions(c, data));
    assert s.dataType == BaseOptions(c, data).dataType;
    assert MakeOptions(c, data).dataType == WithTooltip(c, s).dataType;
  }

  /** The title goes into the options exactly when it is set and there is no panel to show it. */
  lemma TitleRule(c: Chart, data: seq<Row>)
    requires Loadable(c, data)
    ensures MakeOptions(c, data).title.Some? <==> Truthy(c.title) && !c.showPanel
    ensures MakeOptions(c, data).title.Some? ==> MakeOptions(c, data).title.value == c.title
  {
    var s := Shape(c, data, BaseOptions(c, data));
    assert s.title == BaseOptions(c, data).title;
    assert MakeOptions(c, data).title == WithTooltip(c, s).title;
  }

  /**
   * Colours: with a colour field they go to `data.colors` and are looked up per series;
   * without one they become the pattern; an empty colour list sets neither.
   */
  lemma ColorRule(c: Chart, data: seq<Row>)
    requires Loadable(c, data)
    ensures MakeOptions(c, data).dataColors.Some? <==> HasColors(c.colors) && c.fieldColor
    ensures MakeOptions(c, data).pattern.Some? <==> HasColors(c.colors) && !c.fieldColor
    ensures MakeOptions(c, data).dataColors.Some? ==> MakeOptions(c, data).dataColors.value == c.colors
    ensures MakeOptions(c, data).pattern.Some? ==> MakeOptions(c, data).pattern.value == c.colors
  {
    var s := Shape(c, data, BaseOptions(c, data));
    assert s.dataColors == BaseOptions(c, data).dataColors && s.pattern == BaseOptions(c, data).pattern;
    assert MakeOptions(c, data).dataColors == WithTooltip(c, s).dataColors;
    assert MakeOptions(c, data).pattern == WithTooltip(c, s).pattern;
  }

  /**
   * The colour function: a one-group bar chart always colours with `changeColor`,
   * overriding the per-series lookup; any other chart has the lookup exactly when the
   * colours go to `data.colors`.
   */
  lemma ColorFunctionRule(c: Chart, data: seq<Row>)
    requires Loadable(c, data)
    ensures c.kind == Bar && |c.fieldGroup| == 1 ==> MakeOptions(c, data).dataColor == ChangeColor
    ensures !(c.kind == Bar && |c.fieldGroup| == 1) ==>
              (MakeOptions(c, data).dataColor == ColorById <==> HasColors(c.colors) && c.fieldColor)
    ensures !(c.kind == Bar && |c.fieldGroup| == 1) ==> MakeOptions(c, data).dataColor != ChangeColor
  {
    var b := BaseOptions(c, data);
    var s := Shape(c, data, b);
    ShapeLegend(c, data, b);
    assert MakeOptions(c, data).dataColor == WithTooltip(c, s).dataColor;
  }

  /** One-group bar and line charts hide the legend; every other chart keeps the setting. */
  lemma LegendRule(c: Chart, data: seq<Row>)
    requires Loadable(c, data)
    ensures MakeOptions(c, data).legendShow == (c.legend && !(HasAxis(c) && |c.fieldGroup| == 1))
  {
    var b := BaseOptions(c, data);
    var s := Shape(c, data, b);
    ShapeLegend(c, data, b);
    assert MakeOptions(c, data).legendShow == WithTooltip(c, s).legendShow;
  }

  /**
   * Bar and line charts get the direction and the category axis, whose categories survive
   * the later tick settings; only bars get the width ratio. Pie and donut charts have
   * neither direction nor categories.
   */
  lemma AxisRule(c: Chart, data: seq<Row>)
    requires Loadable(c, data)
    ensures MakeOptions(c, data).space <==> c.kind == Bar
    ensures HasAxis(c) ==> MakeOptions(c, data).rotated == Some(c.horizontal)
    ensures !HasAxis(c) ==> MakeOptions(c, data).rotated.None?
    ensures HasAxis(c) ==> MakeOptions(c, data).x.Some?
    ensures HasAxis(c) ==> MakeOptions(c, data).x.value.categories == CategoryAxis(c, data).categories
    ensures !HasAxis(c) && MakeOptions(c, data).x.Some? ==> MakeOptions(c, data).x.value.categories.None?
  {
    var s := Shape(c, data, BaseOptions(c, data));
    ShapeAxis(c, data, BaseOptions(c, data));
    var w := WithTooltip(c, s);
    assert MakeOptions(c, data) == Finish(c, w);
    assert w.x == s.x && w.space == s.space && w.rotated == s.rotated;
  }

  /**
   * A bar chart's ticks are centred unless the legend is rotated; rotating replaces the
   * tick by the rotation and sets the axis height; a legend limit adds the culling maximum
   * to whatever tick there is and sets the y tick count.
   */
  lemma TickRule(c: Chart, data: seq<Row>)
    requires Loadable(c, data)
    ensures HasAxis(c) && c.rotateLegend == 0 ==>
              MakeOptions(c, data).x.value.tick.centered == (c.kind == Bar) &&
              MakeOptions(c, data).x.value.tick.rotate.None? && MakeOptions(c, data).x.value.height.None?
    ensures c.rotateLegend != 0 ==>
              MakeOptions(c, data).x.Some? && MakeOptions(c, data).x.value.tick.rotate == Some(c.rotateLegend) &&
              !MakeOptions(c, data).x.value.tick.centered && MakeOptions(c, data).x.value.height == Some(c.legendHeight)
    ensures c.legendsLimit.Some? ==>
              MakeOptions(c, data).x.Some? && MakeOptions(c, data).x.value.tick.culling == Some(c.legendsLimit.value.0) &&
              MakeOptions(c, data).yTickCount == Some(c.legendsLimit.value.1)
    ensures c.legendsLimit.None? ==> MakeOptions(c, data).yTickCount.None?
    ensures c.legendsLimit.None? && MakeOptions(c, data).x.Some? ==> MakeOptions(c, data).x.value.tick.culling.None?
    ensures MakeOptions(c, data).grid <==> c.grid
  {
    var s := Shape(c, data, BaseOptions(c, data));
    ShapeAxis(c, data, BaseOptions(c, data));
    var w := WithTooltip(c, s);
    assert MakeOptions(c, data) == Finish(c, w);
    assert w.x == s.x && w.yTickCount == s.yTickCount && w.grid == s.grid;
    FinishRotation(c, w);
    FinishLimit(c, w);
  }

  /**
   * The rotation after the last block of `makeOptions`, from options whose axis has no
   * rotation or height yet (as the chart-type steps leave it).
   */
  lemma FinishRotation(c: Chart, o: Options)
    requires o.x.Some? ==> o.x.value.tick.rotate.None? && o.x.value.height.None?
    ensures c.rotateLegend == 0 && o.x.Some? ==>
              Finish(c, o).x.Some? && Finish(c, o).x.value.tick.centered == o.x.value.tick.centered &&
              Finish(c, o).x.value.tick.rotate.None? && Finish(c, o).x.value.height.None?
    ensures c.rotateLegend != 0 ==>
              Finish(c, o).x.Some? && Finish(c, o).x.value.tick.rotate == Some(c.rotateLegend) &&
              !Finish(c, o).x.value.tick.centered && Finish(c, o).x.value.height == Some(c.legendHeight)
  {
    var r := WithRotation(c, WithGrid(c, o));
    assert c.rotateLegend == 0 ==> r.x == o.x;
    var f := WithLimit(c, r);
    if c.legendsLimit.Some? {
      var x := r.x.GetOr(EmptyAxis);
      assert f.x.value.tick == x.tick.(culling := Some(c.legendsLimit.value.0));
      assert f.x.value.height == x.height;
    }
  }

  /**
   * The legend limit after the last block of `makeOptions`, from options with no culling
   * and no y tick count yet.
   */
  lemma FinishLimit(c: Chart, o: Options)
    requires o.yTickCount.None?
    requires o.x.Some? ==> o.x.value.tick.culling.None?
    ensures c.legendsLimit.Some? ==>
              Finish(c, o).x.Some? && Finish(c, o).x.value.tick.culling == Some(c.legendsLimit.value.0) &&
              Finish(c, o).yTickCount == Some(c.legendsLimit.value.1)
    ensures c.legendsLimit.None? ==> Finish(c, o).yTickCount.None?
    ensures c.legendsLimit.None? && Finish(c, o).x.Some? ==> Finish(c, o).x.value.tick.culling.None?
  {
    var r := WithRotation(c, WithGrid(c, o));
    assert r.yTickCount.None?;
    assert r.x.Some? ==> r.x.value.tick.culling.None?;
  }

  /**
   * A stacked two-group bar chart stacks all its series in one group, the label column of
   * the shaped columns. No other chart has groups.
   */
  lemma StackRule(c: Chart, data: seq<Row>)
    requires Loadable(c, data)
    ensures MakeOptions(c, data).groups != [] <==> c.kind == Bar && c.barStack && |c.fieldGroup| > 1
    ensures MakeOptions(c, data).groups != [] ==> MakeOptions(c, data).groups == [Column(ShapedColumns(c, data), 0)]
  {
    var s := Shape(c, data, BaseOptions(c, data));
    ShapeGroups(c, data, BaseOptions(c, data));
    assert MakeOptions(c, data).groups == WithTooltip(c, s).groups;
  }

  /** The stacked series are the distinct series labels, strictly ascending. */
  lemma StackedGroups(c: Chart, data: seq<Row>)
    requires Loadable(c, data) && c.kind == Bar && c.barStack && |c.fieldGroup| > 1
    ensures |MakeOptions(c, data).groups| == 1
    ensures var g := MakeOptions(c, data).groups[0];
      |g| == |SeriesLabels(Entries(data, c.subLegend))| &&
      (forall s :: s in g ==> s in SeriesLabels(Entries(data, c.subLegend))) &&
      (forall s :: s in SeriesLabels(Entries(data, c.subLegend)) ==> s in g) &&
      (forall i, j :: 0 <= i < j < |g| ==> CellLt(g[i], g[j]))
  {
    StackRule(c, data);
    assert ShapedColumns(c, data) == TwoGroupColumns(data, c.subLegend, true);
    SeriesLabelColumn(data, c.subLegend, true);
  }

  /**
   * The tooltip side table and the label formatters cover exactly the labels of the shaped
   * columns; the tooltip's `contents` is set only for pie and donut charts with a tooltip
   * function and no value hook.
   */
  lemma TooltipRule(c: Chart, data: seq<Row>)
    requires Loadable(c, data)
    ensures MakeOptions(c, data).labelFormats.Keys == MakeOptions(c, data).tooltipFormats.Keys
    ensures forall i :: 0 <= i < |ShapedColumns(c, data)| ==> ShapedColumns(c, data)[i][0] in MakeOptions(c, data).tooltipFormats
    ensures forall k :: k in MakeOptions(c, data).tooltipFormats ==>
              exists i :: 0 <= i < |ShapedColumns(c, data)| && ShapedColumns(c, data)[i][0] == k
    ensures MakeOptions(c, data).tooltip.contents.Some? <==> !HasAxis(c) && c.value.None? && Truthy(c.tooltipFunction)
  {
    var s := Shape(c, data, BaseOptions(c, data));
    var w := WithTooltip(c, s);
    assert MakeOptions(c, data) == Finish(c, w);
    assert MakeOptions(c, data).labelFormats == w.labelFormats;
    assert MakeOptions(c, data).tooltipFormats == w.tooltipFormats;
    assert MakeOptions(c, data).tooltip == w.tooltip;
    SideTableEntries(s.columns, c.value);
  }

  /** The size height loses its unit: a numeric height reaches the renderer as its number. */
  lemma HeightRule(c: Chart, data: seq<Row>, h: int)
    requires Loadable(c, data) && c.height == Dimension(IntToString(h))
    ensures MakeOptions(c, data).height == IntToString(h)
  {
    NumericHeightRoundTrip(h);
    var s := Shape(c, data, BaseOptions(c, data));
    assert s.height == BaseOptions(c, data).height;
    assert MakeOptions(c, data).height == WithTooltip(c, s).height;
  }
}
