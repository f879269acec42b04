/**
 * `formatTooltip` (app/lib/widget/builder/charts/BChart.php): the side table of
 * per-series values the browser reads as `tooltipFormats`, the per-series label
 * formatters of `data.labels.format`, and the tooltip settings.
 *
 * The generated JavaScript is not produced as text: a formatter is represented by what it
 * reads (`values[0]` or `values[i]`, `tooltipFormats[i][0]` or `tooltipFormats[i][x]`).
 */
module ChartTooltip {
  import opened Results
  import opened Cells
  import opened Seqs
  import opened Strings
  import opened Pivot

  /** Which stored value a label formatter returns: `values[0]` or `values[i]`. */
  datatype ValueRef = FirstValue | PointIndex

  /** A per-series label formatter: the series' stored values and the index it reads. */
  datatype LabelFormatter = LabelFormatter(values: seq<Cell>, ref: ValueRef)

  /** What the tooltip's value formatter looks up: `tooltipFormats[i][0]` or `tooltipFormats[i][x]`. */
  datatype Lookup = FirstOfSeries | ByPoint

  /** `options.tooltip`: an optional `contents` function name and the value formatter. */
  datatype TooltipOption = TooltipOption(contents: Option<string>, value: Lookup)

  datatype TooltipResult = TooltipResult(
    side: map<Cell, seq<Cell>>,                 // `$formatsTooltip`, one entry per series label
    labelFormats: map<Cell, LabelFormatter>,    // `data.labels.format`
    tooltip: TooltipOption,                     // `options.tooltip`
    chartLabel: Option<Lookup>)                 // a new `options[type].label.format`, if any

  /** The cells of a column after its label, each through the value hook when there is one. */
  function TransformTail(column: Row, columns: seq<Row>, value: Option<Transformer>): (t: seq<Cell>)
    requires |column| > 0
    ensures |t| == |column| - 1
    ensures value.None? ==> t == column[1..]
    ensures value.Some? ==> forall k :: 0 <= k < |t| ==> t[k] == value.value(column[k + 1], column, columns)
  {
    match value
    case None => column[1..]
    case Some(f) => seq(|column| - 1, k requires 0 <= k < |column| - 1 => f(column[k + 1], column, columns))
  }

  /** The (label, values) pairs in the order the loop visits the columns. */
  function SidePairs(columns: seq<Row>, value: Option<Transformer>): (ps: seq<(Cell, seq<Cell>)>)
    requires AllLabelled(columns)
    ensures |ps| == |columns|
    ensures forall i :: 0 <= i < |columns| ==> ps[i] == (columns[i][0], TransformTail(columns[i], columns, value))
  {
    seq(|columns|, i requires 0 <= i < |columns| => (columns[i][0], TransformTail(columns[i], columns, value)))
  }

  /** `$formatsTooltip->{label} = values` for every column in turn. */
  function SideTable(columns: seq<Row>, value: Option<Transformer>): map<Cell, seq<Cell>>
    requires AllLabelled(columns)
  {
    AssocLast(SidePairs(columns, value))
  }

  /**
   * The whole of `formatTooltip`. `simple` is true for pie and donut charts; the tooltip
   * function and the percentage flag are the chart's settings.
   */
  function FormatTooltip(columns: seq<Row>, simple: bool, value: Option<Transformer>,
                         tooltipFunction: string, percentage: bool): (out: TooltipResult)
    requires AllLabelled(columns)
    ensures out.labelFormats.Keys == out.side.Keys
    ensures forall k :: k in out.side ==>
              out.labelFormats[k] == LabelFormatter(out.side[k], if simple then FirstValue else PointIndex)
    ensures out.tooltip.value == (if simple then FirstOfSeries else ByPoint)
    ensures out.tooltip.contents.Some? <==> simple && value.None? && Truthy(tooltipFunction)
    ensures out.tooltip.contents.Some? ==> out.tooltip.contents.value == tooltipFunction
    ensures out.chartLabel.Some? <==> simple && !percentage
    ensures out.chartLabel.Some? ==> out.chartLabel.value == FirstOfSeries
  {
    var side := SideTable(columns, value);
    var ref := if simple then FirstValue else PointIndex;
    var contents := if simple && value.None? && Truthy(tooltipFunction) then Some(tooltipFunction) else None;
    TooltipResult(
      side,
      map k | k in side :: LabelFormatter(side[k], ref),
      TooltipOption(contents, if simple then FirstOfSeries else ByPoint),
      if simple && !percentage then Some(FirstOfSeries) else None)
  }

  /**
   * The side table has an entry for exactly the column labels, and a label's entry is the
   * transformed tail of the last column with that label.
   */
  lemma SideTableEntries(columns: seq<Row>, value: Option<Transformer>)
    requires AllLabelled(columns)
    ensures forall i :: 0 <= i < |columns| ==> columns[i][0] in SideTable(columns, value)
    ensures forall k :: k in SideTable(columns, value) ==> exists i :: 0 <= i < |columns| && columns[i][0] == k
    ensures forall i :: 0 <= i < |columns| && (forall j :: i < j < |columns| ==> columns[j][0] != columns[i][0]) ==>
              SideTable(columns, value)[columns[i][0]] == TransformTail(columns[i], columns, value)
  {
    var ps := SidePairs(columns, value);
    forall i | 0 <= i < |columns| && (forall j :: i < j < |columns| ==> columns[j][0] != columns[i][0])
      ensures AssocLast(ps)[columns[i][0]] == TransformTail(columns[i], columns, value)
    {
      assert LastKeyAt(ps, i);
      AssocLastValue(ps, i);
    }
  }

  /**
   * Without a value hook, and with pairwise distinct labels (as the pivoted series and the
   * single series have), every label's entry is its column minus the label.
   */
  lemma SideTableIsTails(columns: seq<Row>)
    requires AllLabelled(columns)
    requires forall i, j :: 0 <= i < j < |columns| ==> columns[i][0] != columns[j][0]
    ensures forall i :: 0 <= i < |columns| ==>
              columns[i][0] in SideTable(columns, None) && SideTable(columns, None)[columns[i][0]] == columns[i][1..]
  {
    SideTableEntries(columns, None);
  }

  /** A formatter of a series hands back the stored value it reads, for a point index in range. */
  function ReadValue(f: LabelFormatter, i: nat): Option<Cell>
  {
    var k := if f.ref.FirstValue? then 0 else i;
    if k < |f.values| then Some(f.values[k]) else None
  }

  /**
   * For a bar or line series without a value hook, the label formatter of point i shows
   * exactly cell i + 1 of the series' column: the value drawn at that point.
   */
  lemma LabelShowsPoint(columns: seq<Row>, tooltipFunction: string, percentage: bool, c: nat, i: nat)
    requires AllLabelled(columns)
    requires forall a, b :: 0 <= a < b < |columns| ==> columns[a][0] != columns[b][0]
    requires c < |columns| && i + 1 < |columns[c]|
    ensures var out := FormatTooltip(columns, false, None, tooltipFunction, percentage);
      columns[c][0] in out.labelFormats && ReadValue(out.labelFormats[columns[c][0]], i) == Some(columns[c][i + 1])
  {
    SideTableIsTails(columns);
  }
}
