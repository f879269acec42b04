/**
 * The colour step at the end of `loadData` (app/lib/widget/builder/charts/BChart.php):
 * when a colour field is configured, the query puts the colour in column 0 of every row;
 * it is collected into the chart's colours and removed from the rows.
 */
module ChartColors {
  import opened Results
  import opened Cells
  import opened Seqs
  import opened Pivot

  /** The chart's colours: a list (used by position or as a pattern) or a map from series key. */
  datatype Colors = Palette(list: seq<Cell>) | ByKey(byKey: map<Cell, Cell>)

  /** PHP truthiness of the colour array: empty arrays are false. */
  predicate HasColors(c: Colors) {
    match c
    case Palette(l) => |l| > 0
    case ByKey(m) => |m| > 0
  }

  /** `array_column($items, 0, k)`: the colour of each row keyed by column `k`, the last row winning. */
  function ColorPairs(items: seq<Row>, k: nat): (ps: seq<(Cell, Cell)>)
    requires WidthAtLeast(items, k + 1)
    ensures |ps| == |items| && forall i :: 0 <= i < |items| ==> ps[i] == (items[i][k], items[i][0])
  {
    seq(|items|, i requires 0 <= i < |items| => (items[i][k], items[i][0]))
  }

  /** Every row without its column 0, the rest shifted down by one. */
  function DropFirst(items: seq<Row>): (rows: seq<Row>)
    requires WidthAtLeast(items, 1)
    ensures |rows| == |items|
    ensures forall i :: 0 <= i < |items| ==> rows[i] == items[i][1..]
  {
    seq(|items|, i requires 0 <= i < |items| => items[i][1..])
  }

  /**
   * Colours and stripped rows for a result set `[colour, group.., total]` of `groups`
   * group fields: keyed by the second group with two groups, by position in a one-group
   * bar chart, and by the first group otherwise.
   */
  function ExtractColors(items: seq<Row>, groups: nat, isBar: bool): (out: (Colors, seq<Row>))
    requires 1 <= groups <= 2
    requires WidthIs(items, groups + 2)
    ensures out.1 == DropFirst(items)
    ensures groups > 1 ==> out.0 == ByKey(AssocLast(ColorPairs(items, 2)))
    ensures groups == 1 && isBar ==> out.0 == Palette(Column(items, 0))
    ensures groups == 1 && !isBar ==> out.0 == ByKey(AssocLast(ColorPairs(items, 1)))
  {
    var colors :=
      if groups > 1 then ByKey(AssocLast(ColorPairs(items, 2)))
      else if isBar then Palette(Column(items, 0))
      else ByKey(AssocLast(ColorPairs(items, 1)));
    (colors, DropFirst(items))
  }

  /** The colours after loading: unchanged without a colour field. */
  function LoadedColors(items: seq<Row>, fieldColor: bool, groups: nat, isBar: bool, before: Colors): (out: (Colors, seq<Row>))
    requires 1 <= groups <= 2
    requires WidthIs(items, groups + (if fieldColor then 2 else 1))
    ensures !fieldColor ==> out == (before, items)
    ensures WidthIs(out.1, groups + 1)
  {
    if fieldColor then ExtractColors(items, groups, isBar) else (before, items)
  }

  /** Every row's key column is a key of the colour map built on it. */
  lemma KeyedColorsCover(items: seq<Row>, k: nat)
    requires WidthAtLeast(items, k + 1)
    ensures forall i :: 0 <= i < |items| ==> items[i][k] in AssocLast(ColorPairs(items, k))
  {
    var ps := ColorPairs(items, k);
    assert forall i :: 0 <= i < |items| ==> ps[i].0 == items[i][k];
  }

  /** The colour of a key is the colour of the last row with that key. */
  lemma KeyedColorsLast(items: seq<Row>, k: nat, i: nat)
    requires WidthAtLeast(items, k + 1)
    requires i < |items| && forall j :: i < j < |items| ==> items[j][k] != items[i][k]
    ensures items[i][k] in AssocLast(ColorPairs(items, k))
    ensures AssocLast(ColorPairs(items, k))[items[i][k]] == items[i][0]
  {
    var ps := ColorPairs(items, k);
    assert LastKeyAt(ps, i);
    AssocLastValue(ps, i);
  }

  /** With two groups, stripped row i has the series key that was column 2 of result row i. */
  lemma StrippedSeriesKeys(items: seq<Row>)
    requires WidthIs(items, 4)
    ensures var rows := DropFirst(items);
      forall i :: 0 <= i < |items| ==> Entries(rows, None)[i].key == items[i][2]
    ensures forall s :: s in SeriesLabels(Entries(DropFirst(items), None)) ==>
              exists i :: 0 <= i < |items| && items[i][2] == s
  {
    var es := Entries(DropFirst(items), None);
    forall s | s in SeriesLabels(es)
      ensures exists i :: 0 <= i < |items| && items[i][2] == s
    {
      var i :| 0 <= i < |Keys(es)| && Keys(es)[i] == s;
      assert es[i].key == s;
    }
  }

  /**
   * With two groups the colour map answers for every series label of the stripped rows
   * (when no sub-legend hook renames them), with the colour of the last row of that series.
   */
  lemma ColorsCoverSeries(items: seq<Row>, isBar: bool)
    requires WidthIs(items, 4)
    ensures ExtractColors(items, 2, isBar).0.ByKey?
    ensures forall s :: s in SeriesLabels(Entries(ExtractColors(items, 2, isBar).1, None)) ==>
              s in ExtractColors(items, 2, isBar).0.byKey
    ensures forall i :: 0 <= i < |items| && (forall j :: i < j < |items| ==> items[j][2] != items[i][2]) ==>
              Entries(ExtractColors(items, 2, isBar).1, None)[i].key == items[i][2] &&
              ExtractColors(items, 2, isBar).0.byKey[items[i][2]] == items[i][0]
  {
    StrippedSeriesKeys(items);
    KeyedColorsCover(items, 2);
    forall i | 0 <= i < |items| && (forall j :: i < j < |items| ==> items[j][2] != items[i][2])
      ensures AssocLast(ColorPairs(items, 2))[items[i][2]] == items[i][0]
    {
      KeyedColorsLast(items, 2, i);
    }
  }

  /**
   * The colour map stays keyed by the raw column 2, while a sub-legend hook renames the
   * series: a renamed label that is no raw key is a series without a colour.
   */
  lemma RenamedSeriesUncoloured(items: seq<Row>, isBar: bool, sub: Transformer, i: nat)
    requires WidthIs(items, 4) && i < |items|
    requires forall j :: 0 <= j < |items| ==> items[j][2] != SeriesKey(DropFirst(items)[i], DropFirst(items), Some(sub))
    ensures var s := SeriesKey(DropFirst(items)[i], DropFirst(items), Some(sub));
      s in SeriesLabels(Entries(ExtractColors(items, 2, isBar).1, Some(sub))) &&
      s !in ExtractColors(items, 2, isBar).0.byKey
  {
    var rows := DropFirst(items);
    var s := SeriesKey(rows[i], rows, Some(sub));
    var es := Entries(rows, Some(sub));
    assert Keys(es)[i] == s;
  }

  /** With one group, every category of the stripped rows was column 1 of some result row. */
  lemma StrippedCategories(items: seq<Row>)
    requires WidthIs(items, 3)
    ensures WidthIs(DropFirst(items), 2)
    ensures forall c :: c in Categories(DropFirst(items)) ==> exists i :: 0 <= i < |items| && items[i][1] == c
  {
    var rows := DropFirst(items);
    forall c | c in Categories(rows)
      ensures exists i :: 0 <= i < |items| && items[i][1] == c
    {
      var col := Column(rows, 0);
      var i :| 0 <= i < |col| && col[i] == c;
      assert rows[i][0] == items[i][1];
    }
  }

  /**
   * With one group and no bar, the colour map answers for every category of the stripped
   * rows, with the colour of the last row of that category.
   */
  lemma ColorsCoverCategories(items: seq<Row>)
    requires WidthIs(items, 3)
    ensures ExtractColors(items, 1, false).0.ByKey?
    ensures WidthIs(ExtractColors(items, 1, false).1, 2)
    ensures forall c :: c in Categories(ExtractColors(items, 1, false).1) ==>
              c in ExtractColors(items, 1, false).0.byKey
    ensures forall i :: 0 <= i < |items| && (forall j :: i < j < |items| ==> items[j][1] != items[i][1]) ==>
              ExtractColors(items, 1, false).1[i][0] == items[i][1] &&
              ExtractColors(items, 1, false).0.byKey[items[i][1]] == items[i][0]
  {
    StrippedCategories(items);
    KeyedColorsCover(items, 1);
    forall i | 0 <= i < |items| && (forall j :: i < j < |items| ==> items[j][1] != items[i][1])
      ensures AssocLast(ColorPairs(items, 1))[items[i][1]] == items[i][0]
    {
      KeyedColorsLast(items, 1, i);
    }
  }

  /** In a one-group bar chart, bar i takes the colour of row i. */
  lemma BarColorsByPosition(items: seq<Row>)
    requires WidthIs(items, 3)
    ensures var out := ExtractColors(items, 1, true);
      out.0.Palette? && |out.0.list| == |out.1| &&
      forall i :: 0 <= i < |items| ==> out.0.list[i] == items[i][0] && out.1[i] == items[i][1..]
  {
  }
}
