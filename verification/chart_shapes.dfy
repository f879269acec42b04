/**
 * The data reshaping done by `makeOptionsBar`, `makeOptionsline` and `makeOptionsPie`
 * (app/lib/widget/builder/charts/BChart.php): category lists and their legend texts,
 * the two-group pivot, the one-group single series and the pie/donut relabelling.
 */
module ChartShapes {
  import opened Results
  import opened Cells
  import opened Seqs
  import opened Pivot

  /** The legend text of each category: the legend hook's result, or the raw value. */
  function LegendTexts(cats: seq<Cell>, data: seq<Row>, legend: Option<Transformer>): (t: seq<Cell>)
    ensures |t| == |cats|
    ensures legend.None? ==> t == cats
    ensures legend.Some? ==> forall i :: 0 <= i < |cats| ==> t[i] == legend.value(cats[i], cats, data)
  {
    match legend
    case None => cats
    case Some(f) => seq(|cats|, i requires 0 <= i < |cats| => f(cats[i], cats, data))
  }

  /**
   * The list `array_search` looks categories up in: the bar chart's doubled loop appends
   * the whole category list once per category, the line chart appends it once.
   */
  function SearchLabels(cats: seq<Cell>, bar: bool): seq<Cell> {
    if bar then Repeat(cats, |cats|) else cats
  }

  /** The axis categories: the legend texts, repeated like the labels in a bar chart. */
  function AxisCategories(cats: seq<Cell>, data: seq<Row>, legend: Option<Transformer>, bar: bool): seq<Cell> {
    var texts := LegendTexts(cats, data, legend);
    if bar then Repeat(texts, |cats|) else texts
  }

  /** Both label lists put each category where the distinct list has it: the first copy wins. */
  lemma SearchLabelsPlace(cats: seq<Cell>, bar: bool)
    ensures SamePlaces(SearchLabels(cats, bar), cats)
  {
    if bar {
      forall c | c in cats
        ensures c in SearchLabels(cats, bar) && IndexOf(SearchLabels(cats, bar), c) == IndexOf(cats, c)
      {
        RepeatIndexOf(cats, |cats|, c);
      }
    }
  }

  /** The category lists of both chart kinds, as the source builds them. */
  lemma CategoryLists(data: seq<Row>, legend: Option<Transformer>)
    requires WidthAtLeast(data, 1)
    ensures var cats := Categories(data);
      && |SearchLabels(cats, false)| == |cats|
      && |SearchLabels(cats, true)| == |cats| * |cats|
      && |AxisCategories(cats, data, legend, true)| == |cats| * |cats|
      && (legend.None? ==> AxisCategories(cats, data, legend, false) == cats)
      && (|cats| > 0 ==> AxisCategories(cats, data, legend, true)[..|cats|] == AxisCategories(cats, data, legend, false))
  {
  }

  lemma EntriesInCategories(data: seq<Row>, sub: Option<Transformer>)
    requires WidthAtLeast(data, 3)
    ensures forall i :: 0 <= i < |Entries(data, sub)| ==> Entries(data, sub)[i].cat in Categories(data)
  {
    var col := Column(data, 0);
    assert forall i :: 0 <= i < |data| ==> col[i] in col;
  }

  /** The series rows of a two-group bar (`bar`) or line chart: the loop, then `sort`. */
  function TwoGroupColumns(data: seq<Row>, sub: Option<Transformer>, bar: bool): seq<Row>
    requires WidthAtLeast(data, 3)
  {
    var cats := Categories(data);
    var es := Entries(data, sub);
    SearchLabelsPlace(cats, bar);
    EntriesInCategories(data, sub);
    FoldPivotIsSpec(es, cats, SearchLabels(cats, bar));
    var values := FoldPivot(es, SearchLabels(cats, bar), |cats|);
    SortByLabel(values)
  }

  predicate DistinctLabels(rows: seq<Row>)
    requires AllLabelled(rows)
  {
    forall i, j :: 0 <= i < j < |rows| ==> rows[i][0] != rows[j][0]
  }

  lemma {:induction false} InsertKeepsDistinct(x: Row, rows: seq<Row>)
    requires |x| > 0 && AllLabelled(rows) && DistinctLabels(rows)
    requires forall y :: y in rows ==> y[0] != x[0]
    ensures DistinctLabels(InsertByLabel(x, rows))
  {
    if |rows| > 0 && !CellLe(x[0], rows[0][0]) {
      InsertKeepsDistinct(x, rows[1..]);
      var r := InsertByLabel(x, rows);
      forall j | 0 < j < |r|
        ensures r[0][0] != r[j][0]
      {
        assert r[j] in InsertByLabel(x, rows[1..]);
      }
    }
  }

  lemma {:induction false} SortKeepsDistinct(rows: seq<Row>)
    requires AllLabelled(rows) && DistinctLabels(rows)
    ensures AllLabelled(SortByLabel(rows)) && DistinctLabels(SortByLabel(rows))
  {
    if |rows| > 0 {
      SortKeepsDistinct(rows[1..]);
      SortByLabelSorted(rows[1..]);
      forall y | y in SortByLabel(rows[1..])
        ensures y[0] != rows[0][0]
      {
        var t :| 0 <= t < |rows[1..]| && rows[1..][t] == y;
        assert rows[t + 1] == y;
      }
      InsertKeepsDistinct(rows[0], SortByLabel(rows[1..]));
      SortByLabelSorted(rows);
    }
  }

  /** Every row of the reference pivot is the reference row of its own label, a series key. */
  lemma PivotSpecRows(es: seq<Entry>, cats: seq<Cell>)
    ensures AllLabelled(PivotSpec(es, cats)) && DistinctLabels(PivotSpec(es, cats))
    ensures forall r :: r in PivotSpec(es, cats) ==> r[0] in SeriesLabels(es) && r == SpecRow(es, r[0], cats)
    ensures forall s :: s in SeriesLabels(es) ==> SpecRow(es, s, cats) in PivotSpec(es, cats)
  {
    var P := PivotSpec(es, cats);
    var L := SeriesLabels(es);
    assert forall i :: 0 <= i < |P| ==> P[i] == SpecRow(es, L[i], cats);
    forall s | s in L
      ensures SpecRow(es, s, cats) in P
    {
      assert P[IndexOf(L, s)] == SpecRow(es, s, cats);
    }
  }

  /** The two-group series rows are the reference pivot, sorted. */
  lemma TwoGroupIsSortedSpec(data: seq<Row>, sub: Option<Transformer>, bar: bool)
    requires WidthAtLeast(data, 3)
    ensures AllLabelled(PivotSpec(Entries(data, sub), Categories(data)))
    ensures TwoGroupColumns(data, sub, bar) == SortByLabel(PivotSpec(Entries(data, sub), Categories(data)))
  {
    var cats := Categories(data);
    var es := Entries(data, sub);
    SearchLabelsPlace(cats, bar);
    EntriesInCategories(data, sub);
    FoldPivotIsSpec(es, cats, SearchLabels(cats, bar));
    PivotSpecRows(es, cats);
  }

  /**
   * The two-group pivot: one row per distinct series key, in strictly ascending label
   * order, each the label followed by exactly one cell per category; the cell of
   * category j holds what the last (category, series) row wrote, or zero.
   */
  lemma TwoGroupPivot(data: seq<Row>, sub: Option<Transformer>, bar: bool)
    requires WidthAtLeast(data, 3)
    ensures AllLabelled(TwoGroupColumns(data, sub, bar))
    ensures |TwoGroupColumns(data, sub, bar)| == |SeriesLabels(Entries(data, sub))|
    ensures forall r :: r in TwoGroupColumns(data, sub, bar) ==>
              r[0] in SeriesLabels(Entries(data, sub)) && |r| == |Categories(data)| + 1 &&
              forall j :: 0 <= j < |Categories(data)| ==> r[j + 1] == Hit(Entries(data, sub), r[0], Categories(data)[j])
    ensures forall s :: s in SeriesLabels(Entries(data, sub)) ==>
              exists r :: r in TwoGroupColumns(data, sub, bar) && r[0] == s
    ensures var out := TwoGroupColumns(data, sub, bar);
              forall i, j :: 0 <= i < j < |out| ==> CellLt(out[i][0], out[j][0])
  {
    var cats := Categories(data);
    var es := Entries(data, sub);
    var P := PivotSpec(es, cats);
    TwoGroupIsSortedSpec(data, sub, bar);
    PivotSpecRows(es, cats);
    var out := TwoGroupColumns(data, sub, bar);
    SortKeepsDistinct(P);
    SortByLabelSorted(P);
    SortedDistinctIsStrict(out);
    forall s | s in SeriesLabels(es)
      ensures exists r :: r in out && r[0] == s
    {
      var row := SpecRow(es, s, cats);
      assert row in multiset(P);
      assert row in out;
    }
  }

  /** Every series row has its label. */
  lemma TwoGroupLabelled(data: seq<Row>, sub: Option<Transformer>, bar: bool)
    requires WidthAtLeast(data, 3)
    ensures AllLabelled(TwoGroupColumns(data, sub, bar))
  {
    TwoGroupPivot(data, sub, bar);
  }

  /** The label column of rows whose labels are exactly `labels`, strictly ascending. */
  lemma LabelColumn(rows: seq<Row>, labels: seq<Cell>)
    requires AllLabelled(rows) && |rows| == |labels|
    requires forall r :: r in rows ==> r[0] in labels
    requires forall s :: s in labels ==> exists r :: r in rows && r[0] == s
    requires forall i, j :: 0 <= i < j < |rows| ==> CellLt(rows[i][0], rows[j][0])
    ensures var g := Column(rows, 0);
      |g| == |labels| &&
      (forall s :: s in g ==> s in labels) &&
      (forall s :: s in labels ==> s in g) &&
      (forall i, j :: 0 <= i < j < |g| ==> CellLt(g[i], g[j]))
  {
    var g := Column(rows, 0);
    forall s | s in labels
      ensures s in g
    {
      var r :| r in rows && r[0] == s;
      var i :| 0 <= i < |rows| && rows[i] == r;
      assert g[i] == s;
    }
    forall s | s in g
      ensures s in labels
    {
      var i :| 0 <= i < |g| && g[i] == s;
      assert rows[i] in rows;
    }
  }

  /**
   * The label column of the series rows (what a stacked bar chart stacks): every series
   * label once, in strictly ascending order.
   */
  lemma SeriesLabelColumn(data: seq<Row>, sub: Option<Transformer>, bar: bool)
    requires WidthAtLeast(data, 3)
    ensures AllLabelled(TwoGroupColumns(data, sub, bar))
    ensures AllLabelled(TwoGroupColumns(data, sub, bar)) && var g := Column(TwoGroupColumns(data, sub, bar), 0);
      |g| == |SeriesLabels(Entries(data, sub))| &&
      (forall s :: s in g ==> s in SeriesLabels(Entries(data, sub))) &&
      (forall s :: s in SeriesLabels(Entries(data, sub)) ==> s in g) &&
      (forall i, j :: 0 <= i < j < |g| ==> CellLt(g[i], g[j]))
  {
    TwoGroupPivot(data, sub, bar);
    LabelColumn(TwoGroupColumns(data, sub, bar), SeriesLabels(Entries(data, sub)));
  }

  /** A cell of a series row holds the `Hit` of its series and category. */
  lemma CellIsHit(data: seq<Row>, sub: Option<Transformer>, bar: bool, r: Row, j: nat)
    requires WidthAtLeast(data, 3)
    requires r in TwoGroupColumns(data, sub, bar) && j < |Categories(data)|
    ensures |r| == |Categories(data)| + 1 && r[j + 1] == Hit(Entries(data, sub), r[0], Categories(data)[j])
  {
    TwoGroupPivot(data, sub, bar);
  }

  /** A (category, series) pair that no result row has leaves its zero in the cell. */
  lemma MissingPairIsZero(data: seq<Row>, sub: Option<Transformer>, bar: bool, r: Row, j: nat)
    requires WidthAtLeast(data, 3)
    requires r in TwoGroupColumns(data, sub, bar) && j < |Categories(data)|
    requires forall i :: 0 <= i < |data| ==>
               !(data[i][0] == Categories(data)[j] && SeriesKey(data[i], data, sub) == r[0])
    ensures |r| == |Categories(data)| + 1 && r[j + 1] == Zero
  {
    CellIsHit(data, sub, bar, r, j);
    var es := Entries(data, sub);
    var c := Categories(data)[j];
    assert forall i :: 0 <= i < |es| ==> !Matches(es[i], r[0], c);
    HitWithoutMatch(es, r[0], c);
  }

  /** When several result rows hit the same cell, the last of them wins. */
  lemma LaterRowWins(data: seq<Row>, sub: Option<Transformer>, bar: bool, r: Row, j: nat, i: nat)
    requires WidthAtLeast(data, 3)
    requires r in TwoGroupColumns(data, sub, bar) && j < |Categories(data)|
    requires i < |data| && data[i][0] == Categories(data)[j] && SeriesKey(data[i], data, sub) == r[0]
    requires forall k :: i < k < |data| ==>
               !(data[k][0] == Categories(data)[j] && SeriesKey(data[k], data, sub) == r[0])
    ensures |r| == |Categories(data)| + 1 && r[j + 1] == data[i][2]
  {
    CellIsHit(data, sub, bar, r, j);
    var es := Entries(data, sub);
    var c := Categories(data)[j];
    assert LastMatch(es, r[0], c, i);
    HitIsLastWrite(es, r[0], c, i);
  }

  /** The one-group series: the label (or the first group field's name), then every total. */
  function SingleSeries(data: seq<Row>, labelValue: Option<Cell>, firstField: string): (out: seq<Row>)
    requires WidthAtLeast(data, 2)
    ensures |out| == 1 && |out[0]| == |data| + 1
    ensures out[0][0] == (if labelValue.Some? then labelValue.value else Text(firstField))
    ensures forall i :: 0 <= i < |data| ==> out[0][i + 1] == data[i][1]
  {
    [[labelValue.GetOr(Text(firstField))] + Column(data, 1)]
  }

  /**
   * When no category repeats, the single row holds one total per category: the total at
   * position j + 1 is the one of category j.
   */
  lemma SingleSeriesShape(data: seq<Row>, labelValue: Option<Cell>, firstField: string)
    requires WidthAtLeast(data, 2)
    requires NoDup(Column(data, 0))
    ensures |SingleSeries(data, labelValue, firstField)[0]| == |Categories(data)| + 1
    ensures forall j :: 0 <= j < |Categories(data)| ==>
              Categories(data)[j] == data[j][0] && SingleSeries(data, labelValue, firstField)[0][j + 1] == data[j][1]
  {
    DistinctOfNoDup(Column(data, 0));
  }

  /**
   * Pie and donut: each row keeps its place, its length and every cell after the first;
   * only the label goes through the legend hook, and without a hook nothing changes.
   */
  function RelabelSlices(data: seq<Row>, legend: Option<Transformer>): (out: seq<Row>)
    requires WidthAtLeast(data, 1)
    ensures |out| == |data|
    ensures forall i :: 0 <= i < |data| ==> |out[i]| == |data[i]| && out[i][1..] == data[i][1..]
    ensures legend.None? ==> out == data
    ensures legend.Some? ==> forall i :: 0 <= i < |data| ==> out[i][0] == legend.value(data[i][0], data[i], data)
  {
    match legend
    case None => data
    case Some(f) => seq(|data|, i requires 0 <= i < |data| => data[i][0 := f(data[i][0], data[i], data)])
  }
}
