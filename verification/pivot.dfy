/**
 * The long-to-wide reshape behind bar and line charts with two group fields.
 *
 * Each result row `[category, series, total]` is read as an `Entry`. The loop of the
 * source (`FoldPivot`) keeps one zero-filled row per series, in first-seen order, and
 * writes each total at the position `array_search` finds for its category; the rows are
 * then sorted. `PivotSpec` says the same thing declaratively: one row per distinct series
 * key, and in each cell the total of the last entry for that (series, category) pair, or
 * zero when there is none.
 */
module Pivot {
  import opened Results
  import opened Cells
  import opened Seqs

  /** One result row read as (category, series key, total). */
  datatype Entry = Entry(cat: Cell, key: Cell, val: Cell)

  /** `array_column($data, k)` on rows that all have column `k`. */
  function Column(data: seq<Row>, k: nat): (c: seq<Cell>)
    requires WidthAtLeast(data, k + 1)
    ensures |c| == |data|
    ensures forall i :: 0 <= i < |data| ==> c[i] == data[i][k]
  {
    seq(|data|, i requires 0 <= i < |data| => data[i][k])
  }

  /** `$labelsData`: the distinct values of column 0, in order of first appearance. */
  function Categories(data: seq<Row>): seq<Cell>
    requires WidthAtLeast(data, 1)
  {
    Distinct(Column(data, 0))
  }

  /** The series key of a row: its second group value, through the sub-legend hook if any. */
  function SeriesKey(item: Row, data: seq<Row>, sub: Option<Transformer>): Cell
    requires |item| >= 2
  {
    match sub
    case None => item[1]
    case Some(t) => t(item[1], item, data)
  }

  /** The rows of a two-group result set as entries. */
  function Entries(data: seq<Row>, sub: Option<Transformer>): (es: seq<Entry>)
    requires WidthAtLeast(data, 3)
    ensures |es| == |data|
    ensures forall i :: 0 <= i < |data| ==>
              es[i] == Entry(data[i][0], SeriesKey(data[i], data, sub), data[i][2])
  {
    seq(|data|, i requires 0 <= i < |data| => Entry(data[i][0], SeriesKey(data[i], data, sub), data[i][2]))
  }

  function Keys(es: seq<Entry>): (ks: seq<Cell>)
    ensures |ks| == |es| && forall i :: 0 <= i < |es| ==> ks[i] == es[i].key
  {
    seq(|es|, i requires 0 <= i < |es| => es[i].key)
  }

  /** The series labels, in the order in which the loop first meets them. */
  function SeriesLabels(es: seq<Entry>): seq<Cell> {
    Distinct(Keys(es))
  }

  predicate Matches(e: Entry, key: Cell, cat: Cell) {
    e.key == key && e.cat == cat
  }

  /**
   * The value a (series, category) cell ends up with when the entries are written in
   * order: the total of the last entry for that pair, or zero when none has it.
   */
  function Hit(es: seq<Entry>, key: Cell, cat: Cell): Cell
  {
    if |es| == 0 then Zero
    else if Matches(es[|es| - 1], key, cat) then es[|es| - 1].val
    else Hit(es[..|es| - 1], key, cat)
  }

  /** Entry `i` is the last one for the pair (key, cat). */
  predicate LastMatch(es: seq<Entry>, key: Cell, cat: Cell, i: nat) {
    i < |es| && Matches(es[i], key, cat) &&
    forall j :: i < j < |es| ==> !Matches(es[j], key, cat)
  }

  /** A pair no entry has keeps the zero it was filled with. */
  lemma {:induction false} HitWithoutMatch(es: seq<Entry>, key: Cell, cat: Cell)
    requires forall j :: 0 <= j < |es| ==> !Matches(es[j], key, cat)
    ensures Hit(es, key, cat) == Zero
  {
    if |es| > 0 {
      HitWithoutMatch(es[..|es| - 1], key, cat);
    }
  }

  /** A pair that some entries have holds the total of the last of them. */
  lemma {:induction false} HitIsLastWrite(es: seq<Entry>, key: Cell, cat: Cell, i: nat)
    requires LastMatch(es, key, cat, i)
    ensures Hit(es, key, cat) == es[i].val
  {
    if i < |es| - 1 {
      HitIsLastWrite(es[..|es| - 1], key, cat, i);
    }
  }

  /** The row of series `s`: its label, then one cell per category. */
  function SpecRow(es: seq<Entry>, s: Cell, cats: seq<Cell>): (r: Row)
    ensures |r| == |cats| + 1 && r[0] == s
    ensures forall j :: 0 <= j < |cats| ==> r[j + 1] == Hit(es, s, cats[j])
  {
    [s] + seq(|cats|, j requires 0 <= j < |cats| => Hit(es, s, cats[j]))
  }

  /** Reference definition of the unsorted pivot: one row per series, in first-seen order. */
  function PivotSpec(es: seq<Entry>, cats: seq<Cell>): seq<Row> {
    var labels := SeriesLabels(es);
    seq(|labels|, i requires 0 <= i < |labels| => SpecRow(es, labels[i], cats))
  }

  /** Every row has a label and `n` cells. */
  predicate Widths(values: seq<Row>, n: nat) {
    forall i :: 0 <= i < |values| ==> |values[i]| == n + 1
  }

  /** `array_fill(1, n, 0)`. */
  function Zeros(n: nat): (z: Row)
    ensures |z| == n && forall j :: 0 <= j < n ==> z[j] == Zero
  {
    seq(n, _ => Zero)
  }

  /** The position of the row labelled `key` (`$values[$key]`), or `|values|` when there is none. */
  function FindRow(values: seq<Row>, key: Cell): (k: nat)
    requires WidthAtLeast(values, 1)
    ensures k <= |values|
    ensures k < |values| ==> values[k][0] == key
    ensures forall j :: 0 <= j < k ==> values[j][0] != key
  {
    if |values| == 0 then 0
    else if values[0][0] == key then 0
    else 1 + FindRow(values[1..], key)
  }

  /**
   * One turn of the source loop: create the zero-filled row of the series if it is new,
   * then store the total at one past the position `array_search` finds for the category.
   */
  function PlaceEntry(values: seq<Row>, e: Entry, labels: seq<Cell>, n: nat): (r: seq<Row>)
    requires Widths(values, n)
    requires e.cat in labels && IndexOf(labels, e.cat) < n
    ensures Widths(r, n)
  {
    var k := FindRow(values, e.key);
    var vs := if k == |values| then values + [[e.key] + Zeros(n)] else values;
    vs[k := vs[k][IndexOf(labels, e.cat) + 1 := e.val]]
  }

  /** The loop turn on a series without a row appends its zero-filled row, written once. */
  lemma PlaceEntryAppend(values: seq<Row>, e: Entry, labels: seq<Cell>, n: nat, pos: nat)
    requires Widths(values, n)
    requires e.cat in labels && IndexOf(labels, e.cat) == pos && pos < n
    requires FindRow(values, e.key) == |values|
    ensures PlaceEntry(values, e, labels, n) == values + [([e.key] + Zeros(n))[pos + 1 := e.val]]
  {
  }

  /** The loop turn on a series with a row writes into that row only. */
  lemma PlaceEntryAt(values: seq<Row>, e: Entry, labels: seq<Cell>, n: nat, k: nat, pos: nat, row: Row)
    requires Widths(values, n)
    requires e.cat in labels && IndexOf(labels, e.cat) == pos && pos < n
    requires FindRow(values, e.key) == k && k < |values|
    requires values[k][pos + 1 := e.val] == row
    ensures PlaceEntry(values, e, labels, n) == values[k := row]
  {
  }

  /** The source loop over all entries, before sorting. */
  function FoldPivot(es: seq<Entry>, labels: seq<Cell>, n: nat): (r: seq<Row>)
    requires Placeable(es, labels, n)
    ensures Widths(r, n)
  {
    if |es| == 0 then []
    else PlaceEntry(FoldPivot(es[..|es| - 1], labels, n), es[|es| - 1], labels, n)
  }

  /** A row is unaffected by an entry of another series. */
  lemma SpecRowOtherKey(es: seq<Entry>, s: Cell, cats: seq<Cell>)
    requires |es| > 0 && es[|es| - 1].key != s
    ensures SpecRow(es, s, cats) == SpecRow(es[..|es| - 1], s, cats)
  {
  }

  lemma KeysPrefix(es: seq<Entry>)
    requires |es| > 0
    ensures Keys(es)[..|es| - 1] == Keys(es[..|es| - 1])
    ensures Keys(es)[|es| - 1] == es[|es| - 1].key
  {
  }

  /** Every entry's category is found by `array_search` in `labels` before position `n`. */
  predicate Placeable(es: seq<Entry>, labels: seq<Cell>, n: nat) {
    forall i :: 0 <= i < |es| ==> es[i].cat in labels && IndexOf(labels, es[i].cat) < n
  }

  /** `labels` places every category where the list of distinct categories does. */
  predicate SamePlaces(labels: seq<Cell>, cats: seq<Cell>) {
    forall c {:trigger c in cats} :: c in cats ==> c in labels && IndexOf(labels, c) == IndexOf(cats, c)
  }

  /** Writing the last entry into its series row gives the reference row of the longer list. */
  lemma WriteIntoRow(es: seq<Entry>, cats: seq<Cell>)
    requires |es| > 0 && NoDup(cats) && es[|es| - 1].cat in cats
    ensures var e := es[|es| - 1];
      SpecRow(es[..|es| - 1], e.key, cats)[IndexOf(cats, e.cat) + 1 := e.val] == SpecRow(es, e.key, cats)
  {
    var e := es[|es| - 1];
    var pos := IndexOf(cats, e.cat);
    var after := SpecRow(es[..|es| - 1], e.key, cats)[pos + 1 := e.val];
    forall j | 0 <= j < |cats|
      ensures after[j + 1] == Hit(es, e.key, cats[j])
    {
      if j != pos {
        assert cats[j] != e.cat;
      }
    }
  }

  /** The row of a series no entry has met yet is the zero-filled row. */
  lemma NewSeriesRow(es: seq<Entry>, key: Cell, cats: seq<Cell>)
    requires key !in Keys(es)
    ensures SpecRow(es, key, cats) == [key] + Zeros(|cats|)
  {
    forall j | 0 <= j < |cats|
      ensures Hit(es, key, cats[j]) == Zero
    {
      assert forall i :: 0 <= i < |es| ==> Keys(es)[i] == es[i].key;
      HitWithoutMatch(es, key, cats[j]);
    }
  }

  lemma SeriesLabelsStep(es: seq<Entry>)
    requires |es| > 0
    ensures var e := es[|es| - 1]; var Lp := SeriesLabels(es[..|es| - 1]);
      SeriesLabels(es) == if e.key in Lp then Lp else Lp + [e.key]
  {
    KeysPrefix(es);
  }

  /** `$values[$key]` on the reference pivot finds the row of the series, if it has one. */
  lemma FindRowInSpec(es: seq<Entry>, cats: seq<Cell>, key: Cell)
    ensures var L := SeriesLabels(es);
      FindRow(PivotSpec(es, cats), key) == if key in L then IndexOf(L, key) else |L|
  {
    var V := PivotSpec(es, cats);
    var L := SeriesLabels(es);
    assert forall i :: 0 <= i < |V| ==> V[i][0] == L[i];
  }

  /** The reference pivot has one row per series label, each of the full length. */
  lemma PivotSpecShape(es: seq<Entry>, cats: seq<Cell>)
    ensures |PivotSpec(es, cats)| == |SeriesLabels(es)|
    ensures forall i :: 0 <= i < |SeriesLabels(es)| ==> PivotSpec(es, cats)[i] == SpecRow(es, SeriesLabels(es)[i], cats)
    ensures Widths(PivotSpec(es, cats), |cats|)
  {
  }

  /** On the reference pivot, the loop turn of an entry whose series has a row rewrites that row. */
  lemma ExistingRowWritten(es: seq<Entry>, cats: seq<Cell>, labels: seq<Cell>, V: seq<Row>, q: nat, pos: nat)
    requires |es| > 0 && NoDup(cats) && SamePlaces(labels, cats) && es[|es| - 1].cat in cats
    requires V == PivotSpec(es[..|es| - 1], cats)
    requires es[|es| - 1].key in SeriesLabels(es[..|es| - 1])
    requires q == IndexOf(SeriesLabels(es[..|es| - 1]), es[|es| - 1].key)
    requires pos == IndexOf(cats, es[|es| - 1].cat)
    ensures PlaceEntry(V, es[|es| - 1], labels, |cats|) == V[q := SpecRow(es, es[|es| - 1].key, cats)]
  {
    var p := es[..|es| - 1];
    var e := es[|es| - 1];
    PivotSpecShape(p, cats);
    assert FindRow(V, e.key) == q by {
      FindRowInSpec(p, cats, e.key);
    }
    assert V[q][pos + 1 := e.val] == SpecRow(es, e.key, cats) by {
      assert V[q] == SpecRow(p, e.key, cats);
      WriteIntoRow(es, cats);
    }
    PlaceEntryAt(V, e, labels, |cats|, q, pos, SpecRow(es, e.key, cats));
  }

  /** Replacing the row of the entry's series turns the shorter list's pivot into the longer one's. */
  lemma ExistingRowSpec(es: seq<Entry>, cats: seq<Cell>, q: nat)
    requires |es| > 0 && es[|es| - 1].key in SeriesLabels(es[..|es| - 1])
    requires q == IndexOf(SeriesLabels(es[..|es| - 1]), es[|es| - 1].key)
    ensures PivotSpec(es[..|es| - 1], cats)[q := SpecRow(es, es[|es| - 1].key, cats)] == PivotSpec(es, cats)
  {
    var p := es[..|es| - 1];
    var e := es[|es| - 1];
    var Lp := SeriesLabels(p);
    SeriesLabelsStep(es);
    var L := SeriesLabels(es);
    assert L == Lp;
    var R := PivotSpec(p, cats)[q := SpecRow(es, e.key, cats)];
    var S := PivotSpec(es, cats);
    forall i | 0 <= i < |L|
      ensures R[i] == S[i]
    {
      if i != q {
        SpecRowOtherKey(es, L[i], cats);
      }
    }
  }

  /** Updating equal tables at the same place with the same row gives equal tables. */
  lemma UpdateSame(a: seq<Row>, v: seq<Row>, w: seq<Row>, q: nat, x: Row, b: seq<Row>)
    requires q < |v| && v == w && a == v[q := x] && w[q := x] == b
    ensures a == b
  {
  }

  /** The step of the loop on an entry whose series already has a row. */
  lemma StepExisting(es: seq<Entry>, cats: seq<Cell>, labels: seq<Cell>, V: seq<Row>)
    requires |es| > 0 && NoDup(cats) && SamePlaces(labels, cats) && es[|es| - 1].cat in cats
    requires V == PivotSpec(es[..|es| - 1], cats)
    requires es[|es| - 1].key in SeriesLabels(es[..|es| - 1])
    ensures PlaceEntry(V, es[|es| - 1], labels, |cats|) == PivotSpec(es, cats)
  {
    var e := es[|es| - 1];
    var q := IndexOf(SeriesLabels(es[..|es| - 1]), e.key);
    PivotSpecShape(es[..|es| - 1], cats);
    ExistingRowWritten(es, cats, labels, V, q, IndexOf(cats, e.cat));
    ExistingRowSpec(es, cats, q);
    UpdateSame(PlaceEntry(V, e, labels, |cats|), V, PivotSpec(es[..|es| - 1], cats), q,
               SpecRow(es, e.key, cats), PivotSpec(es, cats));
  }

  /** Appending equal rows gives equal tables. */
  lemma AppendSame(a: seq<Row>, v: seq<Row>, x: Row, y: Row, b: seq<Row>)
    requires a == v + [x] && x == y && v + [y] == b
    ensures a == b
  {
  }

  /** The zero-filled row of a new series, with the entry written, is its reference row. */
  lemma NewRowCell(es: seq<Entry>, cats: seq<Cell>, pos: nat)
    requires |es| > 0 && NoDup(cats) && es[|es| - 1].cat in cats
    requires es[|es| - 1].key !in SeriesLabels(es[..|es| - 1])
    requires pos == IndexOf(cats, es[|es| - 1].cat)
    ensures ([es[|es| - 1].key] + Zeros(|cats|))[pos + 1 := es[|es| - 1].val] == SpecRow(es, es[|es| - 1].key, cats)
  {
    var e := es[|es| - 1];
    NewSeriesRow(es[..|es| - 1], e.key, cats);
    WriteIntoRow(es, cats);
  }

  /** On the reference pivot, the loop turn of an entry of a new series appends its zero-filled row, written once. */
  lemma NewRowWritten(es: seq<Entry>, cats: seq<Cell>, labels: seq<Cell>, V: seq<Row>, pos: nat)
    requires |es| > 0 && SamePlaces(labels, cats) && es[|es| - 1].cat in cats
    requires V == PivotSpec(es[..|es| - 1], cats)
    requires es[|es| - 1].key !in SeriesLabels(es[..|es| - 1])
    requires pos == IndexOf(cats, es[|es| - 1].cat)
    ensures var e := es[|es| - 1];
      PlaceEntry(V, e, labels, |cats|) == V + [([e.key] + Zeros(|cats|))[pos + 1 := e.val]]
  {
    PivotSpecShape(es[..|es| - 1], cats);
    FindRowInSpec(es[..|es| - 1], cats, es[|es| - 1].key);
    PlaceEntryAppend(V, es[|es| - 1], labels, |cats|, pos);
  }

  /** Appending the row of a new series turns the shorter list's pivot into the longer one's. */
  lemma NewRowSpec(es: seq<Entry>, cats: seq<Cell>)
    requires |es| > 0 && es[|es| - 1].key !in SeriesLabels(es[..|es| - 1])
    ensures PivotSpec(es[..|es| - 1], cats) + [SpecRow(es, es[|es| - 1].key, cats)] == PivotSpec(es, cats)
  {
    var p := es[..|es| - 1];
    var e := es[|es| - 1];
    var Lp := SeriesLabels(p);
    SeriesLabelsStep(es);
    var L := SeriesLabels(es);
    assert L == Lp + [e.key];
    var V := PivotSpec(p, cats);
    var R := V + [SpecRow(es, e.key, cats)];
    var S := PivotSpec(es, cats);
    forall i | 0 <= i < |L|
      ensures R[i] == S[i]
    {
      if i < |V| {
        SpecRowOtherKey(es, L[i], cats);
      }
    }
  }

  /** The step of the loop on an entry of a series seen for the first time. */
  lemma StepNew(es: seq<Entry>, cats: seq<Cell>, labels: seq<Cell>, V: seq<Row>)
    requires |es| > 0 && NoDup(cats) && SamePlaces(labels, cats) && es[|es| - 1].cat in cats
    requires V == PivotSpec(es[..|es| - 1], cats)
    requires es[|es| - 1].key !in SeriesLabels(es[..|es| - 1])
    ensures PlaceEntry(V, es[|es| - 1], labels, |cats|) == PivotSpec(es, cats)
  {
    var e := es[|es| - 1];
    var pos := IndexOf(cats, e.cat);
    NewRowWritten(es, cats, labels, V, pos);
    NewRowCell(es, cats, pos);
    NewRowSpec(es, cats);
    AppendSame(PlaceEntry(V, e, labels, |cats|), V, ([e.key] + Zeros(|cats|))[pos + 1 := e.val],
               SpecRow(es, e.key, cats), PivotSpec(es, cats));
  }

  /**
   * The loop computes the reference pivot, provided `labels` places every category
   * where the list of distinct categories does (true for the line labels and for the
   * repeated bar labels alike).
   */
  lemma {:induction false} FoldPivotIsSpec(es: seq<Entry>, cats: seq<Cell>, labels: seq<Cell>)
    requires NoDup(cats) && SamePlaces(labels, cats)
    requires forall i :: 0 <= i < |es| ==> es[i].cat in cats
    ensures Placeable(es, labels, |cats|) && FoldPivot(es, labels, |cats|) == PivotSpec(es, cats)
  {
    if |es| > 0 {
      var p := es[..|es| - 1];
      assert forall i :: 0 <= i < |p| ==> p[i] == es[i];
      FoldPivotIsSpec(p, cats, labels);
      if es[|es| - 1].key in SeriesLabels(p) {
        StepExisting(es, cats, labels, FoldPivot(p, labels, |cats|));
      } else {
        StepNew(es, cats, labels, FoldPivot(p, labels, |cats|));
      }
    }
  }

  predicate AllLabelled(rows: seq<Row>) {
    forall r :: r in rows ==> |r| > 0
  }

  /** Rows in ascending order of their label (cell 0). */
  predicate SortedByLabel(rows: seq<Row>)
    requires AllLabelled(rows)
  {
    forall i, j :: 0 <= i < j < |rows| ==> CellLe(rows[i][0], rows[j][0])
  }

  function InsertByLabel(x: Row, rows: seq<Row>): (r: seq<Row>)
    requires |x| > 0 && AllLabelled(rows)
    ensures forall y :: y in r ==> y == x || y in rows
    ensures multiset(r) == multiset(rows) + multiset{x}
  {
    if |rows| == 0 then [x]
    else if CellLe(x[0], rows[0][0]) then [x] + rows
    else
      assert rows == [rows[0]] + rows[1..];
      [rows[0]] + InsertByLabel(x, rows[1..])
  }

  lemma {:induction false} InsertKeepsOrder(x: Row, rows: seq<Row>)
    requires |x| > 0 && AllLabelled(rows) && SortedByLabel(rows)
    ensures SortedByLabel(InsertByLabel(x, rows))
  {
    if |rows| > 0 && !CellLe(x[0], rows[0][0]) {
      CellLtTotal(x[0], rows[0][0]);
      InsertKeepsOrder(x, rows[1..]);
      var r := InsertByLabel(x, rows);
      forall i, j | 0 <= i < j < |r|
        ensures CellLe(r[i][0], r[j][0])
      {
        if i == 0 {
          if r[j] == x {
            assert CellLe(rows[0][0], x[0]);
          } else {
            assert r[j] in rows[1..];
            var t :| 0 <= t < |rows[1..]| && rows[1..][t] == r[j];
            assert rows[t + 1] == r[j];
          }
        }
      }
    } else if |rows| > 0 {
      var r := InsertByLabel(x, rows);
      forall i, j | 0 <= i < j < |r|
        ensures CellLe(r[i][0], r[j][0])
      {
        if i == 0 && j > 1 {
          CellLeTransitive(x[0], rows[0][0], rows[j - 1][0]);
        }
      }
    }
  }

  /** PHP `sort` applied to the series rows, ordering them by label. */
  function SortByLabel(rows: seq<Row>): (r: seq<Row>)
    requires AllLabelled(rows)
    ensures multiset(r) == multiset(rows)
    ensures forall y :: y in r ==> y in rows
    ensures |r| == |rows|
  {
    if |rows| == 0 then []
    else
      assert rows == [rows[0]] + rows[1..];
      InsertByLabel(rows[0], SortByLabel(rows[1..]))
  }

  /** The sorted rows are in ascending label order. */
  lemma {:induction false} SortByLabelSorted(rows: seq<Row>)
    requires AllLabelled(rows)
    ensures AllLabelled(SortByLabel(rows)) && SortedByLabel(SortByLabel(rows))
  {
    if |rows| > 0 {
      SortByLabelSorted(rows[1..]);
      InsertKeepsOrder(rows[0], SortByLabel(rows[1..]));
    }
  }

  /** With pairwise distinct labels, sorted rows are in strictly ascending label order. */
  lemma SortedDistinctIsStrict(rows: seq<Row>)
    requires AllLabelled(rows) && SortedByLabel(rows)
    requires forall i, j :: 0 <= i < j < |rows| ==> rows[i][0] != rows[j][0]
    ensures forall i, j :: 0 <= i < j < |rows| ==> CellLt(rows[i][0], rows[j][0])
  {
  }
}
