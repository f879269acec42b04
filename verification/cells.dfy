/**
 * The values that travel through the chart pipeline: group values, colours and totals
 * fetched with `PDO::FETCH_NUM`, the zero used to fill missing cells, and the labels a
 * transformer returns. Values are compared with exact equality; PHP's loose `==` between
 * numeric strings and numbers is not modelled.
 */
module Cells {

  datatype Cell = Num(n: int) | Text(s: string)

  /** A row of a result set, or a column of the renderer's `data.columns`. */
  type Row = seq<Cell>

  /**
   * A caller-supplied hook (value, legend or sub-legend transformer). It receives the
   * value, the row (or label list) it came from, and the whole data set.
   */
  type Transformer = (Cell, seq<Cell>, seq<Row>) -> Cell

  /** Every row has at least `n` cells. */
  predicate WidthAtLeast(rows: seq<Row>, n: nat) {
    forall i :: 0 <= i < |rows| ==> |rows[i]| >= n
  }

  /** Every row has exactly `n` cells. */
  predicate WidthIs(rows: seq<Row>, n: nat) {
    forall i :: 0 <= i < |rows| ==> |rows[i]| == n
  }

  /** The cell a missing (category, series) pair gets. */
  const Zero: Cell := Num(0)

  /** Byte-wise string order, as `strcmp` orders two non-numeric strings. */
  predicate StrLt(a: string, b: string)
    decreases |a|
  {
    if |b| == 0 then false
    else if |a| == 0 then true
    else if a[0] != b[0] then a[0] < b[0]
    else StrLt(a[1..], b[1..])
  }

  /**
   * A total order standing in for PHP's comparison of array elements in `sort`:
   * numbers by value, strings byte-wise, numbers before strings.
   */
  predicate CellLt(a: Cell, b: Cell) {
    match (a, b)
    case (Num(x), Num(y)) => x < y
    case (Num(_), Text(_)) => true
    case (Text(_), Num(_)) => false
    case (Text(s), Text(t)) => StrLt(s, t)
  }

  predicate CellLe(a: Cell, b: Cell) {
    a == b || CellLt(a, b)
  }

  lemma {:induction false} StrLtIrreflexive(a: string)
    ensures !StrLt(a, a)
    decreases |a|
  {
    if |a| > 0 {
      StrLtIrreflexive(a[1..]);
    }
  }

  lemma {:induction false} StrLtTransitive(a: string, b: string, c: string)
    requires StrLt(a, b) && StrLt(b, c)
    ensures StrLt(a, c)
    decreases |a|
  {
    if |a| > 0 && a[0] == b[0] && b[0] == c[0] {
      StrLtTransitive(a[1..], b[1..], c[1..]);
    }
  }

  lemma {:induction false} StrLtTotal(a: string, b: string)
    requires a != b
    ensures StrLt(a, b) || StrLt(b, a)
    decreases |a|
  {
    if |a| > 0 && |b| > 0 && a[0] == b[0] {
      assert a == [a[0]] + a[1..];
      assert b == [b[0]] + b[1..];
      StrLtTotal(a[1..], b[1..]);
    }
  }

  lemma CellLtIrreflexive(a: Cell)
    ensures !CellLt(a, a)
  {
    if a.Text? {
      StrLtIrreflexive(a.s);
    }
  }

  lemma CellLtTransitive(a: Cell, b: Cell, c: Cell)
    requires CellLt(a, b) && CellLt(b, c)
    ensures CellLt(a, c)
  {
    if a.Text? && b.Text? && c.Text? {
      StrLtTransitive(a.s, b.s, c.s);
    }
  }

  lemma CellLtTotal(a: Cell, b: Cell)
    requires a != b
    ensures CellLt(a, b) || CellLt(b, a)
  {
    if a.Text? && b.Text? {
      StrLtTotal(a.s, b.s);
    }
  }

  lemma CellLeTransitive(a: Cell, b: Cell, c: Cell)
    requires CellLe(a, b) && CellLe(b, c)
    ensures CellLe(a, c)
  {
    if a != b && b != c {
      CellLtTransitive(a, b, c);
    }
  }

  lemma CellLeAntisymmetric(a: Cell, b: Cell)
    requires CellLe(a, b) && CellLe(b, a)
    ensures a == b
  {
    if a != b {
      CellLtTransitive(a, b, a);
      CellLtIrreflexive(a);
    }
  }
}
