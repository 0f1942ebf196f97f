/** A data frame as the preprocessing code uses it: a designated
    `timestamp` column, a set of other named columns, and rows in order. */
module Frames {
  import opened Errors
  import opened Sorting
  import opened Cells

  /** A point in time, in microseconds. */
  type Time = int

  /** One row: its timestamp and its value in every other column. */
  datatype Row = Row(timestamp: Time, cells: map<string, Cell>)

  /** `columns` are the frame's column names other than `timestamp`. */
  datatype Frame = Frame(columns: set<string>, rows: seq<Row>)

  const TimestampColumn: string := "timestamp"

  /** A frame is rectangular: every row has a value in exactly the frame's
      columns. */
  predicate WellFormed(f: Frame) {
    && TimestampColumn !in f.columns
    && forall i :: 0 <= i < |f.rows| ==> f.rows[i].cells.Keys == f.columns
  }

  /** The value of `r` in column `name`; missing when `r` has no such column. */
  function CellOf(r: Row, name: string): Cell {
    if name in r.cells then r.cells[name] else Missing
  }

  /** `df[name]` as a sequence of values. */
  function Column(f: Frame, name: string): (cs: seq<Cell>)
    ensures |cs| == |f.rows|
  {
    seq(|f.rows|, i requires 0 <= i < |f.rows| => CellOf(f.rows[i], name))
  }

  /** The comparison `sort_values(by=name)` orders rows by. */
  function ByColumn(name: string): (Row, Row) -> bool {
    (a: Row, b: Row) => CellLe(CellOf(a, name), CellOf(b, name))
  }

  /** The comparison `sort_values(by="timestamp")` orders rows by. */
  function ByTimestamp(): (Row, Row) -> bool {
    (a: Row, b: Row) => a.timestamp <= b.timestamp
  }

  lemma ByColumnIsTotalPreorder(name: string)
    ensures TotalPreorder(ByColumn(name))
  {
    var le := ByColumn(name);
    forall a, b ensures le(a, b) || le(b, a) {
      CellLeTotal(CellOf(a, name), CellOf(b, name));
    }
    forall a, b, c | le(a, b) && le(b, c) ensures le(a, c) {
      CellLeTransitive(CellOf(a, name), CellOf(b, name), CellOf(c, name));
    }
  }

  lemma ByTimestampIsTotalPreorder()
    ensures TotalPreorder(ByTimestamp())
  {
  }

  lemma {:induction false} SameRowsWellFormed(f: Frame, rows: seq<Row>)
    requires WellFormed(f) && multiset(rows) == multiset(f.rows)
    ensures WellFormed(Frame(f.columns, rows))
  {
    forall i | 0 <= i < |rows| ensures rows[i].cells.Keys == f.columns {
      assert rows[i] in multiset(f.rows);
    }
  }

  /** `df.sort_values(by=name)`: KeyError for an unknown column, TypeError
      when its values cannot be compared, otherwise the same rows ordered
      by that column. The timestamp column is a column too, and always
      sorts. */
  function SortValues(f: Frame, name: string): (r: Result<Frame>)
    requires WellFormed(f)
    ensures r.Err? <==> name != TimestampColumn && (name !in f.columns || !Orderable(Column(f, name)))
    ensures r.Err? ==> r.error == (if name !in f.columns then KeyError(name) else TypeError(name))
    ensures r.Ok? ==> WellFormed(r.value) && r.value.columns == f.columns
    ensures r.Ok? ==> multiset(r.value.rows) == multiset(f.rows)
    ensures r.Ok? && name != TimestampColumn ==> forall i, j :: 0 <= i < j < |r.value.rows| ==>
                        CellLe(r.value.rows[i].cells[name], r.value.rows[j].cells[name])
    ensures r.Ok? && name == TimestampColumn ==> forall i, j :: 0 <= i < j < |r.value.rows| ==>
                        r.value.rows[i].timestamp <= r.value.rows[j].timestamp
  {
    if name == TimestampColumn then Ok(SortByTimestamp(f))
    else if name !in f.columns then Err(KeyError(name))
    else if !Orderable(Column(f, name)) then Err(TypeError(name))
    else
      var rows := Sort(f.rows, ByColumn(name));
      ByColumnIsTotalPreorder(name);
      SortSorted(f.rows, ByColumn(name));
      SameRowsWellFormed(f, rows);
      Ok(Frame(f.columns, rows))
  }

  /** `df.sort_values(by="timestamp")`: the same rows in non-decreasing
      timestamp order. */
  function SortByTimestamp(f: Frame): (r: Frame)
    requires WellFormed(f)
    ensures WellFormed(r) && r.columns == f.columns
    ensures multiset(r.rows) == multiset(f.rows)
    ensures forall i, j :: 0 <= i < j < |r.rows| ==> r.rows[i].timestamp <= r.rows[j].timestamp
  {
    var rows := Sort(f.rows, ByTimestamp());
    ByTimestampIsTotalPreorder();
    SortSorted(f.rows, ByTimestamp());
    SameRowsWellFormed(f, rows);
    Frame(f.columns, rows)
  }

  /** `df[:n]`: the first `n` rows, or all of them when there are fewer. */
  function Head(f: Frame, n: nat): (r: Frame)
    requires WellFormed(f)
    ensures WellFormed(r) && r.columns == f.columns
    ensures |r.rows| == if |f.rows| < n then |f.rows| else n
    ensures r.rows <= f.rows
  {
    Frame(f.columns, if |f.rows| < n then f.rows else f.rows[..n])
  }
}
