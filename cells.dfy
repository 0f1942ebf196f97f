/** The values a data frame cell holds, Python's `int(value)` on them, and
    the order `sort_values` puts them in. */
module Cells {
  import opened Errors
  import opened PyInt
  import opened Sorting

  /** One cell: an integer, a float, a boolean, a string, or a missing
      value (NaN / None). */
  datatype Cell = Int(i: int) | Real(x: real) | Bool(b: bool) | Text(s: string) | Missing

  /** `int(x)` for a float: the integer part, rounded toward zero. */
  function Truncate(x: real): (n: int)
    ensures x >= 0.0 ==> n as real <= x < n as real + 1.0
    ensures x < 0.0 ==> n as real - 1.0 < x <= n as real
  {
    if x >= 0.0 then x.Floor else -((-x).Floor)
  }

  /** `int(value)`, which `astype(int)` applies to every cell. */
  function CellToInt(c: Cell): (r: Result<int>)
    ensures c.Int? ==> r == Ok(c.i)
    ensures c.Bool? ==> r == Ok(if c.b then 1 else 0)
    ensures c.Real? ==> r == Ok(Truncate(c.x))
    ensures c.Text? ==> r == ParseInt(c.s)
    ensures c.Missing? ==> r.Err? && r.error.ValueError?
    ensures r.Err? ==> r.error.ValueError?
  {
    match c
    case Int(i) => Ok(i)
    case Real(x) => Ok(Truncate(x))
    case Bool(b) => Ok(if b then 1 else 0)
    case Text(s) => ParseInt(s)
    case Missing => Err(ValueError("nan"))
  }

  predicate IsNumeric(c: Cell) {
    c.Int? || c.Real? || c.Bool?
  }

  /** The number a numeric cell compares as (`True == 1`). */
  function NumValue(c: Cell): real
    requires IsNumeric(c)
  {
    match c
    case Int(i) => i as real
    case Real(x) => x
    case Bool(b) => if b then 1.0 else 0.0
  }

  /** Python's `<=` on strings: lexicographic by code point. */
  predicate StrLe(a: string, b: string)
    decreases |a|
  {
    if a == [] then true
    else if b == [] then false
    else if a[0] != b[0] then a[0] < b[0]
    else StrLe(a[1..], b[1..])
  }

  lemma {:induction false} StrLeTotal(a: string, b: string)
    ensures StrLe(a, b) || StrLe(b, a)
    decreases |a|
  {
    if a != [] && b != [] && a[0] == b[0] {
      StrLeTotal(a[1..], b[1..]);
    }
  }

  lemma {:induction false} StrLeTransitive(a: string, b: string, c: string)
    requires StrLe(a, b) && StrLe(b, c)
    ensures StrLe(a, c)
    decreases |a|
  {
    if a != [] && b != [] && c != [] && a[0] == b[0] && b[0] == c[0] {
      StrLeTransitive(a[1..], b[1..], c[1..]);
    }
  }

  /** Where `sort_values` puts a kind of cell: numbers, then strings, then
      missing values (`na_position='last'`). Numbers and strings never meet
      in a column that sorts; see `Orderable`. */
  function Rank(c: Cell): nat {
    if IsNumeric(c) then 0 else if c.Text? then 1 else 2
  }

  /** The ascending order `sort_values` sorts a column by. */
  predicate CellLe(a: Cell, b: Cell) {
    if Rank(a) != Rank(b) then Rank(a) < Rank(b)
    else if IsNumeric(a) then NumValue(a) <= NumValue(b)
    else if a.Text? then StrLe(a.s, b.s)
    else true
  }

  lemma CellLeTotal(a: Cell, b: Cell)
    ensures CellLe(a, b) || CellLe(b, a)
  {
    if a.Text? && b.Text? {
      StrLeTotal(a.s, b.s);
    }
  }

  lemma CellLeTransitive(a: Cell, b: Cell, c: Cell)
    requires CellLe(a, b) && CellLe(b, c)
    ensures CellLe(a, c)
  {
    if a.Text? && b.Text? && c.Text? {
      StrLeTransitive(a.s, b.s, c.s);
    }
  }

  /** The cell order is a valid sort key comparison. */
  lemma CellLeIsTotalPreorder()
    ensures TotalPreorder(CellLe)
  {
    forall a, b ensures CellLe(a, b) || CellLe(b, a) {
      CellLeTotal(a, b);
    }
    forall a, b, c | CellLe(a, b) && CellLe(b, c) ensures CellLe(a, c) {
      CellLeTransitive(a, b, c);
    }
  }

  /** True when a column's values can be compared with each other: its
      non-missing values are all numbers or all strings. Python raises
      TypeError when it has to compare a string with a number. */
  predicate Orderable(cs: seq<Cell>) {
    || (forall i :: 0 <= i < |cs| ==> IsNumeric(cs[i]) || cs[i].Missing?)
    || (forall i :: 0 <= i < |cs| ==> cs[i].Text? || cs[i].Missing?)
  }
}
