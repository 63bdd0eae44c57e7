/**
 * The uploaded table as pandas holds it after `read_csv`: named columns of equal height whose
 * cells are numbers, text or missing (NaN), and `pd.to_numeric(..., errors='coerce')` on it.
 */
module Frames {
  import opened Wrappers

  /** One cell of a column. `Missing` is pandas' NaN. */
  datatype Cell = Num(x: real) | Text(s: string) | Missing

  /** A table: each column name maps to its cells, top to bottom; `height` is the row count. */
  datatype Frame = Frame(columns: map<string, seq<Cell>>, height: nat)

  /** Every column of a table has one cell per row. */
  predicate WellFormed(f: Frame) {
    forall c :: c in f.columns ==> |f.columns[c]| == f.height
  }

  /**
   * `pd.to_numeric(errors='coerce')` on one cell. Numbers stay, NaN stays missing, and text is
   * handed to pandas' number parser, which is the parameter `parse`; text it rejects becomes NaN.
   */
  function Coerce(c: Cell, parse: string -> Option<real>): (r: Cell)
    ensures r.Num? || r.Missing?
    ensures c.Num? ==> r == c
    ensures c.Missing? ==> r.Missing?
    ensures c.Text? ==> (r.Num? <==> parse(c.s).Some?)
    ensures c.Text? && r.Num? ==> r.x == parse(c.s).value
  {
    match c
    case Num(_) => c
    case Missing => Missing
    case Text(s) => if parse(s).Some? then Num(parse(s).value) else Missing
  }

  /** A coerced cell read as "number or missing". */
  function AsNumber(c: Cell): (r: Option<real>)
    ensures r.Some? <==> c.Num?
  {
    if c.Num? then Some(c.x) else None
  }

  /** `pd.to_numeric(df[col], errors='coerce')`: the column coerced cell by cell. */
  function CoerceColumn(col: seq<Cell>, parse: string -> Option<real>): (r: seq<Cell>)
    ensures |r| == |col|
    ensures forall i :: 0 <= i < |col| ==> r[i] == Coerce(col[i], parse)
  {
    seq(|col|, i requires 0 <= i < |col| => Coerce(col[i], parse))
  }
}
