/** A batch of tabular records, as the pipeline's transforms see a pandas DataFrame:
    an ordered list of column names and one record per row, each record carrying its
    index label and its cells. A cell that a record does not hold reads as a missing
    value, just as pandas pads missing entries with NaN. */
module Frames {
  import opened Wrappers

  /** A cell: missing (NaN, None, NaT), a number, or text. */
  datatype Value = Null | Num(x: real) | Text(s: string)

  type Row = map<string, Value>

  /** One row of a frame: its index label and its cells by column name. */
  datatype Record = Record(ix: int, cells: Row)

  datatype Frame = Frame(columns: seq<string>, rows: seq<Record>)

  /** The exceptions a transform step can raise. */
  datatype TransformError =
    | MissingColumn(name: string)       // KeyError on a column lookup
    | ConversionFailed(column: string)  // pd.to_datetime / astype(int) could not convert a cell
    | NonNumericAmount(column: string)  // TypeError: a text amount multiplied by a rate or compared with 0
    | FrameAssigned(column: string)     // ValueError assigning a frame of other than one column to a column

  function Cell(row: Row, col: string): Value {
    if col in row then row[col] else Null
  }

  /** `df[col] = vals`: overwrite the column in place when it exists, else append it. */
  function SetColumn(df: Frame, col: string, vals: seq<Value>): (r: Frame)
    requires |vals| == |df.rows|
    ensures r.columns == if col in df.columns then df.columns else df.columns + [col]
    ensures |r.rows| == |df.rows|
    ensures forall i :: 0 <= i < |r.rows| ==> r.rows[i].ix == df.rows[i].ix
    ensures forall i, d :: 0 <= i < |r.rows| ==>
      Cell(r.rows[i].cells, d) == if d == col then vals[i] else Cell(df.rows[i].cells, d)
  {
    Frame(if col in df.columns then df.columns else df.columns + [col],
          seq(|df.rows|, i requires 0 <= i < |df.rows| =>
            Record(df.rows[i].ix, df.rows[i].cells[col := vals[i]])))
  }

  /** The first of `cols` that is not a column of `df`, if any. */
  function FirstMissing(cols: seq<string>, present: seq<string>): (m: Option<string>)
    ensures m.None? <==> forall k :: 0 <= k < |cols| ==> cols[k] in present
    ensures m.Some? ==> m.value in cols && m.value !in present
  {
    if cols == [] then None
    else if cols[0] !in present then Some(cols[0])
    else FirstMissing(cols[1..], present)
  }

  /** `df[cols]`: project every row onto exactly `cols`, in that order; a KeyError
      when one of them is not a column. */
  function Select(df: Frame, cols: seq<string>): (r: Result<Frame, TransformError>)
    ensures r.Success? <==> forall k :: 0 <= k < |cols| ==> cols[k] in df.columns
    ensures r.Success? ==>
      && r.value.columns == cols
      && |r.value.rows| == |df.rows|
      && (forall i :: 0 <= i < |df.rows| ==> r.value.rows[i].ix == df.rows[i].ix)
      && (forall i, c :: 0 <= i < |df.rows| ==> (c in r.value.rows[i].cells <==> c in cols))
      && (forall i, c :: 0 <= i < |df.rows| && c in cols ==>
            Cell(r.value.rows[i].cells, c) == Cell(df.rows[i].cells, c))
  {
    match FirstMissing(cols, df.columns)
    case Some(c) => Failure(MissingColumn(c))
    case None =>
      Success(Frame(cols, seq(|df.rows|, i requires 0 <= i < |df.rows| =>
        Record(df.rows[i].ix, map c | c in cols :: Cell(df.rows[i].cells, c)))))
  }

  /** An element-wise conversion of one column (pd.to_datetime, astype(int)), whose
      per-cell behaviour is not modelled: `f` stands for it, None meaning the cell
      cannot be converted, which makes the whole conversion raise. */
  function ConvertColumn(df: Frame, col: string, f: Value -> Option<Value>): (r: Result<Frame, TransformError>)
    ensures r.Success? <==>
      col in df.columns && forall i :: 0 <= i < |df.rows| ==> f(Cell(df.rows[i].cells, col)).Some?
    ensures r.Success? ==>
      && r.value.columns == df.columns
      && |r.value.rows| == |df.rows|
      && (forall i :: 0 <= i < |df.rows| ==> r.value.rows[i].ix == df.rows[i].ix)
      && (forall i :: 0 <= i < |df.rows| ==>
            Cell(r.value.rows[i].cells, col) == f(Cell(df.rows[i].cells, col)).value)
      && (forall i, d :: 0 <= i < |df.rows| && d != col ==>
            Cell(r.value.rows[i].cells, d) == Cell(df.rows[i].cells, d))
  {
    if col !in df.columns then Failure(MissingColumn(col))
    else if exists i | 0 <= i < |df.rows| :: f(Cell(df.rows[i].cells, col)).None? then
      Failure(ConversionFailed(col))
    else
      Success(SetColumn(df, col, seq(|df.rows|, i requires 0 <= i < |df.rows| =>
        f(Cell(df.rows[i].cells, col)).value)))
  }

  /** A test on a single cell, as the quality checks apply them to whole columns. */
  datatype CellTest =
    | IsMissing             // isnull()
    | IsNegativeNumber      // < 0
    | NotAmong(allowed: seq<string>)  // ~isin(allowed); a missing cell is not among them

  predicate Holds(t: CellTest, v: Value) {
    match t
    case IsMissing => v.Null?
    case IsNegativeNumber => v.Num? && v.x < 0.0
    case NotAmong(allowed) => !(v.Text? && v.s in allowed)
  }

  /** Scan of one column (`(df[col] ...).any()`): does some row's cell pass test `t`? */
  function AnyCell(rows: seq<Record>, col: string, t: CellTest): (b: bool)
    ensures b <==> exists i :: 0 <= i < |rows| && Holds(t, Cell(rows[i].cells, col))
  {
    if rows == [] then false
    else if Holds(t, Cell(rows[0].cells, col)) then true
    else
      var rest := AnyCell(rows[1..], col, t);
      assert forall i :: 1 <= i < |rows| ==> rows[i] == rows[1..][i - 1];
      rest
  }

  /** `df.isnull().any().any()` over the columns `cols`. */
  function AnyNullIn(rows: seq<Record>, cols: seq<string>): (b: bool)
    ensures b <==> exists i, k :: 0 <= i < |rows| && 0 <= k < |cols| && Cell(rows[i].cells, cols[k]) == Null
  {
    if cols == [] then false
    else if AnyCell(rows, cols[0], IsMissing) then true
    else
      var rest := AnyNullIn(rows, cols[1..]);
      assert forall k :: 1 <= k < |cols| ==> cols[k] == cols[1..][k - 1];
      rest
  }

  predicate HasNull(df: Frame) {
    AnyNullIn(df.rows, df.columns)
  }

  // ---------------------------------------------------------------------------
  // Decimal rendering of index labels, as `df.index.astype(str)` renders an integer.

  function DigitChar(d: nat): (c: char)
    requires d < 10
    ensures '0' <= c <= '9'
  {
    ('0' as int + d) as char
  }

  function NatToString(n: nat): (s: string)
    ensures |s| >= 1
    ensures forall k :: 0 <= k < |s| ==> '0' <= s[k] <= '9'
    ensures (|s| == 1) <==> n < 10
  {
    if n < 10 then [DigitChar(n)] else NatToString(n / 10) + [DigitChar(n % 10)]
  }

  function IntToString(i: int): string {
    if i < 0 then "-" + NatToString(-i) else NatToString(i)
  }

  lemma {:induction false} NatToStringInjective(a: nat, b: nat)
    requires NatToString(a) == NatToString(b)
    ensures a == b
  {
    var s := NatToString(a);
    if a < 10 {
      assert b < 10;
      assert DigitChar(a) == s[0] == DigitChar(b);
    } else {
      assert b >= 10;
      assert DigitChar(a % 10) == s[|s| - 1] == DigitChar(b % 10);
      assert NatToString(a / 10) == s[..|s| - 1] == NatToString(b / 10);
      NatToStringInjective(a / 10, b / 10);
    }
  }

  /** Distinct labels render as distinct strings. */
  lemma IntToStringInjective(a: int, b: int)
    requires IntToString(a) == IntToString(b)
    ensures a == b
  {
    var s := IntToString(a);
    assert '0' <= NatToString(if a < 0 then -a else a)[0] <= '9';
    assert '0' <= NatToString(if b < 0 then -b else b)[0] <= '9';
    if a < 0 {
      assert NatToString(-a) == s[1..] == NatToString(-b);
      NatToStringInjective(-a, -b);
    } else {
      NatToStringInjective(a, b);
    }
  }
}
