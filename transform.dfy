/** The per-domain batch transforms: currency normalisation, identity assignment,
    advisory quality checks and the fixed output projection of the sales, financial
    and attendance domains. */
module Transform {
  import opened Wrappers
  import opened Frames

  /** Currency code to USD multiplier. */
  type FxTable = map<string, real>

  /** What the transforms rely on but the model does not define: the FX table, the
      element-wise date and integer coercions (None: the cell cannot be converted),
      the rendering of a cell inside an f-string, and the MD5 hex digest. */
  datatype Config = Config(
    fx: FxTable,
    toDatetime: Value -> Option<Value>,
    toInt: Value -> Option<Value>,
    show: Value -> string,
    md5: string -> string)

  /** A quality warning: advisory output, never an error. */
  datatype Warning =
    | NullValues
    | NegativeQuantities
    | NegativeSalesAmounts
    | NegativeFinancialAmounts
    | InvalidStatuses

  /** A frame after a quality check, with the warnings the check reported. */
  datatype Checked = Checked(frame: Frame, warnings: seq<Warning>)

  /** A transformed batch ready to load, with the warnings reported on the way. */
  datatype Transformed = Transformed(frame: Frame, warnings: seq<Warning>)

  // ---------------------------------------------------------------------------
  // FX conversion

  /** `df["Currency"].map(FX_RATES)` for one cell: a missing or unknown code has no rate. */
  function Rate(fx: FxTable, currency: Value): Option<real> {
    if currency.Text? && currency.s in fx then Some(fx[currency.s]) else None
  }

  /** One cell of `amount * rate`; a missing amount or a missing rate gives a missing value. */
  function UsdAmount(amount: Value, rate: Option<real>): Value {
    if amount.Num? && rate.Some? then Num(amount.x * rate.value) else Null
  }

  function UsdColumnName(col: string): string {
    col + "_USD"
  }

  /** `d` is the USD column of one of the amount columns `cols`. */
  predicate IsUsdName(d: string, cols: seq<string>) {
    exists j :: 0 <= j < |cols| && d == UsdColumnName(cols[j])
  }

  /** No amount column, and not `Currency`, is itself the USD column of an amount column. */
  predicate UsdNamesFresh(cols: seq<string>) {
    && (forall k, j :: 0 <= k < |cols| && 0 <= j < |cols| ==> cols[k] != UsdColumnName(cols[j]))
    && (forall j :: 0 <= j < |cols| ==> "Currency" != UsdColumnName(cols[j]))
  }

  predicate HasTextIn(df: Frame, col: string) {
    exists i :: 0 <= i < |df.rows| && Cell(df.rows[i].cells, col).Text?
  }

  /** Some row holds a text amount in `col` and a currency with a rate. Multiplying a
      column that holds text falls back to multiplying cell by cell wherever neither side
      is missing, so only such a row makes the multiplication raise. */
  predicate HasRatedTextIn(df: Frame, col: string, fx: FxTable) {
    exists i :: 0 <= i < |df.rows| && Cell(df.rows[i].cells, col).Text?
      && Rate(fx, Cell(df.rows[i].cells, "Currency")).Some?
  }

  /** One iteration of `add_usd_columns`: `df[f"{col}_USD"] = df[col] * df["Currency"].map(FX_RATES)`. */
  function AddUsdColumn(df: Frame, col: string, fx: FxTable): Result<Frame, TransformError> {
    if col !in df.columns then Failure(MissingColumn(col))
    else if "Currency" !in df.columns then Failure(MissingColumn("Currency"))
    else if exists i | 0 <= i < |df.rows| ::
      Cell(df.rows[i].cells, col).Text? && Rate(fx, Cell(df.rows[i].cells, "Currency")).Some? then
      Failure(NonNumericAmount(col))
    else
      Success(SetColumn(df, UsdColumnName(col), seq(|df.rows|, i requires 0 <= i < |df.rows| =>
        UsdAmount(Cell(df.rows[i].cells, col), Rate(fx, Cell(df.rows[i].cells, "Currency"))))))
  }

  /** The frame `add_usd_columns` leaves after handling `cols` in order. */
  function WithUsdColumns(df: Frame, cols: seq<string>, fx: FxTable): Result<Frame, TransformError>
    decreases |cols|
  {
    if cols == [] then Success(df)
    else
      var next :- AddUsdColumn(df, cols[0], fx);
      WithUsdColumns(next, cols[1..], fx)
  }

  /** `add_usd_columns`: one USD column per amount column, added in a loop. */
  method AddUsdColumns(df: Frame, amountColumns: seq<string>, fx: FxTable)
    returns (r: Result<Frame, TransformError>)
    ensures r == WithUsdColumns(df, amountColumns, fx)
  {
    var current := df;
    var k := 0;
    while k < |amountColumns|
      invariant 0 <= k <= |amountColumns|
      invariant WithUsdColumns(current, amountColumns[k..], fx) == WithUsdColumns(df, amountColumns, fx)
    {
      assert amountColumns[k..][1..] == amountColumns[k + 1..];
      var step := AddUsdColumn(current, amountColumns[k], fx);
      if step.Failure? {
        return Failure(step.error);
      }
      current := step.value;
      k := k + 1;
    }
    return Success(current);
  }

  lemma SuffixCancel(a: string, b: string, suffix: string)
    requires a + suffix == b + suffix
    ensures a == b
  {
    assert a == (a + suffix)[..|a|];
    assert b == (b + suffix)[..|b|];
  }

  /** The amount columns after the first are the tail of the list. */
  lemma UsdNamesTail(cols: seq<string>)
    requires cols != []
    ensures forall j :: 1 <= j < |cols| ==> cols[j] == cols[1..][j - 1]
    ensures forall d :: IsUsdName(d, cols[1..]) ==> IsUsdName(d, cols)
    ensures UsdNamesFresh(cols) ==> UsdNamesFresh(cols[1..])
  {
    var rest := cols[1..];
    forall d | IsUsdName(d, rest) ensures IsUsdName(d, cols) {
      var j :| 0 <= j < |rest| && d == UsdColumnName(rest[j]);
      assert d == UsdColumnName(cols[j + 1]);
    }
  }

  /** What `add_usd_columns` does to the shape of a frame: the rows and their labels stay,
      the existing columns keep their order and come first, and the only new columns are
      the USD columns, one for each amount column. */
  lemma {:induction false} UsdColumnsShape(df: Frame, cols: seq<string>, fx: FxTable)
    requires WithUsdColumns(df, cols, fx).Success?
    ensures var out := WithUsdColumns(df, cols, fx).value;
      && |out.rows| == |df.rows|
      && (forall i :: 0 <= i < |df.rows| ==> out.rows[i].ix == df.rows[i].ix)
      && df.columns <= out.columns
      && (forall c :: c in out.columns ==> c in df.columns || IsUsdName(c, cols))
      && (forall j :: 0 <= j < |cols| ==> UsdColumnName(cols[j]) in out.columns)
    decreases |cols|
  {
    if cols != [] {
      var next := AddUsdColumn(df, cols[0], fx).value;
      UsdColumnsShape(next, cols[1..], fx);
      UsdNamesTail(cols);
      var out := WithUsdColumns(next, cols[1..], fx).value;
      assert IsUsdName(UsdColumnName(cols[0]), cols);
      assert UsdColumnName(cols[0]) in next.columns && next.columns <= out.columns;
    }
  }

  /** `add_usd_columns` leaves every cell outside the USD columns as it was. */
  lemma {:induction false} UsdColumnsKeep(df: Frame, cols: seq<string>, fx: FxTable, i: int, d: string)
    requires WithUsdColumns(df, cols, fx).Success?
    requires 0 <= i < |df.rows| && !IsUsdName(d, cols)
    ensures var out := WithUsdColumns(df, cols, fx).value;
      && |out.rows| == |df.rows| && out.rows[i].ix == df.rows[i].ix
      && Cell(out.rows[i].cells, d) == Cell(df.rows[i].cells, d)
    decreases |cols|
  {
    if cols != [] {
      UsdNamesTail(cols);
      assert d != UsdColumnName(cols[0]);
      var next := AddUsdColumn(df, cols[0], fx).value;
      UsdColumnsKeep(next, cols[1..], fx, i, d);
    }
  }

  /** `add_usd_columns` sets cell `c_USD` of every row to the amount `c` times the rate of
      the row's `Currency`, missing when the currency has no rate. */
  lemma {:induction false} UsdColumnsCell(df: Frame, cols: seq<string>, fx: FxTable, i: int, j: int)
    requires UsdNamesFresh(cols)
    requires WithUsdColumns(df, cols, fx).Success?
    requires 0 <= i < |df.rows| && 0 <= j < |cols|
    ensures var out := WithUsdColumns(df, cols, fx).value;
      && |out.rows| == |df.rows|
      && Cell(out.rows[i].cells, UsdColumnName(cols[j]))
           == UsdAmount(Cell(df.rows[i].cells, cols[j]), Rate(fx, Cell(df.rows[i].cells, "Currency")))
    decreases |cols|
  {
    var c, rest := cols[0], cols[1..];
    var next := AddUsdColumn(df, c, fx).value;
    UsdNamesTail(cols);
    assert cols[j] != UsdColumnName(c) && "Currency" != UsdColumnName(c);
    assert Cell(next.rows[i].cells, cols[j]) == Cell(df.rows[i].cells, cols[j]);
    assert Cell(next.rows[i].cells, "Currency") == Cell(df.rows[i].cells, "Currency");
    if j > 0 {
      UsdColumnsCell(next, rest, fx, i, j - 1);
    } else if IsUsdName(UsdColumnName(c), rest) {
      var k :| 0 <= k < |rest| && UsdColumnName(c) == UsdColumnName(rest[k]);
      SuffixCancel(rest[k], c, "_USD");
      UsdColumnsCell(next, rest, fx, i, k);
    } else {
      UsdColumnsKeep(next, rest, fx, i, UsdColumnName(c));
    }
  }

  /** `add_usd_columns` raises exactly when an amount column or `Currency` is absent, or
      an amount cell is text in a row whose currency has a rate. */
  lemma {:induction false} UsdColumnsSucceed(df: Frame, cols: seq<string>, fx: FxTable)
    requires UsdNamesFresh(cols)
    ensures WithUsdColumns(df, cols, fx).Success? <==>
      && (cols != [] ==> "Currency" in df.columns)
      && (forall k :: 0 <= k < |cols| ==> cols[k] in df.columns && !HasRatedTextIn(df, cols[k], fx))
    decreases |cols|
  {
    if cols != [] {
      var c := cols[0];
      var rest := cols[1..];
      UsdNamesTail(cols);
      var step := AddUsdColumn(df, c, fx);
      if step.Success? {
        var next := step.value;
        UsdColumnsSucceed(next, rest, fx);
        assert "Currency" in next.columns;
        forall k | 0 <= k < |rest|
          ensures (rest[k] in next.columns) == (rest[k] in df.columns)
          ensures HasRatedTextIn(next, rest[k], fx) == HasRatedTextIn(df, rest[k], fx)
        {
          assert rest[k] == cols[k + 1] && cols[k + 1] != UsdColumnName(c);
          assert forall i :: 0 <= i < |df.rows| ==>
            && Cell(next.rows[i].cells, rest[k]) == Cell(df.rows[i].cells, rest[k])
            && Cell(next.rows[i].cells, "Currency") == Cell(df.rows[i].cells, "Currency");
        }
      }
    }
  }

  // ---------------------------------------------------------------------------
  // Data quality checks

  predicate IsNegative(v: Value) {
    Holds(IsNegativeNumber, v)
  }

  const ValidStatuses: seq<string> := ["Present", "Absent", "Leave"]

  /** Not one of `valid_status`; a missing status is invalid too. */
  predicate IsInvalidStatus(v: Value) {
    Holds(NotAmong(ValidStatuses), v)
  }

  predicate SomeNegative(df: Frame, col: string) {
    exists i :: 0 <= i < |df.rows| && IsNegative(Cell(df.rows[i].cells, col))
  }

  predicate SomeNullCell(df: Frame) {
    exists i, k :: 0 <= i < |df.rows| && 0 <= k < |df.columns| && Cell(df.rows[i].cells, df.columns[k]) == Null
  }

  function NullWarning(df: Frame): seq<Warning> {
    if HasNull(df) then [NullValues] else []
  }

  /** A column can be compared with 0: it exists and holds no text. Comparing text with a
      number raises a TypeError; a missing cell compares as false. */
  predicate Comparable(df: Frame, col: string) {
    col in df.columns && !HasTextIn(df, col)
  }

  /** `(df[col] < 0).any()`: a KeyError on an absent column, a TypeError on a text cell. */
  function AnyNegative(df: Frame, col: string): (r: Result<bool, TransformError>)
    ensures r.Success? <==> Comparable(df, col)
    ensures r.Success? ==> (r.value <==> SomeNegative(df, col))
  {
    if col !in df.columns then Failure(MissingColumn(col))
    else if exists i | 0 <= i < |df.rows| :: Cell(df.rows[i].cells, col).Text? then
      Failure(NonNumericAmount(col))
    else Success(AnyCell(df.rows, col, IsNegativeNumber))
  }

  /** `check_sales_quality`. The `or` on the amounts short-circuits, so `TotalSales` is only
      looked up when no `UnitPrice` is negative. */
  function CheckSalesQuality(df: Frame): (r: Result<Checked, TransformError>)
    ensures r.Success? <==>
      Comparable(df, "Quantity") && Comparable(df, "UnitPrice")
      && (SomeNegative(df, "UnitPrice") || Comparable(df, "TotalSales"))
    ensures r.Success? ==> r.value.frame == df
    ensures r.Success? ==> (NullValues in r.value.warnings <==> SomeNullCell(df))
    ensures r.Success? ==> (NegativeQuantities in r.value.warnings <==> SomeNegative(df, "Quantity"))
    ensures r.Success? ==> (NegativeSalesAmounts in r.value.warnings <==>
      SomeNegative(df, "UnitPrice") || SomeNegative(df, "TotalSales"))
    ensures r.Success? ==> NegativeFinancialAmounts !in r.value.warnings && InvalidStatuses !in r.value.warnings
  {
    var quantity :- AnyNegative(df, "Quantity");
    var quantities := if quantity then [NegativeQuantities] else [];
    var unitPrice :- AnyNegative(df, "UnitPrice");
    if unitPrice then Success(Checked(df, NullWarning(df) + quantities + [NegativeSalesAmounts]))
    else
      var total :- AnyNegative(df, "TotalSales");
      Success(Checked(df, NullWarning(df) + quantities + if total then [NegativeSalesAmounts] else []))
  }

  /** `check_financial_quality`, with the same short-circuit over Revenue, Expense, Profit. */
  function CheckFinancialQuality(df: Frame): (r: Result<Checked, TransformError>)
    ensures r.Success? <==>
      Comparable(df, "Revenue")
      && (SomeNegative(df, "Revenue") || Comparable(df, "Expense"))
      && (SomeNegative(df, "Revenue") || SomeNegative(df, "Expense") || Comparable(df, "Profit"))
    ensures r.Success? ==> r.value.frame == df
    ensures r.Success? ==> (NullValues in r.value.warnings <==> SomeNullCell(df))
    ensures r.Success? ==> (NegativeFinancialAmounts in r.value.warnings <==>
      SomeNegative(df, "Revenue") || SomeNegative(df, "Expense") || SomeNegative(df, "Profit"))
    ensures r.Success? ==> forall w :: w in r.value.warnings ==> w == NullValues || w == NegativeFinancialAmounts
  {
    var nulls := NullWarning(df);
    var revenue :- AnyNegative(df, "Revenue");
    if revenue then Success(Checked(df, nulls + [NegativeFinancialAmounts]))
    else
      var expense :- AnyNegative(df, "Expense");
      if expense then Success(Checked(df, nulls + [NegativeFinancialAmounts]))
      else
        var profit :- AnyNegative(df, "Profit");
        Success(Checked(df, nulls + if profit then [NegativeFinancialAmounts] else []))
  }

  /** `check_attendance_quality`. */
  function CheckAttendanceQuality(df: Frame): (r: Result<Checked, TransformError>)
    ensures r.Success? <==> "Status" in df.columns
    ensures r.Success? ==> r.value.frame == df
    ensures r.Success? ==> (NullValues in r.value.warnings <==> SomeNullCell(df))
    ensures r.Success? ==> (InvalidStatuses in r.value.warnings <==>
      exists i :: 0 <= i < |df.rows| && IsInvalidStatus(Cell(df.rows[i].cells, "Status")))
    ensures r.Success? ==> forall w :: w in r.value.warnings ==> w == NullValues || w == InvalidStatuses
  {
    if "Status" !in df.columns then Failure(MissingColumn("Status"))
    else
      var statuses := if AnyCell(df.rows, "Status", NotAmong(ValidStatuses)) then [InvalidStatuses] else [];
      Success(Checked(df, NullWarning(df) + statuses))
  }

  // ---------------------------------------------------------------------------
  // Identity assignment

  /** `df.index.astype(str)`: each row's index label rendered as a string. */
  function LabelIds(df: Frame): (ids: seq<Value>)
    ensures |ids| == |df.rows|
  {
    seq(|df.rows|, i requires 0 <= i < |df.rows| => Text(IntToString(df.rows[i].ix)))
  }

  /** Keep an existing id column; otherwise derive it from the index labels. */
  function EnsureId(df: Frame, idColumn: string): (r: Frame)
    ensures r.columns == if idColumn in df.columns then df.columns else df.columns + [idColumn]
    ensures |r.rows| == |df.rows|
    ensures forall i :: 0 <= i < |r.rows| ==> r.rows[i].ix == df.rows[i].ix
    ensures forall i, d :: 0 <= i < |r.rows| ==>
      Cell(r.rows[i].cells, d) == if d == idColumn && idColumn !in df.columns
                                  then Text(IntToString(df.rows[i].ix)) else Cell(df.rows[i].cells, d)
  {
    if idColumn in df.columns then df else SetColumn(df, idColumn, LabelIds(df))
  }

  /** The string `generate_attendance_key` feeds to MD5. */
  function AttendanceKeyString(staff: string, date: string, session: string): string {
    staff + "_" + date + "_" + session
  }

  /** `generate_attendance_key` for one row. */
  function GenerateAttendanceKey(cfg: Config, row: Row): string {
    cfg.md5(AttendanceKeyString(cfg.show(Cell(row, "StaffID")), cfg.show(Cell(row, "Date")),
                                cfg.show(Cell(row, "SessionID"))))
  }

  /** `df.apply(generate_attendance_key, axis=1)` assigned to one column. With a row to
      apply the key to, an absent `StaffID` or `SessionID` is a KeyError. A frame without
      rows gets the key applied once to an all-missing row over its columns: when that
      succeeds the result is an empty column; when it raises (a lookup of an absent
      column), `apply` returns a copy of the frame, and assigning that to one column
      raises a ValueError unless the frame has exactly one column. */
  function AttendanceKeys(df: Frame, cfg: Config): (r: Result<seq<Value>, TransformError>)
    ensures r.Success? <==>
      ("StaffID" in df.columns && "SessionID" in df.columns) || (|df.rows| == 0 && |df.columns| == 1)
    ensures r.Success? ==> |r.value| == |df.rows|
    ensures r.Success? ==> forall i :: 0 <= i < |df.rows| ==> r.value[i] == Text(GenerateAttendanceKey(cfg, df.rows[i].cells))
  {
    if "StaffID" in df.columns && "SessionID" in df.columns then
      Success(seq(|df.rows|, i requires 0 <= i < |df.rows| => Text(GenerateAttendanceKey(cfg, df.rows[i].cells))))
    else if |df.rows| > 0 then
      Failure(MissingColumn(if "StaffID" !in df.columns then "StaffID" else "SessionID"))
    else if |df.columns| != 1 then Failure(FrameAssigned("attendance_id"))
    else Success([])
  }

  // ---------------------------------------------------------------------------
  // Domain transforms

  const SalesAmountColumns: seq<string> := ["UnitPrice", "TotalSales"]
  const SalesColumns: seq<string> :=
    ["sales_id", "Date", "Quantity", "UnitPrice", "TotalSales", "UnitPrice_USD", "TotalSales_USD"]

  const FinancialAmountColumns: seq<string> := ["Revenue", "Expense", "Profit"]
  const FinancialColumns: seq<string> :=
    ["transaction_id", "Date", "Revenue", "Expense", "Profit", "Revenue_USD", "Expense_USD", "Profit_USD"]

  const AttendanceColumns: seq<string> := ["attendance_id", "StaffID", "Date", "SessionID", "Status"]

  /** `transform_sales` up to its quality check: date and quantity coercion, the USD
      columns, and `sales_id` when the batch has none. */
  function PrepareSales(df: Frame, cfg: Config): Result<Frame, TransformError> {
    var dated :- ConvertColumn(df, "Date", cfg.toDatetime);
    var typed :- ConvertColumn(dated, "Quantity", cfg.toInt);
    var converted :- WithUsdColumns(typed, SalesAmountColumns, cfg.fx);
    Success(EnsureId(converted, "sales_id"))
  }

  /** `transform_sales`. */
  function TransformSales(df: Frame, cfg: Config): Result<Transformed, TransformError> {
    var prepared :- PrepareSales(df, cfg);
    var checked :- CheckSalesQuality(prepared);
    var out :- Select(checked.frame, SalesColumns);
    Success(Transformed(out, checked.warnings))
  }

  /** `transform_financial` up to its quality check. */
  function PrepareFinancial(df: Frame, cfg: Config): Result<Frame, TransformError> {
    var dated :- ConvertColumn(df, "Date", cfg.toDatetime);
    var converted :- WithUsdColumns(dated, FinancialAmountColumns, cfg.fx);
    Success(EnsureId(converted, "transaction_id"))
  }

  /** `transform_financial`. */
  function TransformFinancial(df: Frame, cfg: Config): Result<Transformed, TransformError> {
    var prepared :- PrepareFinancial(df, cfg);
    var checked :- CheckFinancialQuality(prepared);
    var out :- Select(checked.frame, FinancialColumns);
    Success(Transformed(out, checked.warnings))
  }

  /** `transform_attendance` up to its quality check. */
  function PrepareAttendance(df: Frame, cfg: Config): Result<Frame, TransformError> {
    var dated :- ConvertColumn(df, "Date", cfg.toDatetime);
    var keys :- AttendanceKeys(dated, cfg);
    Success(SetColumn(dated, "attendance_id", keys))
  }

  /** `transform_attendance`. */
  function TransformAttendance(df: Frame, cfg: Config): Result<Transformed, TransformError> {
    var prepared :- PrepareAttendance(df, cfg);
    var checked :- CheckAttendanceQuality(prepared);
    var out :- Select(checked.frame, AttendanceColumns);
    Success(Transformed(out, checked.warnings))
  }
}
