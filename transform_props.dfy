/** Notions shared by the properties of the three domain transforms: what a column
    conversion needs, missing values in the output, the USD cell and the label id of a
    row, and the fact that a missing output value is always reported. */
module TransformProperties {
  import opened Wrappers
  import opened Frames
  import opened Transform

  /** The column exists and every one of its cells converts. */
  predicate Converts(df: Frame, col: string, f: Value -> Option<Value>) {
    col in df.columns && forall i :: 0 <= i < |df.rows| ==> f(Cell(df.rows[i].cells, col)).Some?
  }

  /** Every amount column exists and holds no text in a row whose currency has a rate. */
  predicate AmountsUsable(df: Frame, cols: seq<string>, fx: FxTable) {
    forall k :: 0 <= k < |cols| ==> cols[k] in df.columns && !HasRatedTextIn(df, cols[k], fx)
  }

  /** Some cell of an output column is missing. */
  predicate NullInOutput(out: Frame, cols: seq<string>) {
    exists i, k :: 0 <= i < |out.rows| && 0 <= k < |cols| && Cell(out.rows[i].cells, cols[k]) == Null
  }

  /** The USD cell of one row: its amount times the rate of its currency. */
  function RowUsd(cfg: Config, row: Row, amountColumn: string): Value {
    UsdAmount(Cell(row, amountColumn), Rate(cfg.fx, Cell(row, "Currency")))
  }

  /** The id of one input row when the batch has no id column of its own. */
  function LabelId(r: Record): Value {
    Text(IntToString(r.ix))
  }

  /** Rows with distinct index labels get distinct label ids. */
  lemma LabelIdInjective(a: Record, b: Record)
    requires a.ix != b.ix
    ensures LabelId(a) != LabelId(b)
  {
    if IntToString(a.ix) == IntToString(b.ix) {
      IntToStringInjective(a.ix, b.ix);
    }
  }

  /** A check's frame is the projection's source, and nulls in it are reported, so a
      missing value in any output column is always reported. */
  lemma NullsInOutputReported(prepared: Frame, checked: Checked, cols: seq<string>)
    requires checked.frame == prepared
    requires NullValues in checked.warnings <==> SomeNullCell(prepared)
    requires Select(prepared, cols).Success?
    ensures NullInOutput(Select(prepared, cols).value, cols) ==> NullValues in checked.warnings
  {
    var out := Select(prepared, cols).value;
    if NullInOutput(out, cols) {
      var i, k :| 0 <= i < |out.rows| && 0 <= k < |cols| && Cell(out.rows[i].cells, cols[k]) == Null;
      assert cols[k] in prepared.columns;
      var m :| 0 <= m < |prepared.columns| && prepared.columns[m] == cols[k];
      assert Cell(prepared.rows[i].cells, prepared.columns[m]) == Null;
    }
  }

  /** The value coerces, by `f`, to text. */
  predicate TextAfter(f: Value -> Option<Value>, v: Value) {
    f(v).Some? && f(v).value.Text?
  }

  /** The value coerces, by `f`, to a negative number. */
  predicate NegativeAfter(f: Value -> Option<Value>, v: Value) {
    f(v).Some? && IsNegative(f(v).value)
  }
}
