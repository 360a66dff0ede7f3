/** What `transform_financial` promises: when it raises, the shape of what it returns,
    every output cell in terms of the input row, the ids it assigns and the warnings it
    reports. */
module FinancialProperties {
  import opened Wrappers
  import opened Frames
  import opened Transform
  import opened TransformProperties

  /** What `transform_financial` needs of its input to return normally. */
  predicate FinancialInputOk(df: Frame, cfg: Config) {
    && Converts(df, "Date", cfg.toDatetime)
    && "Currency" in df.columns
    && AmountsUsable(df, FinancialAmountColumns, cfg.fx)
  }

  /** What the check of `transform_financial` needs of its input: each amount it compares
      with 0 holds no text, where the `or` reaches it. */
  predicate FinancialCheckOk(df: Frame) {
    && !HasTextIn(df, "Revenue")
    && (SomeNegative(df, "Revenue") || !HasTextIn(df, "Expense"))
    && (SomeNegative(df, "Revenue") || SomeNegative(df, "Expense") || !HasTextIn(df, "Profit"))
  }

  /** The USD columns of the financial amounts, which clash with no amount column and not
      with `Currency`. */
  lemma FinancialAmountNames()
    ensures UsdColumnName(FinancialAmountColumns[0]) == "Revenue_USD"
    ensures UsdColumnName(FinancialAmountColumns[1]) == "Expense_USD"
    ensures UsdColumnName(FinancialAmountColumns[2]) == "Profit_USD"
    ensures UsdNamesFresh(FinancialAmountColumns)
    ensures forall d :: IsUsdName(d, FinancialAmountColumns) <==>
      d == "Revenue_USD" || d == "Expense_USD" || d == "Profit_USD"
  {
    assert UsdColumnName(FinancialAmountColumns[0]) == "Revenue_USD";
    assert UsdColumnName(FinancialAmountColumns[1]) == "Expense_USD";
    assert UsdColumnName(FinancialAmountColumns[2]) == "Profit_USD";
  }

  /** The cells of one financial row that the projection keeps, in terms of the input row. */
  predicate FinancialRowFrom(cfg: Config, inherit: bool, input: Record, out: Row) {
    var row := input.cells;
    && Cell(out, "transaction_id") == (if inherit then Cell(row, "transaction_id") else LabelId(input))
    && Some(Cell(out, "Date")) == cfg.toDatetime(Cell(row, "Date"))
    && Cell(out, "Revenue") == Cell(row, "Revenue")
    && Cell(out, "Expense") == Cell(row, "Expense")
    && Cell(out, "Profit") == Cell(row, "Profit")
    && Cell(out, "Revenue_USD") == RowUsd(cfg, row, "Revenue")
    && Cell(out, "Expense_USD") == RowUsd(cfg, row, "Expense")
    && Cell(out, "Profit_USD") == RowUsd(cfg, row, "Profit")
  }

  /** `transform_financial` before its check raises exactly when a needed column is
      absent, a date does not convert, or an amount is text in a row with a rate. */
  lemma PrepareFinancialSucceeds(df: Frame, cfg: Config)
    ensures PrepareFinancial(df, cfg).Success? <==> FinancialInputOk(df, cfg)
  {
    FinancialAmountNames();
    var dated := ConvertColumn(df, "Date", cfg.toDatetime);
    if dated.Success? {
      var d := dated.value;
      forall k | 0 <= k < |FinancialAmountColumns|
        ensures HasRatedTextIn(d, FinancialAmountColumns[k], cfg.fx) == HasRatedTextIn(df, FinancialAmountColumns[k], cfg.fx)
      {
        var col := FinancialAmountColumns[k];
        assert forall i :: 0 <= i < |df.rows| ==>
          && Cell(d.rows[i].cells, col) == Cell(df.rows[i].cells, col)
          && Cell(d.rows[i].cells, "Currency") == Cell(df.rows[i].cells, "Currency");
      }
      assert AmountsUsable(d, FinancialAmountColumns, cfg.fx) == AmountsUsable(df, FinancialAmountColumns, cfg.fx);
      UsdColumnsSucceed(d, FinancialAmountColumns, cfg.fx);
    }
  }

  /** The intermediate frames of `transform_financial` before its check: dated, with USD
      columns, with an id. */
  lemma FinancialSteps(df: Frame, cfg: Config)
    requires PrepareFinancial(df, cfg).Success?
    ensures ConvertColumn(df, "Date", cfg.toDatetime).Success?
    ensures var d := ConvertColumn(df, "Date", cfg.toDatetime).value;
      && WithUsdColumns(d, FinancialAmountColumns, cfg.fx).Success?
      && PrepareFinancial(df, cfg).value
           == EnsureId(WithUsdColumns(d, FinancialAmountColumns, cfg.fx).value, "transaction_id")
  {
  }

  /** The cells of one financial row that the steps before the check copy or coerce. */
  lemma PrepareFinancialRowKept(df: Frame, cfg: Config, i: int)
    requires PrepareFinancial(df, cfg).Success?
    requires 0 <= i < |df.rows|
    ensures var p := PrepareFinancial(df, cfg).value; var row := df.rows[i].cells;
      && |p.rows| == |df.rows|
      && Cell(p.rows[i].cells, "transaction_id")
           == (if "transaction_id" in df.columns then Cell(row, "transaction_id") else LabelId(df.rows[i]))
      && Some(Cell(p.rows[i].cells, "Date")) == cfg.toDatetime(Cell(row, "Date"))
      && Cell(p.rows[i].cells, "Revenue") == Cell(row, "Revenue")
      && Cell(p.rows[i].cells, "Expense") == Cell(row, "Expense")
      && Cell(p.rows[i].cells, "Profit") == Cell(row, "Profit")
  {
    FinancialSteps(df, cfg);
    FinancialAmountNames();
    var cols, fx := FinancialAmountColumns, cfg.fx;
    var d := ConvertColumn(df, "Date", cfg.toDatetime).value;
    var c := WithUsdColumns(d, cols, fx).value;
    UsdColumnsShape(d, cols, fx);
    UsdColumnsKeep(d, cols, fx, i, "Revenue");
    UsdColumnsKeep(d, cols, fx, i, "Expense");
    UsdColumnsKeep(d, cols, fx, i, "Profit");
    UsdColumnsKeep(d, cols, fx, i, "Date");
    UsdColumnsKeep(d, cols, fx, i, "transaction_id");
    assert ("transaction_id" in c.columns) == ("transaction_id" in df.columns);
  }

  /** The three USD cells of one financial row before the check. */
  lemma PrepareFinancialRowUsd(df: Frame, cfg: Config, i: int)
    requires PrepareFinancial(df, cfg).Success?
    requires 0 <= i < |df.rows|
    ensures var p := PrepareFinancial(df, cfg).value; var row := df.rows[i].cells;
      && |p.rows| == |df.rows|
      && Cell(p.rows[i].cells, "Revenue_USD") == RowUsd(cfg, row, "Revenue")
      && Cell(p.rows[i].cells, "Expense_USD") == RowUsd(cfg, row, "Expense")
      && Cell(p.rows[i].cells, "Profit_USD") == RowUsd(cfg, row, "Profit")
  {
    FinancialSteps(df, cfg);
    FinancialAmountNames();
    var cols, fx := FinancialAmountColumns, cfg.fx;
    var d := ConvertColumn(df, "Date", cfg.toDatetime).value;
    UsdColumnsCell(d, cols, fx, i, 0);
    UsdColumnsCell(d, cols, fx, i, 1);
    UsdColumnsCell(d, cols, fx, i, 2);
    assert Cell(d.rows[i].cells, "Revenue") == Cell(df.rows[i].cells, "Revenue");
    assert Cell(d.rows[i].cells, "Expense") == Cell(df.rows[i].cells, "Expense");
    assert Cell(d.rows[i].cells, "Profit") == Cell(df.rows[i].cells, "Profit");
    assert Cell(d.rows[i].cells, "Currency") == Cell(df.rows[i].cells, "Currency");
  }

  /** One row of `transform_financial` before its check. */
  lemma PrepareFinancialRow(df: Frame, cfg: Config, i: int)
    requires PrepareFinancial(df, cfg).Success?
    requires 0 <= i < |df.rows|
    ensures var p := PrepareFinancial(df, cfg).value;
      && |p.rows| == |df.rows|
      && FinancialRowFrom(cfg, "transaction_id" in df.columns, df.rows[i], p.rows[i].cells)
  {
    PrepareFinancialRowKept(df, cfg, i);
    PrepareFinancialRowUsd(df, cfg, i);
  }

  /** `transform_financial` before its check keeps every row and its index label. */
  lemma PrepareFinancialLength(df: Frame, cfg: Config)
    requires PrepareFinancial(df, cfg).Success?
    ensures |PrepareFinancial(df, cfg).value.rows| == |df.rows|
    ensures forall i :: 0 <= i < |df.rows| ==> PrepareFinancial(df, cfg).value.rows[i].ix == df.rows[i].ix
  {
    var d := ConvertColumn(df, "Date", cfg.toDatetime).value;
    UsdColumnsShape(d, FinancialAmountColumns, cfg.fx);
  }

  /** Every column the financial projection names exists before the projection. */
  lemma PrepareFinancialColumns(df: Frame, cfg: Config)
    requires PrepareFinancial(df, cfg).Success?
    ensures forall k :: 0 <= k < |FinancialColumns| ==> FinancialColumns[k] in PrepareFinancial(df, cfg).value.columns
  {
    FinancialAmountNames();
    PrepareFinancialSucceeds(df, cfg);
    assert forall k :: 0 <= k < |FinancialAmountColumns| ==> FinancialAmountColumns[k] in df.columns;
    var d := ConvertColumn(df, "Date", cfg.toDatetime).value;
    UsdColumnsShape(d, FinancialAmountColumns, cfg.fx);
    var c := WithUsdColumns(d, FinancialAmountColumns, cfg.fx).value;
    assert UsdColumnName(FinancialAmountColumns[0]) in c.columns;
    assert UsdColumnName(FinancialAmountColumns[1]) in c.columns;
    assert UsdColumnName(FinancialAmountColumns[2]) in c.columns;
    assert "Date" in c.columns && "Revenue" in c.columns && "Expense" in c.columns && "Profit" in c.columns;
  }

  /** `transform_financial` is its preparation, then its check, then its projection. */
  lemma FinancialStages(df: Frame, cfg: Config)
    requires TransformFinancial(df, cfg).Success?
    ensures PrepareFinancial(df, cfg).Success?
    ensures var p := PrepareFinancial(df, cfg).value;
      && CheckFinancialQuality(p).Success?
      && CheckFinancialQuality(p).value.frame == p
      && Select(p, FinancialColumns).Success?
      && TransformFinancial(df, cfg).value
           == Transformed(Select(p, FinancialColumns).value, CheckFinancialQuality(p).value.warnings)
  {
  }

  /** The amounts the check compares are those of the input. */
  lemma PrepareFinancialCheckInputs(df: Frame, cfg: Config)
    requires PrepareFinancial(df, cfg).Success?
    ensures var p := PrepareFinancial(df, cfg).value;
      && (HasTextIn(p, "Revenue") <==> HasTextIn(df, "Revenue"))
      && (HasTextIn(p, "Expense") <==> HasTextIn(df, "Expense"))
      && (HasTextIn(p, "Profit") <==> HasTextIn(df, "Profit"))
      && (SomeNegative(p, "Revenue") <==> SomeNegative(df, "Revenue"))
      && (SomeNegative(p, "Expense") <==> SomeNegative(df, "Expense"))
      && (SomeNegative(p, "Profit") <==> SomeNegative(df, "Profit"))
  {
    var p := PrepareFinancial(df, cfg).value;
    PrepareFinancialLength(df, cfg);
    forall i | 0 <= i < |df.rows|
      ensures i < |p.rows|
      ensures Cell(p.rows[i].cells, "Revenue") == Cell(df.rows[i].cells, "Revenue")
      ensures Cell(p.rows[i].cells, "Expense") == Cell(df.rows[i].cells, "Expense")
      ensures Cell(p.rows[i].cells, "Profit") == Cell(df.rows[i].cells, "Profit")
    {
      PrepareFinancialRowKept(df, cfg, i);
    }
  }

  /** `transform_financial` raises exactly when a needed column is absent, a date does not
      convert, an amount is text in a row with a rate, or the check compares a text amount
      with 0; otherwise it returns every input row, projected onto exactly the eight
      financial columns in their listed order. */
  lemma TransformFinancialShape(df: Frame, cfg: Config)
    ensures TransformFinancial(df, cfg).Success? <==> FinancialInputOk(df, cfg) && FinancialCheckOk(df)
    ensures TransformFinancial(df, cfg).Success? ==> var out := TransformFinancial(df, cfg).value.frame;
      && out.columns == FinancialColumns
      && |out.rows| == |df.rows|
      && (forall i :: 0 <= i < |df.rows| ==> out.rows[i].ix == df.rows[i].ix)
      && (forall i, c :: 0 <= i < |df.rows| ==> (c in out.rows[i].cells <==> c in FinancialColumns))
  {
    PrepareFinancialSucceeds(df, cfg);
    if PrepareFinancial(df, cfg).Success? {
      PrepareFinancialColumns(df, cfg);
      PrepareFinancialCheckInputs(df, cfg);
      var p := PrepareFinancial(df, cfg).value;
      assert "Revenue" in p.columns && "Expense" in p.columns && "Profit" in p.columns by {
        assert FinancialColumns[2] == "Revenue" && FinancialColumns[3] == "Expense" && FinancialColumns[4] == "Profit";
      }
      assert CheckFinancialQuality(p).Success? <==> FinancialCheckOk(df);
      if CheckFinancialQuality(p).Success? {
        FinancialStages(df, cfg);
        PrepareFinancialLength(df, cfg);
      }
    }
  }

  /** A row agreeing with `prow` on every output column is built from the input row
      just as `prow` is. */
  lemma FinancialRowProjected(cfg: Config, inherit: bool, input: Record, prow: Row, orow: Row)
    requires FinancialRowFrom(cfg, inherit, input, prow)
    requires forall k :: 0 <= k < |FinancialColumns| ==> Cell(orow, FinancialColumns[k]) == Cell(prow, FinancialColumns[k])
    ensures FinancialRowFrom(cfg, inherit, input, orow)
  {
    assert Cell(orow, FinancialColumns[0]) == Cell(prow, FinancialColumns[0]);
    assert Cell(orow, FinancialColumns[1]) == Cell(prow, FinancialColumns[1]);
    assert Cell(orow, FinancialColumns[2]) == Cell(prow, FinancialColumns[2]);
    assert Cell(orow, FinancialColumns[3]) == Cell(prow, FinancialColumns[3]);
    assert Cell(orow, FinancialColumns[4]) == Cell(prow, FinancialColumns[4]);
    assert Cell(orow, FinancialColumns[5]) == Cell(prow, FinancialColumns[5]);
    assert Cell(orow, FinancialColumns[6]) == Cell(prow, FinancialColumns[6]);
    assert Cell(orow, FinancialColumns[7]) == Cell(prow, FinancialColumns[7]);
  }

  /** Every cell `transform_financial` outputs for one row, in terms of the input row: the
      id inherited or else the row's index label as a string, the coerced date, the
      amounts unchanged, the USD amounts at the row's rate. */
  lemma TransformFinancialRow(df: Frame, cfg: Config, i: int)
    requires TransformFinancial(df, cfg).Success?
    requires 0 <= i < |df.rows|
    ensures var out := TransformFinancial(df, cfg).value.frame;
      && |out.rows| == |df.rows| && out.rows[i].ix == df.rows[i].ix
      && FinancialRowFrom(cfg, "transaction_id" in df.columns, df.rows[i], out.rows[i].cells)
  {
    FinancialStages(df, cfg);
    var p := PrepareFinancial(df, cfg).value;
    var out := Select(p, FinancialColumns).value;
    PrepareFinancialLength(df, cfg);
    PrepareFinancialRow(df, cfg, i);
    assert forall k :: 0 <= k < |FinancialColumns| ==>
      Cell(out.rows[i].cells, FinancialColumns[k]) == Cell(p.rows[i].cells, FinancialColumns[k]);
    FinancialRowProjected(cfg, "transaction_id" in df.columns, df.rows[i], p.rows[i].cells, out.rows[i].cells);
  }

  /** `transform_financial` warns of negative amounts exactly when some input row has a
      negative revenue, expense or profit. */
  lemma TransformFinancialNegatives(df: Frame, cfg: Config)
    requires TransformFinancial(df, cfg).Success?
    ensures NegativeFinancialAmounts in TransformFinancial(df, cfg).value.warnings <==>
      exists i :: 0 <= i < |df.rows| &&
        (|| IsNegative(Cell(df.rows[i].cells, "Revenue"))
         || IsNegative(Cell(df.rows[i].cells, "Expense"))
         || IsNegative(Cell(df.rows[i].cells, "Profit")))
  {
    FinancialStages(df, cfg);
    var p := PrepareFinancial(df, cfg).value;
    PrepareFinancialLength(df, cfg);
    forall i | 0 <= i < |df.rows|
      ensures i < |p.rows|
      ensures Cell(p.rows[i].cells, "Revenue") == Cell(df.rows[i].cells, "Revenue")
      ensures Cell(p.rows[i].cells, "Expense") == Cell(df.rows[i].cells, "Expense")
      ensures Cell(p.rows[i].cells, "Profit") == Cell(df.rows[i].cells, "Profit")
    {
      PrepareFinancialRowKept(df, cfg, i);
    }
  }

  /** `transform_financial` reports only missing values and negative amounts, and a
      missing value in any column it outputs is always reported. */
  lemma TransformFinancialNulls(df: Frame, cfg: Config)
    requires TransformFinancial(df, cfg).Success?
    ensures var t := TransformFinancial(df, cfg).value;
      && (NullInOutput(t.frame, FinancialColumns) ==> NullValues in t.warnings)
      && (forall w :: w in t.warnings ==> w == NullValues || w == NegativeFinancialAmounts)
  {
    FinancialStages(df, cfg);
    var p := PrepareFinancial(df, cfg).value;
    NullsInOutputReported(p, CheckFinancialQuality(p).value, FinancialColumns);
  }

  /** Without a `transaction_id` column, rows with distinct index labels get distinct ids. */
  lemma TransactionIdsDistinct(df: Frame, cfg: Config, i: int, j: int)
    requires TransformFinancial(df, cfg).Success?
    requires "transaction_id" !in df.columns
    requires 0 <= i < |df.rows| && 0 <= j < |df.rows| && df.rows[i].ix != df.rows[j].ix
    ensures var out := TransformFinancial(df, cfg).value.frame;
      |out.rows| == |df.rows| && Cell(out.rows[i].cells, "transaction_id") != Cell(out.rows[j].cells, "transaction_id")
  {
    TransformFinancialRow(df, cfg, i);
    TransformFinancialRow(df, cfg, j);
    LabelIdInjective(df.rows[i], df.rows[j]);
  }

  /** With a `transaction_id` column, each row keeps its own id. */
  lemma TransactionIdsInherited(df: Frame, cfg: Config, i: int)
    requires TransformFinancial(df, cfg).Success?
    requires "transaction_id" in df.columns
    requires 0 <= i < |df.rows|
    ensures var out := TransformFinancial(df, cfg).value.frame;
      |out.rows| == |df.rows| && Cell(out.rows[i].cells, "transaction_id") == Cell(df.rows[i].cells, "transaction_id")
  {
    TransformFinancialRow(df, cfg, i);
  }
}
