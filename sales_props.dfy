/** What `transform_sales` promises: when it raises, the shape of what it returns, every
    output cell in terms of the input row, the ids it assigns and the warnings it reports. */
module SalesProperties {
  import opened Wrappers
  import opened Frames
  import opened Transform
  import opened TransformProperties

  /** What `transform_sales` needs of its input to return normally. */
  predicate SalesInputOk(df: Frame, cfg: Config) {
    && Converts(df, "Date", cfg.toDatetime)
    && Converts(df, "Quantity", cfg.toInt)
    && "Currency" in df.columns
    && AmountsUsable(df, SalesAmountColumns, cfg.fx)
  }

  /** What the check of `transform_sales` needs of its input: no quantity coerces to text,
      and each amount it compares with 0 holds no text, where the `or` reaches it. */
  predicate SalesCheckOk(df: Frame, cfg: Config) {
    && (forall i :: 0 <= i < |df.rows| ==> !TextAfter(cfg.toInt, Cell(df.rows[i].cells, "Quantity")))
    && !HasTextIn(df, "UnitPrice")
    && (SomeNegative(df, "UnitPrice") || !HasTextIn(df, "TotalSales"))
  }

  /** The USD columns of the sales amounts, which clash with no amount column and not with
      `Currency`. */
  lemma SalesAmountNames()
    ensures UsdColumnName(SalesAmountColumns[0]) == "UnitPrice_USD"
    ensures UsdColumnName(SalesAmountColumns[1]) == "TotalSales_USD"
    ensures UsdNamesFresh(SalesAmountColumns)
    ensures forall d :: IsUsdName(d, SalesAmountColumns) <==> d == "UnitPrice_USD" || d == "TotalSales_USD"
  {
    assert UsdColumnName(SalesAmountColumns[0]) == "UnitPrice_USD";
    assert UsdColumnName(SalesAmountColumns[1]) == "TotalSales_USD";
  }

  /** The cells of one sales row that the projection keeps, in terms of the input row. */
  predicate SalesRowFrom(cfg: Config, inherit: bool, input: Record, out: Row) {
    var row := input.cells;
    && Cell(out, "sales_id") == (if inherit then Cell(row, "sales_id") else LabelId(input))
    && Some(Cell(out, "Date")) == cfg.toDatetime(Cell(row, "Date"))
    && Some(Cell(out, "Quantity")) == cfg.toInt(Cell(row, "Quantity"))
    && Cell(out, "UnitPrice") == Cell(row, "UnitPrice")
    && Cell(out, "TotalSales") == Cell(row, "TotalSales")
    && Cell(out, "UnitPrice_USD") == RowUsd(cfg, row, "UnitPrice")
    && Cell(out, "TotalSales_USD") == RowUsd(cfg, row, "TotalSales")
  }

  /** `transform_sales` before its check raises exactly when a needed column is absent,
      a date or quantity does not convert, or an amount is text in a row with a rate. */
  lemma PrepareSalesSucceeds(df: Frame, cfg: Config)
    ensures PrepareSales(df, cfg).Success? <==> SalesInputOk(df, cfg)
  {
    SalesAmountNames();
    var dated := ConvertColumn(df, "Date", cfg.toDatetime);
    if dated.Success? {
      var d := dated.value;
      assert Converts(d, "Quantity", cfg.toInt) == Converts(df, "Quantity", cfg.toInt);
      var typed := ConvertColumn(d, "Quantity", cfg.toInt);
      if typed.Success? {
        var t := typed.value;
        assert forall i :: 0 <= i < |df.rows| ==>
          Cell(t.rows[i].cells, "Currency") == Cell(df.rows[i].cells, "Currency");
        assert HasRatedTextIn(t, "UnitPrice", cfg.fx) == HasRatedTextIn(df, "UnitPrice", cfg.fx) by {
          assert forall i :: 0 <= i < |df.rows| ==> Cell(t.rows[i].cells, "UnitPrice") == Cell(df.rows[i].cells, "UnitPrice");
        }
        assert HasRatedTextIn(t, "TotalSales", cfg.fx) == HasRatedTextIn(df, "TotalSales", cfg.fx) by {
          assert forall i :: 0 <= i < |df.rows| ==> Cell(t.rows[i].cells, "TotalSales") == Cell(df.rows[i].cells, "TotalSales");
        }
        assert AmountsUsable(t, SalesAmountColumns, cfg.fx) == AmountsUsable(df, SalesAmountColumns, cfg.fx);
        UsdColumnsSucceed(t, SalesAmountColumns, cfg.fx);
      }
    }
  }

  /** The intermediate frames of `transform_sales` before its check: dated, typed, with
      USD columns, with an id. */
  lemma SalesSteps(df: Frame, cfg: Config)
    requires PrepareSales(df, cfg).Success?
    ensures ConvertColumn(df, "Date", cfg.toDatetime).Success?
    ensures var d := ConvertColumn(df, "Date", cfg.toDatetime).value;
      && ConvertColumn(d, "Quantity", cfg.toInt).Success?
      && var t := ConvertColumn(d, "Quantity", cfg.toInt).value;
      && WithUsdColumns(t, SalesAmountColumns, cfg.fx).Success?
      && PrepareSales(df, cfg).value == EnsureId(WithUsdColumns(t, SalesAmountColumns, cfg.fx).value, "sales_id")
  {
  }

  /** The cells of one sales row that the steps before the check copy or coerce. */
  lemma PrepareSalesRowKept(df: Frame, cfg: Config, i: int)
    requires PrepareSales(df, cfg).Success?
    requires 0 <= i < |df.rows|
    ensures var p := PrepareSales(df, cfg).value; var row := df.rows[i].cells;
      && |p.rows| == |df.rows|
      && Cell(p.rows[i].cells, "sales_id") == (if "sales_id" in df.columns then Cell(row, "sales_id") else LabelId(df.rows[i]))
      && Some(Cell(p.rows[i].cells, "Date")) == cfg.toDatetime(Cell(row, "Date"))
      && Some(Cell(p.rows[i].cells, "Quantity")) == cfg.toInt(Cell(row, "Quantity"))
      && Cell(p.rows[i].cells, "UnitPrice") == Cell(row, "UnitPrice")
      && Cell(p.rows[i].cells, "TotalSales") == Cell(row, "TotalSales")
  {
    SalesSteps(df, cfg);
    SalesAmountNames();
    var cols, fx := SalesAmountColumns, cfg.fx;
    var d := ConvertColumn(df, "Date", cfg.toDatetime).value;
    var t := ConvertColumn(d, "Quantity", cfg.toInt).value;
    var c := WithUsdColumns(t, cols, fx).value;
    UsdColumnsShape(t, cols, fx);
    UsdColumnsKeep(t, cols, fx, i, "UnitPrice");
    UsdColumnsKeep(t, cols, fx, i, "TotalSales");
    UsdColumnsKeep(t, cols, fx, i, "Date");
    UsdColumnsKeep(t, cols, fx, i, "Quantity");
    UsdColumnsKeep(t, cols, fx, i, "sales_id");
    assert ("sales_id" in c.columns) == ("sales_id" in df.columns);
  }

  /** The two USD cells of one sales row before the check. */
  lemma PrepareSalesRowUsd(df: Frame, cfg: Config, i: int)
    requires PrepareSales(df, cfg).Success?
    requires 0 <= i < |df.rows|
    ensures var p := PrepareSales(df, cfg).value; var row := df.rows[i].cells;
      && |p.rows| == |df.rows|
      && Cell(p.rows[i].cells, "UnitPrice_USD") == RowUsd(cfg, row, "UnitPrice")
      && Cell(p.rows[i].cells, "TotalSales_USD") == RowUsd(cfg, row, "TotalSales")
  {
    SalesSteps(df, cfg);
    SalesAmountNames();
    var cols, fx := SalesAmountColumns, cfg.fx;
    var d := ConvertColumn(df, "Date", cfg.toDatetime).value;
    var t := ConvertColumn(d, "Quantity", cfg.toInt).value;
    UsdColumnsCell(t, cols, fx, i, 0);
    UsdColumnsCell(t, cols, fx, i, 1);
    UsdColumnsKeep(t, cols, fx, i, "UnitPrice");
    UsdColumnsKeep(t, cols, fx, i, "TotalSales");
    UsdColumnsKeep(t, cols, fx, i, "Currency");
  }

  /** One row of `transform_sales` before its check. */
  lemma PrepareSalesRow(df: Frame, cfg: Config, i: int)
    requires PrepareSales(df, cfg).Success?
    requires 0 <= i < |df.rows|
    ensures var p := PrepareSales(df, cfg).value;
      && |p.rows| == |df.rows|
      && SalesRowFrom(cfg, "sales_id" in df.columns, df.rows[i], p.rows[i].cells)
  {
    PrepareSalesRowKept(df, cfg, i);
    PrepareSalesRowUsd(df, cfg, i);
  }

  /** `transform_sales` before its check keeps every row and its index label. */
  lemma PrepareSalesLength(df: Frame, cfg: Config)
    requires PrepareSales(df, cfg).Success?
    ensures |PrepareSales(df, cfg).value.rows| == |df.rows|
    ensures forall i :: 0 <= i < |df.rows| ==> PrepareSales(df, cfg).value.rows[i].ix == df.rows[i].ix
  {
    var d := ConvertColumn(df, "Date", cfg.toDatetime).value;
    var t := ConvertColumn(d, "Quantity", cfg.toInt).value;
    UsdColumnsShape(t, SalesAmountColumns, cfg.fx);
  }

  /** Every column the sales projection names exists before the projection. */
  lemma PrepareSalesColumns(df: Frame, cfg: Config)
    requires PrepareSales(df, cfg).Success?
    ensures forall k :: 0 <= k < |SalesColumns| ==> SalesColumns[k] in PrepareSales(df, cfg).value.columns
  {
    SalesAmountNames();
    PrepareSalesSucceeds(df, cfg);
    assert forall k :: 0 <= k < |SalesAmountColumns| ==> SalesAmountColumns[k] in df.columns;
    var d := ConvertColumn(df, "Date", cfg.toDatetime).value;
    var t := ConvertColumn(d, "Quantity", cfg.toInt).value;
    UsdColumnsShape(t, SalesAmountColumns, cfg.fx);
    var c := WithUsdColumns(t, SalesAmountColumns, cfg.fx).value;
    assert UsdColumnName(SalesAmountColumns[0]) in c.columns;
    assert UsdColumnName(SalesAmountColumns[1]) in c.columns;
    assert "Date" in c.columns && "Quantity" in c.columns && "UnitPrice" in c.columns && "TotalSales" in c.columns;
  }

  /** `transform_sales` is its preparation, then its check, then its projection. */
  lemma SalesStages(df: Frame, cfg: Config)
    requires TransformSales(df, cfg).Success?
    ensures PrepareSales(df, cfg).Success?
    ensures var p := PrepareSales(df, cfg).value;
      && CheckSalesQuality(p).Success?
      && CheckSalesQuality(p).value.frame == p
      && Select(p, SalesColumns).Success?
      && TransformSales(df, cfg).value == Transformed(Select(p, SalesColumns).value, CheckSalesQuality(p).value.warnings)
  {
  }

  /** The quantities and amounts the check compares are those of the input, the
      quantities after coercion. */
  lemma PrepareSalesCheckInputs(df: Frame, cfg: Config)
    requires PrepareSales(df, cfg).Success?
    ensures var p := PrepareSales(df, cfg).value;
      && (HasTextIn(p, "Quantity") <==>
            exists i :: 0 <= i < |df.rows| && TextAfter(cfg.toInt, Cell(df.rows[i].cells, "Quantity")))
      && (HasTextIn(p, "UnitPrice") <==> HasTextIn(df, "UnitPrice"))
      && (HasTextIn(p, "TotalSales") <==> HasTextIn(df, "TotalSales"))
      && (SomeNegative(p, "UnitPrice") <==> SomeNegative(df, "UnitPrice"))
  {
    var p := PrepareSales(df, cfg).value;
    PrepareSalesLength(df, cfg);
    forall i | 0 <= i < |df.rows|
      ensures i < |p.rows|
      ensures Cell(p.rows[i].cells, "Quantity").Text? <==> TextAfter(cfg.toInt, Cell(df.rows[i].cells, "Quantity"))
      ensures Cell(p.rows[i].cells, "UnitPrice") == Cell(df.rows[i].cells, "UnitPrice")
      ensures Cell(p.rows[i].cells, "TotalSales") == Cell(df.rows[i].cells, "TotalSales")
    {
      PrepareSalesRowKept(df, cfg, i);
    }
  }

  /** `transform_sales` raises exactly when a needed column is absent, a date or quantity
      does not convert, an amount is text in a row with a rate, or the check compares
      text with 0; otherwise it returns every input row, projected onto exactly the seven
      sales columns in their listed order. */
  lemma TransformSalesShape(df: Frame, cfg: Config)
    ensures TransformSales(df, cfg).Success? <==> SalesInputOk(df, cfg) && SalesCheckOk(df, cfg)
    ensures TransformSales(df, cfg).Success? ==> var out := TransformSales(df, cfg).value.frame;
      && out.columns == SalesColumns
      && |out.rows| == |df.rows|
      && (forall i :: 0 <= i < |df.rows| ==> out.rows[i].ix == df.rows[i].ix)
      && (forall i, c :: 0 <= i < |df.rows| ==> (c in out.rows[i].cells <==> c in SalesColumns))
  {
    PrepareSalesSucceeds(df, cfg);
    if PrepareSales(df, cfg).Success? {
      PrepareSalesColumns(df, cfg);
      PrepareSalesCheckInputs(df, cfg);
      var p := PrepareSales(df, cfg).value;
      assert "Quantity" in p.columns && "UnitPrice" in p.columns && "TotalSales" in p.columns by {
        assert SalesColumns[2] == "Quantity" && SalesColumns[3] == "UnitPrice" && SalesColumns[4] == "TotalSales";
      }
      assert CheckSalesQuality(p).Success? <==> SalesCheckOk(df, cfg);
      if CheckSalesQuality(p).Success? {
        SalesStages(df, cfg);
        PrepareSalesLength(df, cfg);
      }
    }
  }

  /** A row agreeing with `prow` on every output column is built from the input row
      just as `prow` is. */
  lemma SalesRowProjected(cfg: Config, inherit: bool, input: Record, prow: Row, orow: Row)
    requires SalesRowFrom(cfg, inherit, input, prow)
    requires forall k :: 0 <= k < |SalesColumns| ==> Cell(orow, SalesColumns[k]) == Cell(prow, SalesColumns[k])
    ensures SalesRowFrom(cfg, inherit, input, orow)
  {
    assert Cell(orow, SalesColumns[0]) == Cell(prow, SalesColumns[0]);
    assert Cell(orow, SalesColumns[1]) == Cell(prow, SalesColumns[1]);
    assert Cell(orow, SalesColumns[2]) == Cell(prow, SalesColumns[2]);
    assert Cell(orow, SalesColumns[3]) == Cell(prow, SalesColumns[3]);
    assert Cell(orow, SalesColumns[4]) == Cell(prow, SalesColumns[4]);
    assert Cell(orow, SalesColumns[5]) == Cell(prow, SalesColumns[5]);
    assert Cell(orow, SalesColumns[6]) == Cell(prow, SalesColumns[6]);
  }

  /** Every cell `transform_sales` outputs for one row, in terms of the input row: the id
      inherited or else the row's index label as a string, the coerced date and quantity,
      the amounts unchanged, the USD amounts at the row's rate. */
  lemma TransformSalesRow(df: Frame, cfg: Config, i: int)
    requires TransformSales(df, cfg).Success?
    requires 0 <= i < |df.rows|
    ensures var out := TransformSales(df, cfg).value.frame;
      && |out.rows| == |df.rows| && out.rows[i].ix == df.rows[i].ix
      && SalesRowFrom(cfg, "sales_id" in df.columns, df.rows[i], out.rows[i].cells)
  {
    SalesStages(df, cfg);
    var p := PrepareSales(df, cfg).value;
    var out := Select(p, SalesColumns).value;
    PrepareSalesLength(df, cfg);
    PrepareSalesRow(df, cfg, i);
    assert forall k :: 0 <= k < |SalesColumns| ==>
      Cell(out.rows[i].cells, SalesColumns[k]) == Cell(p.rows[i].cells, SalesColumns[k]);
    SalesRowProjected(cfg, "sales_id" in df.columns, df.rows[i], p.rows[i].cells, out.rows[i].cells);
  }

  /** `transform_sales` warns of negative quantities, and of negative amounts, exactly
      when some input row has them. */
  lemma TransformSalesNegatives(df: Frame, cfg: Config)
    requires TransformSales(df, cfg).Success?
    ensures var t := TransformSales(df, cfg).value;
      && (NegativeQuantities in t.warnings <==>
            exists i :: 0 <= i < |df.rows| && NegativeAfter(cfg.toInt, Cell(df.rows[i].cells, "Quantity")))
      && (NegativeSalesAmounts in t.warnings <==>
            exists i :: 0 <= i < |df.rows| &&
              (IsNegative(Cell(df.rows[i].cells, "UnitPrice")) || IsNegative(Cell(df.rows[i].cells, "TotalSales"))))
  {
    SalesStages(df, cfg);
    var p := PrepareSales(df, cfg).value;
    PrepareSalesLength(df, cfg);
    forall i | 0 <= i < |df.rows|
      ensures i < |p.rows|
      ensures Some(Cell(p.rows[i].cells, "Quantity")) == cfg.toInt(Cell(df.rows[i].cells, "Quantity"))
      ensures Cell(p.rows[i].cells, "UnitPrice") == Cell(df.rows[i].cells, "UnitPrice")
      ensures Cell(p.rows[i].cells, "TotalSales") == Cell(df.rows[i].cells, "TotalSales")
    {
      PrepareSalesRowKept(df, cfg, i);
    }
  }

  /** A missing value in any column `transform_sales` outputs is always reported. */
  lemma TransformSalesNulls(df: Frame, cfg: Config)
    requires TransformSales(df, cfg).Success?
    ensures var t := TransformSales(df, cfg).value;
      NullInOutput(t.frame, SalesColumns) ==> NullValues in t.warnings
  {
    SalesStages(df, cfg);
    var p := PrepareSales(df, cfg).value;
    NullsInOutputReported(p, CheckSalesQuality(p).value, SalesColumns);
  }

  /** Without a `sales_id` column, rows with distinct index labels get distinct ids (as
      after `ignore_index=True`, where the labels are 0 .. n-1). */
  lemma SalesIdsDistinct(df: Frame, cfg: Config, i: int, j: int)
    requires TransformSales(df, cfg).Success?
    requires "sales_id" !in df.columns
    requires 0 <= i < |df.rows| && 0 <= j < |df.rows| && df.rows[i].ix != df.rows[j].ix
    ensures var out := TransformSales(df, cfg).value.frame;
      |out.rows| == |df.rows| && Cell(out.rows[i].cells, "sales_id") != Cell(out.rows[j].cells, "sales_id")
  {
    TransformSalesRow(df, cfg, i);
    TransformSalesRow(df, cfg, j);
    LabelIdInjective(df.rows[i], df.rows[j]);
  }

  /** With a `sales_id` column, each row keeps its own id. */
  lemma SalesIdsInherited(df: Frame, cfg: Config, i: int)
    requires TransformSales(df, cfg).Success?
    requires "sales_id" in df.columns
    requires 0 <= i < |df.rows|
    ensures var out := TransformSales(df, cfg).value.frame;
      |out.rows| == |df.rows| && Cell(out.rows[i].cells, "sales_id") == Cell(df.rows[i].cells, "sales_id")
  {
    TransformSalesRow(df, cfg, i);
  }
}
