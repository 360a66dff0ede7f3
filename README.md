# trainee_de_pipeline, modelled in Dafny

The pipeline reads three CSV datasets: sales, financial and attendance. It transforms each
batch with pandas and loads it into BigQuery so that a reload does not duplicate rows.
This project models the three layers of that load path and proves what each promises.

- **Transforms** (`Transform`, with `Frames` for the DataFrame operations they use).
  - A batch is a frame: ordered column names plus one record per row, each record
    carrying its index label and its cells.
  - `add_usd_columns` is a loop (`Transform.AddUsdColumns`), proved equal to the fold
    `WithUsdColumns`.
  - The three quality checks are functions. They return the batch unchanged, plus a list
    of warnings, which stands for their printed messages.
  - `transform_sales`, `transform_financial` and `transform_attendance` are functions
    returning either the transformed batch or the exception they raise (KeyError,
    conversion failure, TypeError, ValueError).
  - The per-domain properties are in `SalesProperties`, `FinancialProperties` and
    `AttendanceProperties`. The notions they share are in `TransformProperties`.
- **Loader** (`Load`, properties in `LoadProperties`).
  - The warehouse is a map from table ids to tables, held by the class `Load.Warehouse`.
  - `load_dataframe` is its method `LoadDataframe`:
    1. overwrite the staging table with the batch;
    2. run the insert-only MERGE keyed on `unique_key`, with SQL's NULL semantics;
    3. delete the staging table.
  - Each step runs only if the previous one succeeded. The method is proved equal to
    the function `LoadResult`. The lemmas about `LoadResult` state what is kept, what
    is inserted, what a failure leaves behind, and when a repeated load is a no-op.
- **Driver** (`Pipeline`).
  - `load_dataset` is a method with a chunk loop. It is proved against the predicate
    `ReportsRun`:
    - chunks are numbered from 1;
    - chunk 1 uses TRUNCATE and later chunks use APPEND;
    - the loop stops at the first exception, which is caught and logged.
  - `main` is `RunPipeline`:
    - pre-flight file checks and client creation, each exiting with status 1;
    - then the three domains in order, each whatever became of the ones before it;
    - then the final message.
  - Reading the chunks, the loader, the file system and the client are parameters.

## Model

| member | source | states |
|---|---|---|
| Frames.SetColumn | pipeline/transform.py:13 | assigning a column overwrites it in place when it exists and appends it otherwise; every other cell, the row count and the index labels are unchanged |
| Frames.ConvertColumn | pipeline/transform.py:48-49 | a whole-column coercion fails exactly when the column is absent or one of its cells does not convert; otherwise only that column changes, cell by cell |
| Frames.Select | pipeline/transform.py:60 | the projection fails exactly when a listed column is absent; otherwise it keeps every row in order with its label, holding exactly the listed columns with their old values |
| Frames.AnyCell | pipeline/transform.py:22 | a column scan is true exactly when some row's cell passes the test |
| Frames.AnyNullIn | pipeline/transform.py:20 | the null scan is true exactly when some row has a missing cell in one of the columns |
| Frames.IntToStringInjective | pipeline/transform.py:55 | distinct index labels render as distinct strings |
| Transform.AddUsdColumns | pipeline/transform.py:8-14 | the loop over the amount columns computes exactly the fold of one USD column per amount column, failing at the first column that cannot be converted |
| Transform.UsdColumnsSucceed | pipeline/transform.py:12-13 | converting fails exactly when an amount column or `Currency` is absent, or an amount cell is text in a row whose currency has a rate; a text amount without a rate gives a missing USD cell |
| Transform.UsdColumnsShape | pipeline/transform.py:12-13 | rows and labels are kept, the existing columns stay first in order, and the only new columns are the `<col>_USD` ones, each present |
| Transform.UsdColumnsKeep | pipeline/transform.py:12-14 | every cell outside the USD columns is unchanged, the amount columns included |
| Transform.UsdColumnsCell | pipeline/transform.py:13 | each row's `<col>_USD` is its amount times the rate of its own `Currency`, and missing when that currency has no rate or the amount is missing |
| Transform.CheckSalesQuality | pipeline/transform.py:19-26 | returns the batch unchanged; warns of nulls iff some cell is missing, of negative quantities iff some `Quantity` < 0, and of negative amounts iff some `UnitPrice` or `TotalSales` < 0; fails exactly when a column it compares with 0 is absent or holds text, comparing `TotalSales` only when no `UnitPrice` is negative |
| Transform.CheckFinancialQuality | pipeline/transform.py:28-33 | returns the batch unchanged; warns of nulls iff some cell is missing and of negative amounts iff some `Revenue`, `Expense` or `Profit` < 0; fails exactly when a column the short-circuit `or` reaches is absent or holds text |
| Transform.CheckAttendanceQuality | pipeline/transform.py:35-41 | returns the batch unchanged; fails exactly when `Status` is absent; warns of nulls iff some cell is missing and of invalid statuses iff some status, a missing one included, is not Present, Absent or Leave |
| Transform.AnyNegative | pipeline/transform.py:22 | comparing a column with 0 fails exactly when the column is absent or holds text; otherwise it is true exactly when some row's number is negative |
| Transform.EnsureId | pipeline/transform.py:54-55 | an existing id column is kept as is; otherwise one is appended holding each row's index label as a string |
| Transform.AttendanceKeys | pipeline/transform.py:88-92 | the row-wise key succeeds exactly when `StaffID` and `SessionID` are columns, or the frame has no rows and exactly one column; each row's key is then the MD5 of its own fields |
| Transform.GenerateAttendanceKey | pipeline/transform.py:88-90 | no contract of its own: the MD5 of the rendered `StaffID`, `Date` and `SessionID` joined by `_`; its behaviour is stated by Transform.AttendanceKeys, AttendanceProperties.PrepareAttendanceRow, AttendanceProperties.AttendanceIdDeterministic and AttendanceProperties.AttendanceKeyStringNotInjective |
| Transform.TransformSales | pipeline/transform.py:46-60 | no contract of its own; its behaviour is stated by SalesProperties.TransformSalesShape, TransformSalesRow, TransformSalesNegatives, TransformSalesNulls, SalesIdsDistinct and SalesIdsInherited |
| Transform.TransformFinancial | pipeline/transform.py:65-78 | no contract of its own; its behaviour is stated by FinancialProperties.TransformFinancialShape, TransformFinancialRow, TransformFinancialNegatives, TransformFinancialNulls, TransactionIdsDistinct and TransactionIdsInherited |
| Transform.TransformAttendance | pipeline/transform.py:83-97 | no contract of its own; its behaviour is stated by AttendanceProperties.TransformAttendanceShape, TransformAttendanceRow, TransformAttendanceStatuses, TransformAttendanceNulls and AttendanceIdDeterministic |
| TransformProperties.LabelIdInjective | pipeline/transform.py:55 | rows with distinct index labels get distinct positional ids |
| TransformProperties.NullsInOutputReported | pipeline/transform.py:20-21 | a missing value in any projected column was reported by the check |
| SalesProperties.SalesAmountNames | pipeline/transform.py:51 | the sales USD columns are `UnitPrice_USD` and `TotalSales_USD` and clash with no input column the conversion reads |
| SalesProperties.PrepareSalesSucceeds | pipeline/transform.py:47-55 | the steps before the check fail exactly when a date or quantity does not convert, `Currency` is absent, or an amount column is absent or holds text in a row with a rate |
| SalesProperties.PrepareSalesRow | pipeline/transform.py:47-55 | each row before the check holds the coerced date and quantity, the unchanged amounts, the USD amounts and the inherited or positional id |
| SalesProperties.PrepareSalesColumns | pipeline/transform.py:51-60 | every column the projection names exists after the steps before it |
| SalesProperties.TransformSalesShape | pipeline/transform.py:46-60 | `transform_sales` fails exactly when the steps before the check fail or the check compares a coerced quantity or a reached amount that is text; otherwise it returns every input row with its label, projected onto exactly the seven columns in order |
| SalesProperties.TransformSalesRow | pipeline/transform.py:46-60 | every output cell of a row, in terms of that input row |
| SalesProperties.TransformSalesNegatives | pipeline/transform.py:22-25 | negative-quantity and negative-amount warnings are raised exactly when some input row has them, the quantity after coercion |
| SalesProperties.TransformSalesNulls | pipeline/transform.py:20-21 | a missing output value is always reported |
| SalesProperties.SalesIdsDistinct | pipeline/transform.py:54-55 | without a `sales_id` column, rows with distinct labels get distinct ids |
| SalesProperties.SalesIdsInherited | pipeline/transform.py:54-55 | with a `sales_id` column, each row keeps its own id |
| FinancialProperties.FinancialAmountNames | pipeline/transform.py:69 | the financial USD columns are `Revenue_USD`, `Expense_USD` and `Profit_USD`, clashing with no column the conversion reads |
| FinancialProperties.PrepareFinancialSucceeds | pipeline/transform.py:66-73 | the steps before the check fail exactly when a date does not convert, `Currency` is absent, or an amount column is absent or holds text in a row with a rate |
| FinancialProperties.PrepareFinancialRow | pipeline/transform.py:66-73 | each row before the check holds the coerced date, the unchanged amounts, the three USD amounts and the inherited or positional id |
| FinancialProperties.TransformFinancialShape | pipeline/transform.py:65-78 | `transform_financial` fails exactly when the steps before the check fail or the check's short-circuit `or` reaches an amount column holding text; otherwise it returns every input row with its label, projected onto exactly the eight columns in order |
| FinancialProperties.TransformFinancialRow | pipeline/transform.py:65-78 | every output cell of a row, in terms of that input row |
| FinancialProperties.TransformFinancialNegatives | pipeline/transform.py:31-32 | the negative-amount warning is raised exactly when some input `Revenue`, `Expense` or `Profit` is negative |
| FinancialProperties.TransformFinancialNulls | pipeline/transform.py:29-32 | the only warnings are nulls and negative amounts, and a missing output value is always reported |
| FinancialProperties.TransactionIdsDistinct | pipeline/transform.py:72-73 | without a `transaction_id` column, rows with distinct labels get distinct ids |
| FinancialProperties.TransactionIdsInherited | pipeline/transform.py:72-73 | with a `transaction_id` column, each row keeps its own id |
| AttendanceProperties.PrepareAttendanceSucceeds | pipeline/transform.py:84-92 | the steps before the check fail exactly when a date does not convert, or `StaffID` or `SessionID` is absent, unless the batch has no rows and `Date` is its only column |
| AttendanceProperties.PrepareAttendanceRow | pipeline/transform.py:84-92 | each row before the check holds the coerced date, its id derived from staff, coerced date and session, and the unchanged staff, session and status |
| AttendanceProperties.TransformAttendanceShape | pipeline/transform.py:83-97 | `transform_attendance` fails exactly when a date does not convert or `StaffID`, `SessionID` or `Status` is absent; otherwise it returns every row projected onto exactly the five columns in order |
| AttendanceProperties.TransformAttendanceRow | pipeline/transform.py:83-97 | every output cell of a row, in terms of that input row |
| AttendanceProperties.TransformAttendanceStatuses | pipeline/transform.py:38-40 | the invalid-status warning is raised exactly when some input status is not one of the three, a missing one included |
| AttendanceProperties.TransformAttendanceNulls | pipeline/transform.py:36-40 | the only warnings are nulls and invalid statuses, and a missing output value is always reported |
| AttendanceProperties.AttendanceIdDeterministic | pipeline/transform.py:88-92 | rows of one batch that agree on staff, date and session get the same id |
| AttendanceProperties.AttendanceKeyStringNotInjective | pipeline/transform.py:89 | distinct (staff, date, session) triples can give the same key string, since the parts may contain `_` |
| Load.StagingTableId | pipeline/load.py:4-5 | the staging id is the target id followed by the suffix, naming a different table exactly when the suffix is not empty |
| Load.Staged | pipeline/load.py:8-9 | after the truncating write the staging table holds exactly the batch's columns and one row per batch row with its cells, nothing left from before |
| Load.InsertedRow | pipeline/load.py:18-19 | an inserted row takes the batch columns from the staging row and NULL in every other target column |
| Load.NewRows | pipeline/load.py:13-19 | every staging row that no target row matches on the key has its inserted row among the new rows, every new row is the inserted row of such a staging row, and there are none exactly when every staging row is matched |
| Load.Merge | pipeline/load.py:13-21 | the MERGE fails exactly when the key or an inserted column is missing from a table; otherwise the target keeps its columns and every existing row, and only gains the inserted rows |
| Load.LoadResult | pipeline/load.py:4-25 | no contract of its own; Load.Warehouse.LoadDataframe is proved equal to it, and LoadProperties.LoadSucceeds, LoadKeepsExisting, LoadFailureKeepsTarget, LoadRepeat and EmptySuffixDropsTarget state its behaviour |
| Load.Warehouse.LoadDataframe | pipeline/load.py:4-25 | the in-place load leaves the outcome and the warehouse that the three-step load function describes |
| LoadProperties.MergeRepeat | pipeline/load.py:13-21 | merging the same staging table again inserts nothing exactly when no staging row has a NULL key |
| LoadProperties.NewRowsFollowUnmatched | pipeline/load.py:13-19 | the MERGE inserts exactly one row per unmatched staging row, in staging order, so duplicate unmatched batch rows are each inserted |
| LoadProperties.AppendedRowsMatch | pipeline/load.py:16-19 | after the merge every staging row with a key is matched in the target |
| LoadProperties.MergeAppendsInserted | pipeline/load.py:16-19 | every appended row is the inserted row of an unmatched staging row |
| LoadProperties.MergeInsertsUnmatched | pipeline/load.py:16-19 | every unmatched staging row has its row appended |
| LoadProperties.BatchRowInserted | pipeline/load.py:18-19 | the row inserted for a batch row carries that row's values in the batch columns and NULL elsewhere |
| LoadProperties.LoadSucceeds | pipeline/load.py:4-25 | a load succeeds exactly when the warehouse does not fail, the target exists, and the key and all batch columns are target columns, the key also a batch column |
| LoadProperties.LoadKeepsExisting | pipeline/load.py:13-25 | a successful load keeps the target's columns and existing rows and only appends the merged rows; every other table is untouched and the staging table is gone |
| LoadProperties.LoadFailureKeepsTarget | pipeline/load.py:9-25 | a failed load never changes the target; a failed staging write changes nothing; a failed MERGE leaves the staging table holding exactly the batch |
| LoadProperties.LoadRepeat | pipeline/load.py:13-25 | loading the same batch again succeeds and leaves the warehouse as the first load left it exactly when no batch row has a NULL key |
| LoadProperties.DefaultSuffixSeparate | pipeline/load.py:4-5 | the default staging suffix is not empty, so the default staging table is never the target |
| LoadProperties.EmptySuffixDropsTarget | pipeline/load.py:4-25 | with an empty suffix the load succeeds exactly when the warehouse does not fail and the key is a batch column, and then the target table is deleted |
| Pipeline.DispositionFor | run_pipeline.py:53 | a chunk number gets TRUNCATE exactly when it is 1 |
| Pipeline.LoadDataset | run_pipeline.py:48-58 | the chunk loop makes one loader call per chunk it reaches, in chunk order, with the transformed chunk and TRUNCATE only for the first; it completes exactly when every chunk is ok; otherwise it stops at the first failing chunk with its exception; its log is the announcement, one line per loaded chunk, and then the success message or the error |
| Pipeline.ReportsRunUnique | run_pipeline.py:50-58 | a domain's outcome and loader calls are determined by its chunks, transform and loader |
| Pipeline.FailureNotBefore | run_pipeline.py:50-58 | a run with a failing chunk stops at that chunk or an earlier one |
| Pipeline.TruncateOnlyFirst | run_pipeline.py:51-54 | in any run the loader is told to truncate for the first call only |
| Pipeline.ChunkLinesContent | run_pipeline.py:55 | the per-chunk log lines are exactly chunks 1 to n |
| Pipeline.DatasetLogSuccess | run_pipeline.py:55-58 | the success message is logged exactly when every chunk loaded, and the loaded chunks are exactly those announced |
| Pipeline.RunPipeline | run_pipeline.py:42-81 | exit status 1, with no domain loaded, exactly when an input file is missing (the first one is logged) or the client cannot be created; otherwise the three domains run in order, each as its own load describes, the final message is logged and the status is 0 |

## Left out

- Frames are values. The column assignments in place and `df.copy()` (pipeline/transform.py:13, 47, 66, 84) become new frames. The caller's batch is therefore never modified, with nothing to prove. Aliasing between the caller's frame and pandas views is not modelled.
- The coercions `pd.to_datetime` and `astype(int)` are parameters of the configuration, applied cell by cell. So are the rendering of a cell inside an f-string and the MD5 digest. The model states results in terms of them and makes no claim about their internals. `pd.to_datetime` really infers one date format per column, and the f-string renders a value by its column's dtype (a float column renders 5 as `5.0`), so in pandas a cell's result can depend on the other cells of its column.
- AttendanceIdDeterministic is stated within one batch. Across batches the same record can get a different id in pandas, because the date format and the rendering of `StaffID` and `SessionID` depend on each batch's column dtypes; the insert-only MERGE would then insert that record again.
- The FX table (`config.FX_RATES`) is a parameter. Amounts are reals. Float rounding is not modelled; NaN is the missing value `Null`, and a missing amount or rate gives a missing cell.
- pandas dtypes are reduced to missing, number and text.
  - Multiplying an amount column that holds text falls back to multiplying cell by cell, skipping the rows where either side is missing. It raises exactly when a text amount meets a rate; a text amount without a rate gives a missing USD cell.
  - Comparing a column that holds text with 0 raises; a missing cell compares as false.
- `df.apply(..., axis=1)` on a frame without rows applies the key once to an all-missing row over the columns. When that succeeds the result is an empty column. When it raises, the frame is returned and assigning it to `attendance_id` raises unless it has exactly one column. AttendanceKeys and PrepareAttendanceSucceeds state exactly this.
- BigQuery calls are operations on a map from table ids to tables.
  - Each of `load_table_from_dataframe`, `query` and `delete_table` (pipeline/load.py:9, 21, 25) stands for its effect.
  - Whether the load job and the MERGE job fail is given by `Faults`.
  - Schemas, column types, SQL parsing, identifier quoting and job polling are not modelled.
  - A MERGE fails only when the target table or a named column is missing.
  - `delete_table` with `not_found_ok=True` never fails; its other errors (permissions, network) are not modelled.
- Table rows are kept in a sequence, so the inserted rows come after the existing ones in staging order. BigQuery tables have no row order.
- LoadSucceeds, LoadKeepsExisting, LoadFailureKeepsTarget and LoadRepeat are stated for a non-empty staging suffix. With an empty suffix the staging table is the target itself; EmptySuffixDropsTarget states what happens then.
- LoadRepeat is not unconditional idempotence. A batch row with a NULL key matches nothing and is inserted again on every load, and the lemma states exactly that.
- TransformSalesNulls, TransformFinancialNulls and TransformAttendanceNulls state one direction only. The checks run before the projection. A missing value in a dropped column (`Currency`, extra input columns) is reported too, and the check functions' own contracts state that in both directions.
- pipeline/extract.py is not part of this model. The driver takes the chunks as a parameter.
  - An exception raised while reading the CSV is not modelled.
  - Nor is the batch index, which extract.py renumbers 0..n-1 and which the positional ids rely on. SalesIdsDistinct and TransactionIdsDistinct assume distinct labels instead.
- The driver's loader is an abstract `accepts` predicate. It is not `Load.Warehouse.LoadDataframe`, and two call-site mismatches are left unreconciled:
  - run_pipeline.py:54 passes `write_disposition` and no `unique_key` to `load_dataframe` (pipeline/load.py:4);
  - run_pipeline.py:51 iterates over what `extract_csv` returns, a single frame (pipeline/extract.py:6).
- Logging is a returned list of log lines. Message text, timestamps, table ids in the chunk message and printed output are not modelled. The quality warnings are returned as a list instead of printed.
- The project, dataset and table identifiers and the CSV paths (run_pipeline.py:17-27) are replaced by the `Domain` type. `fileExists` and `clientOk` stand for `os.path.exists` and `bigquery.Client()`. `sys.exit(1)` is the returned exit status.
