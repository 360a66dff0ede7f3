/** The loader of `pipeline/load.py`: a batch is written to a staging table (overwriting
    it), merged into the target table by an insert-only MERGE keyed on one column, and
    the staging table is then deleted. The warehouse is a map from table ids to tables;
    a row of a table holds one cell per column of the table, NULL standing for a
    missing value. */
module Load {
  import opened Wrappers
  import opened Frames

  datatype Table = Table(columns: seq<string>, rows: seq<Row>)

  type Tables = map<string, Table>

  /** The errors `load_dataframe` can raise. */
  datatype LoadError =
    | StagingWriteFailed            // the load job into the staging table failed
    | TableNotFound(id: string)     // the MERGE names a table that does not exist
    | UnrecognizedName(name: string) // the MERGE names a column one of its tables lacks
    | QueryFailed                   // the MERGE job failed for a reason outside the model

  /** Failures of the warehouse itself, which the model takes as given. */
  datatype Faults = Faults(stagingWriteFails: bool, mergeFails: bool)

  const DefaultStagingSuffix: string := "_staging"

  /** The staging table's id: the target's id followed by the suffix, so it names a table
      other than the target exactly when the suffix is not empty. */
  function StagingTableId(tableId: string, suffix: string): (id: string)
    ensures |id| == |tableId| + |suffix| && id[..|tableId|] == tableId && id[|tableId|..] == suffix
    ensures id == tableId <==> suffix == ""
  {
    tableId + suffix
  }

  /** The staging table after the WRITE_TRUNCATE load job: exactly the batch's columns, and
      one row per batch row holding that row's cells, whatever the table held before. */
  function Staged(df: Frame): (t: Table)
    ensures t.columns == df.columns && |t.rows| == |df.rows|
    ensures forall i, c :: 0 <= i < |df.rows| ==> (c in t.rows[i] <==> c in df.columns)
    ensures forall i, c :: 0 <= i < |df.rows| && c in df.columns ==> t.rows[i][c] == Cell(df.rows[i].cells, c)
  {
    Table(df.columns, seq(|df.rows|, i requires 0 <= i < |df.rows| =>
      map c | c in df.columns :: Cell(df.rows[i].cells, c)))
  }

  /** `T.key = S.key` under SQL's three-valued logic: NULL equals nothing, not even NULL. */
  predicate KeysMatch(t: Value, s: Value) {
    t != Null && t == s
  }

  /** Some target row matches the staging row on the key. */
  predicate Matched(target: seq<Row>, key: string, s: Row) {
    exists t :: 0 <= t < |target| && KeysMatch(Cell(target[t], key), Cell(s, key))
  }

  /** `INSERT (cols) VALUES (S.cols)`: a full target row taking the listed columns from
      the staging row and NULL in every other column. */
  function InsertedRow(targetColumns: seq<string>, cols: seq<string>, s: Row): (r: Row)
    ensures forall c :: c in r <==> c in targetColumns
    ensures forall c :: c in targetColumns ==> r[c] == if c in cols then Cell(s, c) else Null
  {
    map c | c in targetColumns :: if c in cols then Cell(s, c) else Null
  }

  /** `r` is the row inserted for some staging row that no target row matches. */
  predicate InsertedFrom(target: seq<Row>, key: string, targetColumns: seq<string>, cols: seq<string>,
                         staged: seq<Row>, r: Row) {
    exists i :: 0 <= i < |staged| && !Matched(target, key, staged[i]) && r == InsertedRow(targetColumns, cols, staged[i])
  }

  /** The rows `WHEN NOT MATCHED THEN INSERT` adds: one per staging row that no target row
      matches, and no other. */
  function NewRows(target: seq<Row>, key: string, targetColumns: seq<string>, cols: seq<string>,
                   staged: seq<Row>): (r: seq<Row>)
    ensures |r| <= |staged|
    ensures forall i :: 0 <= i < |staged| && !Matched(target, key, staged[i]) ==>
      InsertedRow(targetColumns, cols, staged[i]) in r
    ensures forall j :: 0 <= j < |r| ==> InsertedFrom(target, key, targetColumns, cols, staged, r[j])
    ensures r == [] <==> forall i :: 0 <= i < |staged| ==> Matched(target, key, staged[i])
  {
    if staged == [] then []
    else
      var rest := NewRows(target, key, targetColumns, cols, staged[1..]);
      var head := if Matched(target, key, staged[0]) then [] else [InsertedRow(targetColumns, cols, staged[0])];
      assert forall i :: 1 <= i < |staged| ==> staged[i] == staged[1..][i - 1];
      assert forall j :: 0 <= j < |rest| ==> InsertedFrom(target, key, targetColumns, cols, staged, rest[j]) by {
        forall j | 0 <= j < |rest|
          ensures InsertedFrom(target, key, targetColumns, cols, staged, rest[j])
        {
          var i :| 0 <= i < |staged[1..]| && !Matched(target, key, staged[1..][i])
            && rest[j] == InsertedRow(targetColumns, cols, staged[1..][i]);
          assert staged[1..][i] == staged[i + 1];
        }
      }
      head + rest
  }

  /** The MERGE statement: it fails when the key is not a column of both tables or an
      inserted column is not a column of both; otherwise it keeps every target row as it
      was and appends the inserted rows. */
  function Merge(target: Table, staging: Table, key: string, cols: seq<string>): (r: Result<Table, LoadError>)
    ensures r.Success? <==>
      && key in target.columns && key in staging.columns
      && forall k :: 0 <= k < |cols| ==> cols[k] in target.columns && cols[k] in staging.columns
    ensures r.Success? ==>
      && r.value.columns == target.columns
      && r.value.rows == target.rows + NewRows(target.rows, key, target.columns, cols, staging.rows)
  {
    if key !in target.columns || key !in staging.columns then Failure(UnrecognizedName(key))
    else match FirstMissing(cols, target.columns)
      case Some(c) => Failure(UnrecognizedName(c))
      case None =>
        match FirstMissing(cols, staging.columns)
        case Some(c) => Failure(UnrecognizedName(c))
        case None =>
          Success(Table(target.columns, target.rows + NewRows(target.rows, key, target.columns, cols, staging.rows)))
  }

  /** A load's outcome and the warehouse it leaves. */
  datatype Loaded = Loaded(outcome: Outcome<LoadError>, tables: Tables)

  /** `load_dataframe` on a warehouse: staging write, MERGE, staging delete, each step
      running only when the one before it succeeded. */
  function LoadResult(tables: Tables, df: Frame, tableId: string, key: string, suffix: string,
                      faults: Faults): Loaded
  {
    var sid := StagingTableId(tableId, suffix);
    if faults.stagingWriteFails then Loaded(Fail(StagingWriteFailed), tables)
    else
      var staged := tables[sid := Staged(df)];
      if tableId !in staged then Loaded(Fail(TableNotFound(tableId)), staged)
      else if faults.mergeFails then Loaded(Fail(QueryFailed), staged)
      else match Merge(staged[tableId], staged[sid], key, df.columns)
        case Failure(e) => Loaded(Fail(e), staged)
        case Success(t) => Loaded(Pass, staged[tableId := t] - {sid})
  }

  /** The warehouse `client` stands for, updated in place by each load. */
  class Warehouse {
    var tables: Tables

    constructor (tables: Tables)
      ensures this.tables == tables
    {
      this.tables := tables;
    }

    /** `load_dataframe(df, table_id, client, unique_key, staging_suffix)`. */
    method LoadDataframe(df: Frame, tableId: string, key: string, suffix: string, faults: Faults)
      returns (r: Outcome<LoadError>)
      modifies this
      ensures Loaded(r, tables) == LoadResult(old(tables), df, tableId, key, suffix, faults)
    {
      var sid := StagingTableId(tableId, suffix);
      if faults.stagingWriteFails {
        return Fail(StagingWriteFailed);
      }
      tables := tables[sid := Staged(df)];
      if tableId !in tables {
        return Fail(TableNotFound(tableId));
      }
      if faults.mergeFails {
        return Fail(QueryFailed);
      }
      var merged := Merge(tables[tableId], tables[sid], key, df.columns);
      if merged.Failure? {
        return Fail(merged.error);
      }
      tables := tables[tableId := merged.value];
      // delete_table(..., not_found_ok=True) cannot fail
      tables := tables - {sid};
      return Pass;
    }
  }
}
