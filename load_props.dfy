/** What `load_dataframe` promises: when it succeeds, that it never touches existing
    target rows or other tables, what it inserts, what a failure leaves behind, and that
    a repeated load changes nothing exactly when no batch row has a NULL key. */
module LoadProperties {
  import opened Wrappers
  import opened Frames
  import opened Load

  /** The default suffix is not empty, so the staging table `load_dataframe` uses by
      default is never the target, and the lemmas below that require a non-empty suffix
      cover it. */
  lemma DefaultSuffixSeparate(tableId: string)
    ensures DefaultStagingSuffix != "" && StagingTableId(tableId, DefaultStagingSuffix) != tableId
  {
  }

  /** No batch row has a missing key. */
  predicate KeysPresent(df: Frame, key: string) {
    forall i :: 0 <= i < |df.rows| ==> Cell(df.rows[i].cells, key) != Null
  }

  /** Rows appended to a table do not undo a match. */
  lemma MatchedInPrefix(rows: seq<Row>, more: seq<Row>, key: string, s: Row)
    requires Matched(rows, key, s)
    ensures Matched(rows + more, key, s)
  {
    var t :| 0 <= t < |rows| && KeysMatch(Cell(rows[t], key), Cell(s, key));
    assert (rows + more)[t] == rows[t];
  }

  /** A row inserted for a staging row with a key matches that staging row. */
  lemma InsertedMatches(targetColumns: seq<string>, cols: seq<string>, key: string, s: Row, rows: seq<Row>, j: int)
    requires key in targetColumns && key in cols && Cell(s, key) != Null
    requires 0 <= j < |rows| && rows[j] == InsertedRow(targetColumns, cols, s)
    ensures Matched(rows, key, s)
  {
    assert KeysMatch(Cell(rows[j], key), Cell(s, key));
  }

  /** The positions, from `from` on, of the staging rows that no target row matches, in
      increasing order: an independent account of which rows the MERGE inserts. */
  function UnmatchedFrom(target: seq<Row>, key: string, staged: seq<Row>, from: nat): (p: seq<nat>)
    ensures forall j :: 0 <= j < |p| ==> from <= p[j] < |staged| && !Matched(target, key, staged[p[j]])
    ensures forall a, b :: 0 <= a < b < |p| ==> p[a] < p[b]
    ensures forall i :: from <= i < |staged| && !Matched(target, key, staged[i]) ==> i in p
    decreases |staged| - from
  {
    if from >= |staged| then []
    else if Matched(target, key, staged[from]) then UnmatchedFrom(target, key, staged, from + 1)
    else [from] + UnmatchedFrom(target, key, staged, from + 1)
  }

  /** One step of `NewRows`: the first staging row contributes its inserted row when
      it is unmatched, and nothing otherwise. */
  lemma NewRowsCons(target: seq<Row>, key: string, targetColumns: seq<string>, cols: seq<string>, tail: seq<Row>)
    requires tail != []
    ensures NewRows(target, key, targetColumns, cols, tail)
      == (if Matched(target, key, tail[0]) then [] else [InsertedRow(targetColumns, cols, tail[0])])
         + NewRows(target, key, targetColumns, cols, tail[1..])
  {
  }

  /** Rows built from the positions `q`, with one more row in front built from `from`. */
  lemma PositionsCons(staged: seq<Row>, targetColumns: seq<string>, cols: seq<string>,
                      r: seq<Row>, rest: seq<Row>, p: seq<nat>, q: seq<nat>, from: nat)
    requires from < |staged| && forall j :: 0 <= j < |q| ==> q[j] < |staged|
    requires |rest| == |q| && forall j :: 0 <= j < |rest| ==> rest[j] == InsertedRow(targetColumns, cols, staged[q[j]])
    requires r == [InsertedRow(targetColumns, cols, staged[from])] + rest && p == [from] + q
    ensures |r| == |p| && forall j :: 0 <= j < |r| ==> p[j] < |staged| && r[j] == InsertedRow(targetColumns, cols, staged[p[j]])
  {
    forall j | 0 <= j < |r|
      ensures p[j] < |staged| && r[j] == InsertedRow(targetColumns, cols, staged[p[j]])
    {
      if j > 0 {
        assert r[j] == rest[j - 1] && p[j] == q[j - 1];
      }
    }
  }

  /** The MERGE inserts exactly one row per unmatched staging row, in staging order, so a
      batch that holds the same unmatched row twice inserts it twice (`from` is 0 for the
      whole batch). */
  lemma {:induction false} NewRowsFollowUnmatched(target: seq<Row>, key: string, targetColumns: seq<string>,
                                                  cols: seq<string>, staged: seq<Row>, from: nat)
    requires from <= |staged|
    ensures var r, p := NewRows(target, key, targetColumns, cols, staged[from..]), UnmatchedFrom(target, key, staged, from);
      && |r| == |p|
      && forall j :: 0 <= j < |r| ==> p[j] < |staged| && r[j] == InsertedRow(targetColumns, cols, staged[p[j]])
    decreases |staged| - from
  {
    if from < |staged| {
      NewRowsFollowUnmatched(target, key, targetColumns, cols, staged, from + 1);
      var tail := staged[from..];
      assert tail[1..] == staged[from + 1..] && tail[0] == staged[from];
      NewRowsCons(target, key, targetColumns, cols, tail);
      var rest := NewRows(target, key, targetColumns, cols, staged[from + 1..]);
      var q := UnmatchedFrom(target, key, staged, from + 1);
      if !Matched(target, key, staged[from]) {
        PositionsCons(staged, targetColumns, cols, NewRows(target, key, targetColumns, cols, tail), rest,
                      UnmatchedFrom(target, key, staged, from), q, from);
      }
    }
  }

  /** After the inserted rows are appended, every staging row with a key is matched. */
  lemma AppendedRowsMatch(target: seq<Row>, targetColumns: seq<string>, key: string, cols: seq<string>,
                          staged: seq<Row>, i: int)
    requires key in targetColumns && key in cols
    requires 0 <= i < |staged| && Cell(staged[i], key) != Null
    ensures Matched(target + NewRows(target, key, targetColumns, cols, staged), key, staged[i])
  {
    var s := staged[i];
    var n := NewRows(target, key, targetColumns, cols, staged);
    if Matched(target, key, s) {
      MatchedInPrefix(target, n, key, s);
    } else {
      var ins := InsertedRow(targetColumns, cols, s);
      assert ins in n;
      var j :| 0 <= j < |n| && n[j] == ins;
      assert (target + n)[|target| + j] == ins;
      InsertedMatches(targetColumns, cols, key, s, target + n, |target| + j);
    }
  }

  /** Merging the same staging table a second time inserts nothing exactly when no staging
      row has a NULL key: a NULL key matches no row, so such a row is inserted again on
      every merge. */
  lemma MergeRepeat(target: Table, staging: Table, key: string, cols: seq<string>)
    requires Merge(target, staging, key, cols).Success?
    requires key in cols
    ensures var m := Merge(target, staging, key, cols).value;
      && Merge(m, staging, key, cols).Success?
      && (Merge(m, staging, key, cols).value == m <==>
            forall i :: 0 <= i < |staging.rows| ==> Cell(staging.rows[i], key) != Null)
  {
    var m := Merge(target, staging, key, cols).value;
    var n2 := NewRows(m.rows, key, m.columns, cols, staging.rows);
    if forall i :: 0 <= i < |staging.rows| ==> Cell(staging.rows[i], key) != Null {
      forall i | 0 <= i < |staging.rows|
        ensures Matched(m.rows, key, staging.rows[i])
      {
        AppendedRowsMatch(target.rows, target.columns, key, cols, staging.rows, i);
      }
      assert m.rows + n2 == m.rows;
    } else {
      var i :| 0 <= i < |staging.rows| && Cell(staging.rows[i], key) == Null;
      assert !Matched(m.rows, key, staging.rows[i]);
      assert InsertedRow(m.columns, cols, staging.rows[i]) in n2;
      assert |Merge(m, staging, key, cols).value.rows| > |m.rows|;
    }
  }

  /** With a staging table of its own, `load_dataframe` succeeds exactly when the warehouse
      does not fail, the target exists, the key is a column of the target and of the batch,
      and every batch column is a column of the target. */
  lemma LoadSucceeds(tables: Tables, df: Frame, tableId: string, key: string, suffix: string, faults: Faults)
    requires suffix != ""
    ensures LoadResult(tables, df, tableId, key, suffix, faults).outcome.Pass? <==>
      && !faults.stagingWriteFails && !faults.mergeFails
      && tableId in tables
      && key in tables[tableId].columns && key in df.columns
      && forall k :: 0 <= k < |df.columns| ==> df.columns[k] in tables[tableId].columns
  {
    var sid := StagingTableId(tableId, suffix);
    assert sid != tableId;
  }

  /** A successful load leaves the target's columns and existing rows as they were and
      only appends to it, inserting exactly the batch rows whose key matches no existing
      row; every other table is untouched, and the staging table no longer exists. */
  lemma LoadKeepsExisting(tables: Tables, df: Frame, tableId: string, key: string, suffix: string, faults: Faults)
    requires suffix != ""
    requires LoadResult(tables, df, tableId, key, suffix, faults).outcome.Pass?
    ensures var r := LoadResult(tables, df, tableId, key, suffix, faults).tables;
      && tableId in tables && tableId in r
      && r[tableId].columns == tables[tableId].columns
      && r[tableId].rows == tables[tableId].rows
           + NewRows(tables[tableId].rows, key, tables[tableId].columns, df.columns, Staged(df).rows)
      && StagingTableId(tableId, suffix) !in r
      && forall id :: id != tableId && id != StagingTableId(tableId, suffix) ==>
           (id in r <==> id in tables) && (id in r ==> r[id] == tables[id])
  {
    var sid := StagingTableId(tableId, suffix);
    assert sid != tableId;
  }

  /** `r` is the target row inserted for the i-th batch row: the batch's value in each
      batch column and NULL in every other target column. */
  ghost predicate InsertedFor(columns: seq<string>, df: Frame, i: int, r: Row)
    requires 0 <= i < |df.rows|
  {
    && (forall c :: c in r <==> c in columns)
    && (forall c :: c in columns ==> r[c] == if c in df.columns then Cell(df.rows[i].cells, c) else Null)
  }

  /** Every row the MERGE appends is the row inserted for a staging row that no target
      row matched. */
  lemma MergeAppendsInserted(target: Table, staging: Table, key: string, cols: seq<string>, j: int)
    requires Merge(target, staging, key, cols).Success?
    requires |target.rows| <= j < |Merge(target, staging, key, cols).value.rows|
    ensures exists i :: (0 <= i < |staging.rows| && !Matched(target.rows, key, staging.rows[i])
      && Merge(target, staging, key, cols).value.rows[j] == InsertedRow(target.columns, cols, staging.rows[i]))
  {
    var n := NewRows(target.rows, key, target.columns, cols, staging.rows);
    var r := n[j - |target.rows|];
    assert (target.rows + n)[j] == r;
    assert InsertedFrom(target.rows, key, target.columns, cols, staging.rows, r);
    var i :| 0 <= i < |staging.rows| && !Matched(target.rows, key, staging.rows[i])
      && r == InsertedRow(target.columns, cols, staging.rows[i]);
  }

  /** Every staging row that no target row matches has its row inserted by the MERGE. */
  lemma MergeInsertsUnmatched(target: Table, staging: Table, key: string, cols: seq<string>, i: int)
    requires Merge(target, staging, key, cols).Success?
    requires 0 <= i < |staging.rows| && !Matched(target.rows, key, staging.rows[i])
    ensures var m := Merge(target, staging, key, cols).value;
      exists j :: |target.rows| <= j < |m.rows| && m.rows[j] == InsertedRow(target.columns, cols, staging.rows[i])
  {
    var n := NewRows(target.rows, key, target.columns, cols, staging.rows);
    var row := InsertedRow(target.columns, cols, staging.rows[i]);
    assert row in n;
    var k :| 0 <= k < |n| && n[k] == row;
    assert (target.rows + n)[|target.rows| + k] == row;
  }

  /** The row a load inserts for the i-th batch row carries that row's value in each batch
      column and NULL in every other target column. */
  lemma BatchRowInserted(columns: seq<string>, df: Frame, i: int)
    requires 0 <= i < |df.rows|
    ensures InsertedFor(columns, df, i, InsertedRow(columns, df.columns, Staged(df).rows[i]))
  {
    var s := Staged(df).rows[i];
    forall c | c in columns && c in df.columns
      ensures Cell(s, c) == Cell(df.rows[i].cells, c)
    {
      assert c in s;
    }
  }

  /** A failed load never changes the target. When the staging write fails nothing changes
      at all; when the MERGE fails the staging table is left behind holding exactly the
      batch, whatever it held before. */
  lemma LoadFailureKeepsTarget(tables: Tables, df: Frame, tableId: string, key: string, suffix: string, faults: Faults)
    requires suffix != ""
    requires LoadResult(tables, df, tableId, key, suffix, faults).outcome.Fail?
    ensures var r := LoadResult(tables, df, tableId, key, suffix, faults).tables;
      && (tableId in r <==> tableId in tables)
      && (tableId in tables ==> r[tableId] == tables[tableId])
      && (faults.stagingWriteFails ==> r == tables)
      && (!faults.stagingWriteFails ==> r == tables[StagingTableId(tableId, suffix) := Staged(df)])
  {
    var sid := StagingTableId(tableId, suffix);
    assert sid != tableId;
  }

  /** The warehouse a successful load leaves: the old one without the staging table, and
      with the merged target. */
  lemma LoadPassForm(tables: Tables, df: Frame, tableId: string, key: string, suffix: string, faults: Faults)
    requires suffix != ""
    requires LoadResult(tables, df, tableId, key, suffix, faults).outcome.Pass?
    ensures tableId in tables && Merge(tables[tableId], Staged(df), key, df.columns).Success?
    ensures LoadResult(tables, df, tableId, key, suffix, faults).tables
      == (tables - {StagingTableId(tableId, suffix)})[tableId := Merge(tables[tableId], Staged(df), key, df.columns).value]
  {
    var sid := StagingTableId(tableId, suffix);
    assert sid != tableId;
  }

  /** Loading the same batch a second time succeeds and leaves the warehouse exactly as the
      first load left it, precisely when no batch row has a NULL key; otherwise each such
      row is inserted once more. */
  lemma LoadRepeat(tables: Tables, df: Frame, tableId: string, key: string, suffix: string, faults: Faults)
    requires suffix != ""
    requires LoadResult(tables, df, tableId, key, suffix, faults).outcome.Pass?
    ensures var once := LoadResult(tables, df, tableId, key, suffix, faults);
      var twice := LoadResult(once.tables, df, tableId, key, suffix, faults);
      && twice.outcome.Pass?
      && (twice.tables == once.tables <==> KeysPresent(df, key))
  {
    var sid := StagingTableId(tableId, suffix);
    var s := Staged(df);
    LoadSucceeds(tables, df, tableId, key, suffix, faults);
    LoadPassForm(tables, df, tableId, key, suffix, faults);
    var m := Merge(tables[tableId], s, key, df.columns).value;
    var t1 := (tables - {sid})[tableId := m];
    assert tableId in t1 && t1[tableId] == m;
    LoadSucceeds(t1, df, tableId, key, suffix, faults);
    LoadPassForm(t1, df, tableId, key, suffix, faults);
    MergeRepeat(tables[tableId], s, key, df.columns);
    StagedKeys(df, key);
    ReplaceAgain(tables, sid, tableId, m, Merge(m, s, key, df.columns).value);
  }

  /** The staging table has a NULL key exactly where the batch has a missing one. */
  lemma StagedKeys(df: Frame, key: string)
    requires key in df.columns
    ensures KeysPresent(df, key) <==> forall i :: 0 <= i < |Staged(df).rows| ==> Cell(Staged(df).rows[i], key) != Null
  {
    forall i | 0 <= i < |df.rows|
      ensures Cell(Staged(df).rows[i], key) == Cell(df.rows[i].cells, key)
    {
      assert key in Staged(df).rows[i];
    }
  }

  /** Replacing the target again, in a warehouse without the staging table, changes it
      exactly when the new target differs. */
  lemma ReplaceAgain(tables: Tables, sid: string, tableId: string, m: Table, m2: Table)
    requires sid != tableId
    ensures var t1 := (tables - {sid})[tableId := m];
      (t1 - {sid})[tableId := m2] == t1 <==> m2 == m
  {
    var t1 := (tables - {sid})[tableId := m];
    assert t1 - {sid} == t1;
    if m2 == m {
      assert t1[tableId := m2] == t1;
    } else {
      assert t1[tableId := m2][tableId] != t1[tableId];
    }
  }

  /** With an empty suffix the staging table is the target itself: the batch overwrites
      the target, and a load that gets through the MERGE then deletes the target. */
  lemma EmptySuffixDropsTarget(tables: Tables, df: Frame, tableId: string, key: string, faults: Faults)
    ensures var r := LoadResult(tables, df, tableId, key, "", faults);
      && (r.outcome.Pass? <==> !faults.stagingWriteFails && !faults.mergeFails && key in df.columns)
      && (r.outcome.Pass? ==> tableId !in r.tables)
  {
    assert StagingTableId(tableId, "") == tableId;
  }
}
