/** What `transform_attendance` promises: when it raises, the shape of what it returns,
    every output cell in terms of the input row, how the attendance id is derived, and
    the warnings it reports. */
module AttendanceProperties {
  import opened Wrappers
  import opened Frames
  import opened Transform
  import opened TransformProperties

  /** What `transform_attendance` needs of its input to return normally. */
  predicate AttendanceInputOk(df: Frame, cfg: Config) {
    && Converts(df, "Date", cfg.toDatetime)
    && "StaffID" in df.columns && "SessionID" in df.columns && "Status" in df.columns
  }

  /** The attendance id of a staff member, a (converted) date and a session. */
  function AttendanceId(cfg: Config, staff: Value, date: Value, session: Value): Value {
    Text(cfg.md5(AttendanceKeyString(cfg.show(staff), cfg.show(date), cfg.show(session))))
  }

  /** The cells of one attendance row that the projection keeps, in terms of the input row. */
  predicate AttendanceRowFrom(cfg: Config, input: Record, out: Row) {
    var row := input.cells;
    && Some(Cell(out, "Date")) == cfg.toDatetime(Cell(row, "Date"))
    && Cell(out, "attendance_id") == AttendanceId(cfg, Cell(row, "StaffID"), Cell(out, "Date"), Cell(row, "SessionID"))
    && Cell(out, "StaffID") == Cell(row, "StaffID")
    && Cell(out, "SessionID") == Cell(row, "SessionID")
    && Cell(out, "Status") == Cell(row, "Status")
  }

  /** `transform_attendance` before its check raises exactly when a date does not convert,
      or when `StaffID` or `SessionID` is absent, unless the batch has no rows and `Date`
      is its only column. */
  lemma PrepareAttendanceSucceeds(df: Frame, cfg: Config)
    ensures PrepareAttendance(df, cfg).Success? <==>
      && Converts(df, "Date", cfg.toDatetime)
      && (("StaffID" in df.columns && "SessionID" in df.columns) || (|df.rows| == 0 && df.columns == ["Date"]))
  {
  }

  /** The intermediate frames of `transform_attendance` before its check: dated, then keyed. */
  lemma AttendanceSteps(df: Frame, cfg: Config)
    requires PrepareAttendance(df, cfg).Success?
    ensures ConvertColumn(df, "Date", cfg.toDatetime).Success?
    ensures var d := ConvertColumn(df, "Date", cfg.toDatetime).value;
      && AttendanceKeys(d, cfg).Success?
      && PrepareAttendance(df, cfg).value == SetColumn(d, "attendance_id", AttendanceKeys(d, cfg).value)
  {
  }

  /** One row of `transform_attendance` before its check. */
  lemma PrepareAttendanceRow(df: Frame, cfg: Config, i: int)
    requires PrepareAttendance(df, cfg).Success?
    requires 0 <= i < |df.rows|
    ensures var p := PrepareAttendance(df, cfg).value;
      && |p.rows| == |df.rows| && p.rows[i].ix == df.rows[i].ix
      && AttendanceRowFrom(cfg, df.rows[i], p.rows[i].cells)
  {
    AttendanceSteps(df, cfg);
    var d := ConvertColumn(df, "Date", cfg.toDatetime).value;
    var row, di := df.rows[i].cells, d.rows[i].cells;
    assert Cell(di, "StaffID") == Cell(row, "StaffID");
    assert Cell(di, "SessionID") == Cell(row, "SessionID");
    assert Cell(di, "Status") == Cell(row, "Status");
  }

  /** The columns of `transform_attendance` before its check: the input's, then
      `attendance_id` unless the input already had one. */
  lemma PrepareAttendanceColumns(df: Frame, cfg: Config)
    requires PrepareAttendance(df, cfg).Success?
    ensures var p := PrepareAttendance(df, cfg).value;
      && |p.rows| == |df.rows|
      && (forall i :: 0 <= i < |df.rows| ==> p.rows[i].ix == df.rows[i].ix)
      && (forall c :: c in p.columns <==> c in df.columns || c == "attendance_id")
  {
    AttendanceSteps(df, cfg);
  }

  /** `transform_attendance` is its preparation, then its check, then its projection. */
  lemma AttendanceStages(df: Frame, cfg: Config)
    requires TransformAttendance(df, cfg).Success?
    ensures PrepareAttendance(df, cfg).Success?
    ensures var p := PrepareAttendance(df, cfg).value;
      && CheckAttendanceQuality(p).Success?
      && CheckAttendanceQuality(p).value.frame == p
      && Select(p, AttendanceColumns).Success?
      && TransformAttendance(df, cfg).value
           == Transformed(Select(p, AttendanceColumns).value, CheckAttendanceQuality(p).value.warnings)
  {
  }

  /** `transform_attendance` raises exactly when a date does not convert or `StaffID`,
      `SessionID` or `Status` is absent; otherwise it returns every input row, projected
      onto exactly the five attendance columns in their listed order. */
  lemma TransformAttendanceShape(df: Frame, cfg: Config)
    ensures TransformAttendance(df, cfg).Success? <==> AttendanceInputOk(df, cfg)
    ensures TransformAttendance(df, cfg).Success? ==> var out := TransformAttendance(df, cfg).value.frame;
      && out.columns == AttendanceColumns
      && |out.rows| == |df.rows|
      && (forall i :: 0 <= i < |df.rows| ==> out.rows[i].ix == df.rows[i].ix)
      && (forall i, c :: 0 <= i < |df.rows| ==> (c in out.rows[i].cells <==> c in AttendanceColumns))
  {
    PrepareAttendanceSucceeds(df, cfg);
    if PrepareAttendance(df, cfg).Success? {
      PrepareAttendanceColumns(df, cfg);
      var p := PrepareAttendance(df, cfg).value;
      assert "StaffID" in AttendanceColumns && "SessionID" in AttendanceColumns && "Status" in AttendanceColumns;
      if AttendanceInputOk(df, cfg) {
        assert forall k :: 0 <= k < |AttendanceColumns| ==> AttendanceColumns[k] in p.columns;
        AttendanceStages(df, cfg);
      }
    }
  }

  /** Every cell `transform_attendance` outputs for one row, in terms of the input row: the
      coerced date, the staff member, session and status unchanged, and the id derived
      from them. */
  lemma TransformAttendanceRow(df: Frame, cfg: Config, i: int)
    requires TransformAttendance(df, cfg).Success?
    requires 0 <= i < |df.rows|
    ensures var out := TransformAttendance(df, cfg).value.frame;
      && |out.rows| == |df.rows| && out.rows[i].ix == df.rows[i].ix
      && AttendanceRowFrom(cfg, df.rows[i], out.rows[i].cells)
  {
    AttendanceStages(df, cfg);
    var p := PrepareAttendance(df, cfg).value;
    var out := Select(p, AttendanceColumns).value;
    PrepareAttendanceRow(df, cfg, i);
    assert forall c :: c in AttendanceColumns ==> Cell(out.rows[i].cells, c) == Cell(p.rows[i].cells, c);
  }

  /** `transform_attendance` warns of invalid statuses exactly when some input row has a
      status outside Present, Absent and Leave, a missing one included. */
  lemma TransformAttendanceStatuses(df: Frame, cfg: Config)
    requires TransformAttendance(df, cfg).Success?
    ensures InvalidStatuses in TransformAttendance(df, cfg).value.warnings <==>
      exists i :: 0 <= i < |df.rows| && IsInvalidStatus(Cell(df.rows[i].cells, "Status"))
  {
    AttendanceStages(df, cfg);
    var p := PrepareAttendance(df, cfg).value;
    forall i | 0 <= i < |df.rows|
      ensures i < |p.rows| && Cell(p.rows[i].cells, "Status") == Cell(df.rows[i].cells, "Status")
    {
      PrepareAttendanceRow(df, cfg, i);
    }
  }

  /** `transform_attendance` reports only missing values and invalid statuses, and a
      missing value in any column it outputs is always reported. */
  lemma TransformAttendanceNulls(df: Frame, cfg: Config)
    requires TransformAttendance(df, cfg).Success?
    ensures var t := TransformAttendance(df, cfg).value;
      && (NullInOutput(t.frame, AttendanceColumns) ==> NullValues in t.warnings)
      && (forall w :: w in t.warnings ==> w == NullValues || w == InvalidStatuses)
  {
    AttendanceStages(df, cfg);
    var p := PrepareAttendance(df, cfg).value;
    NullsInOutputReported(p, CheckAttendanceQuality(p).value, AttendanceColumns);
  }

  /** Within one batch the attendance id depends on nothing but the staff member, the
      date and the session: two rows that agree on them get the same id. */
  lemma AttendanceIdDeterministic(df: Frame, cfg: Config, i: int, j: int)
    requires TransformAttendance(df, cfg).Success?
    requires 0 <= i < |df.rows| && 0 <= j < |df.rows|
    requires Cell(df.rows[i].cells, "StaffID") == Cell(df.rows[j].cells, "StaffID")
    requires Cell(df.rows[i].cells, "Date") == Cell(df.rows[j].cells, "Date")
    requires Cell(df.rows[i].cells, "SessionID") == Cell(df.rows[j].cells, "SessionID")
    ensures var out := TransformAttendance(df, cfg).value.frame;
      && |out.rows| == |df.rows|
      && Cell(out.rows[i].cells, "attendance_id") == Cell(out.rows[j].cells, "attendance_id")
  {
    TransformAttendanceRow(df, cfg, i);
    TransformAttendanceRow(df, cfg, j);
  }

  /** The key joins its three parts with `_`, so distinct (staff, date, session) triples can
      share a key, and hence an id, when a part itself contains `_`. */
  lemma AttendanceKeyStringNotInjective()
    ensures exists s1, d1, n1, s2, d2, n2 ::
      && (s1, d1, n1) != (s2, d2, n2)
      && AttendanceKeyString(s1, d1, n1) == AttendanceKeyString(s2, d2, n2)
  {
    assert ("1_2", "x", "y") != ("1", "2_x", "y") by {
      assert |"1_2"| != |"1"|;
    }
    assert AttendanceKeyString("1_2", "x", "y") == AttendanceKeyString("1", "2_x", "y");
  }
}
