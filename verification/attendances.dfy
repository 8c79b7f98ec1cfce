/** The `attendances` table: one row per employee per calendar day, with
    optional clock-in and clock-out times. */
module Attendances {

  import opened Wrappers
  import opened Numeric
  import opened Tables

  /** The `status` enum column; `present` is its default. */
  datatype AttendanceStatus = Present | Late | Absent | HalfDay | OnLeave

  function AttendanceStatusName(s: AttendanceStatus): string {
    match s
    case Present => "present"
    case Late => "late"
    case Absent => "absent"
    case HalfDay => "half_day"
    case OnLeave => "on_leave"
  }

  /** Reading the enum column's text: only the five listed values are accepted. */
  function ParseAttendanceStatus(text: string): (r: Option<AttendanceStatus>)
    ensures r.Some? <==> text in {"present", "late", "absent", "half_day", "on_leave"}
    ensures r.Some? ==> AttendanceStatusName(r.value) == text
  {
    if text == "present" then Some(Present)
    else if text == "late" then Some(Late)
    else if text == "absent" then Some(Absent)
    else if text == "half_day" then Some(HalfDay)
    else if text == "on_leave" then Some(OnLeave)
    else None
  }

  lemma AttendanceStatusRoundTrip(s: AttendanceStatus)
    ensures ParseAttendanceStatus(AttendanceStatusName(s)) == Some(s)
  {
  }

  /** A stored attendance row. Hours in hundredths. */
  datatype Attendance = Attendance(
    employeeId: nat,
    recordDate: Day,
    clockIn: Option<Timestamp>,
    clockOut: Option<Timestamp>,
    clockInIp: Option<string>,
    clockOutIp: Option<string>,
    shiftId: Option<nat>,
    status: AttendanceStatus,
    totalHours: Option<Hundredths>,
    overtimeHours: Hundredths,
    lateMinutes: int,
    notes: Option<string>)

  /** The unique index `(employee_id, record_date)`. */
  function Key(a: Attendance): (nat, Day) {
    (a.employeeId, a.recordDate)
  }

  /** The columns an INSERT supplies; None is a column left out. */
  datatype NewAttendance = NewAttendance(
    employeeId: Option<nat>,
    recordDate: Option<Day>,
    clockIn: Option<Timestamp>,
    clockOut: Option<Timestamp>,
    clockInIp: Option<string>,
    clockOutIp: Option<string>,
    shiftId: Option<nat>,
    status: Option<string>,
    totalHours: Option<Hundredths>,
    overtimeHours: Option<Hundredths>,
    lateMinutes: Option<int>,
    notes: Option<string>)

  function MissingColumns(n: NewAttendance): (cols: seq<string>)
    ensures |cols| == 0 <==> n.employeeId.Some? && n.recordDate.Some?
  {
    (if n.employeeId.None? then ["employee_id"] else [])
    + (if n.recordDate.None? then ["record_date"] else [])
  }

  /** The row an INSERT stores: refused when the employee or the date is
      missing or the status text is not an enum value; otherwise status is
      present, overtime and lateness are 0, and the nullable columns stay
      empty unless given. */
  function NewRow(n: NewAttendance): (r: Result<Attendance, DbError>)
    ensures r.Failure? <==>
              |MissingColumns(n)| > 0 || (n.status.Some? && ParseAttendanceStatus(n.status.value).None?)
    ensures r.Failure? && |MissingColumns(n)| > 0 ==> r.error == MissingValue(MissingColumns(n)[0])
    ensures r.Success? ==>
              && Some(r.value.employeeId) == n.employeeId && Some(r.value.recordDate) == n.recordDate
              && r.value.clockIn == n.clockIn && r.value.clockOut == n.clockOut
              && r.value.clockInIp == n.clockInIp && r.value.clockOutIp == n.clockOutIp
              && r.value.shiftId == n.shiftId && r.value.totalHours == n.totalHours
              && r.value.notes == n.notes
    ensures r.Success? ==>
              && (n.status.None? ==> r.value.status == Present)
              && (n.status.Some? ==> AttendanceStatusName(r.value.status) == n.status.value)
              && r.value.overtimeHours == n.overtimeHours.GetOr(0)
              && r.value.lateMinutes == n.lateMinutes.GetOr(0)
  {
    var missing := MissingColumns(n);
    if |missing| > 0 then Failure(MissingValue(missing[0]))
    else if n.status.Some? && ParseAttendanceStatus(n.status.value).None? then
      Failure(InvalidEnum("status", n.status.value))
    else
      Success(Attendance(
        n.employeeId.value, n.recordDate.value,
        n.clockIn, n.clockOut, n.clockInIp, n.clockOutIp, n.shiftId,
        if n.status.Some? then ParseAttendanceStatus(n.status.value).value else Present,
        n.totalHours, n.overtimeHours.GetOr(0), n.lateMinutes.GetOr(0), n.notes))
  }

  /** The payload naming only the employee and the day. */
  function DayOnly(employee: nat, day: Day): NewAttendance {
    NewAttendance(Some(employee), Some(day), None, None, None, None, None, None, None, None, None, None)
  }

  /** A row may exist with neither clock time: naming the employee and the day
      suffices, and gives a present day with no overtime and no lateness. */
  lemma DayOnlyRowIsPresent(employee: nat, day: Day)
    ensures NewRow(DayOnly(employee, day))
            == Success(Attendance(employee, day, None, None, None, None, None, Present, None, 0, 0, None))
  {
  }
}
