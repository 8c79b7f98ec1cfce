/** The attendance page's clock panel: today's record decides whether the
    employee can clock in, clock out, or is done for the day. */
module AttendancePage {

  import opened Wrappers
  import opened Numeric
  import opened Strings
  import Ui

  /** An attendance record as listed: its `record_date`, which the API sends as
      midnight UTC of that calendar day, its clock times as text, and its
      status text. */
  datatype Record = Record(recordDate: Day, clockIn: Option<string>, clockOut: Option<string>, status: string)

  /** JavaScript truthiness of an optional string: present and non-empty. */
  predicate Truthy(s: Option<string>) {
    s.Some? && s.value != ""
  }

  const MinutesPerDay: int := 1440

  /** The browser-local day on which midnight UTC of `utcDay` falls, in a
      browser whose `getTimezoneOffset()` is `offset` minutes (positive west
      of UTC): what `new Date(record_date).toDateString()` names. East of UTC
      (and at UTC) it is the same day; west of UTC it is the day before. */
  function LocalDayOf(utcDay: Day, offset: int): (d: int)
    ensures -MinutesPerDay < offset <= 0 ==> d == utcDay
    ensures 0 < offset <= MinutesPerDay ==> d == utcDay - 1
  {
    var minute := utcDay * MinutesPerDay - offset;
    DivBounds(minute, MinutesPerDay);
    minute / MinutesPerDay
  }

  /** Whether the page takes a record to be today's, `today` being the
      browser-local day of `new Date()`. */
  predicate ShowsAsToday(r: Record, today: int, offset: int) {
    LocalDayOf(r.recordDate, offset) == today
  }

  /** `attendances.find(...)`: the first record whose date, parsed as UTC and
      read in the browser's time zone, is today. */
  function TodayRecord(records: seq<Record>, today: int, offset: int): (r: Option<Record>)
    ensures r.None? <==> forall i :: 0 <= i < |records| ==> !ShowsAsToday(records[i], today, offset)
    ensures r.Some? ==> exists i :: 0 <= i < |records| && records[i] == r.value && ShowsAsToday(records[i], today, offset)
                          && forall j :: 0 <= j < i ==> !ShowsAsToday(records[j], today, offset)
    decreases |records|
  {
    if records == [] then None
    else if ShowsAsToday(records[0], today, offset) then Some(records[0])
    else
      var rest := TodayRecord(records[1..], today, offset);
      assert forall i :: 1 <= i < |records| ==> records[i] == records[1..][i - 1];
      rest
  }

  /** The record the panel is meant to find: the first one whose calendar
      date is the browser's date today, compared as dates. */
  function RecordOn(records: seq<Record>, today: Day): (r: Option<Record>)
    ensures r.None? <==> forall i :: 0 <= i < |records| ==> records[i].recordDate != today
    ensures r.Some? ==> exists i :: 0 <= i < |records| && records[i] == r.value && records[i].recordDate == today
                          && forall j :: 0 <= j < i ==> records[j].recordDate != today
    decreases |records|
  {
    if records == [] then None
    else if records[0].recordDate == today then Some(records[0])
    else
      var rest := RecordOn(records[1..], today);
      assert forall i :: 1 <= i < |records| ==> records[i] == records[1..][i - 1];
      rest
  }

  /** East of UTC, and at UTC, the page finds the record dated today. */
  lemma {:induction false} AsWrittenMatchesEastOfUtc(records: seq<Record>, today: Day, offset: int)
    requires -MinutesPerDay < offset <= 0
    ensures TodayRecord(records, today, offset) == RecordOn(records, today)
    decreases |records|
  {
    if records != [] {
      AsWrittenMatchesEastOfUtc(records[1..], today, offset);
    }
  }

  /** West of UTC the page finds the record dated tomorrow instead of today's. */
  lemma {:induction false} AsWrittenLooksOneDayAheadWestOfUtc(records: seq<Record>, today: Day, offset: int)
    requires 0 < offset <= MinutesPerDay
    ensures TodayRecord(records, today, offset) == RecordOn(records, today + 1)
    decreases |records|
  {
    if records != [] {
      AsWrittenLooksOneDayAheadWestOfUtc(records[1..], today, offset);
    }
  }

  /** Clocked in: today's record has a clock-in time and no clock-out time. */
  function IsClockedIn(today: Option<Record>): (b: bool)
    ensures b <==> today.Some? && Truthy(today.value.clockIn) && !Truthy(today.value.clockOut)
  {
    today.Some? && Truthy(today.value.clockIn) && !Truthy(today.value.clockOut)
  }

  /** Clocked out: today's record has a clock-out time. */
  function IsClockedOut(today: Option<Record>): (b: bool)
    ensures b <==> today.Some? && Truthy(today.value.clockOut)
  {
    today.Some? && Truthy(today.value.clockOut)
  }

  /** The two states never hold together. */
  lemma ClockStatesExclusive(today: Option<Record>)
    ensures !(IsClockedIn(today) && IsClockedOut(today))
  {
  }

  /** The request a click on the clock button makes. */
  datatype ClockCall = ClockInCall | ClockOutCall | NoCall

  /** `handleClockAction`: clock in when in neither state, clock out when
      clocked in, and nothing once clocked out. */
  function ClockAction(today: Option<Record>): (c: ClockCall)
    ensures c == ClockInCall <==> !IsClockedIn(today) && !IsClockedOut(today)
    ensures c == ClockOutCall <==> IsClockedIn(today)
    ensures c == NoCall <==> IsClockedOut(today)
  {
    if !IsClockedIn(today) && !IsClockedOut(today) then ClockInCall
    else if IsClockedIn(today) then ClockOutCall
    else NoCall
  }

  /** The button is disabled once clocked out and while a request is running. */
  function ButtonDisabled(today: Option<Record>, loading: bool): (b: bool)
    ensures b <==> IsClockedOut(today) || loading
  {
    IsClockedOut(today) || loading
  }

  /** What the button shows. */
  datatype ButtonLabel = Spinner | ShiftCompleted | ClockOutLabel | ClockInLabel

  function ButtonLabelOf(today: Option<Record>, loading: bool): (l: ButtonLabel)
    ensures loading <==> l == Spinner
    ensures !loading ==> (l == ShiftCompleted <==> IsClockedOut(today))
    ensures !loading ==> (l == ClockOutLabel <==> IsClockedIn(today))
  {
    if loading then Spinner
    else if IsClockedOut(today) then ShiftCompleted
    else if IsClockedIn(today) then ClockOutLabel
    else ClockInLabel
  }

  /** The label never lies: an enabled button labelled "clock in" clocks in,
      one labelled "clock out" clocks out, and "shift completed" is disabled. */
  lemma LabelMatchesAction(today: Option<Record>)
    ensures ButtonLabelOf(today, false) == ClockInLabel ==> ClockAction(today) == ClockInCall
    ensures ButtonLabelOf(today, false) == ClockOutLabel ==> ClockAction(today) == ClockOutCall
    ensures ButtonLabelOf(today, false) == ShiftCompleted ==>
              ButtonDisabled(today, false) && ClockAction(today) == NoCall
  {
  }

  /** Under the corrected lookup, with no record dated today the employee
      can clock in. */
  lemma NoRecordMeansClockIn(records: seq<Record>, today: Day)
    requires forall i :: 0 <= i < |records| ==> records[i].recordDate != today
    ensures ClockAction(RecordOn(records, today)) == ClockInCall
  {
  }

  /** As the page runs: with no record that reads as today in the browser's
      time zone, the employee can clock in. */
  lemma NothingShownAsTodayMeansClockIn(records: seq<Record>, today: int, offset: int)
    requires forall i :: 0 <= i < |records| ==> !ShowsAsToday(records[i], today, offset)
    ensures ClockAction(TodayRecord(records, today, offset)) == ClockInCall
  {
  }

  /** The day 20000 with one record, clocked in at nine and not yet out. */
  function ClockedInToday(): (records: seq<Record>)
    ensures |records| == 1 && records[0].recordDate == 20000
    ensures IsClockedIn(Some(records[0]))
  {
    [Record(20000, Some("09:00:00"), None, "present")]
  }

  /** In a browser five hours west of UTC, an employee who has clocked in
      today is offered "clock in" again: the page reads the record as
      yesterday's. Comparing dates finds the record and offers "clock out". */
  lemma ClockInOfferedAgainWestOfUtc()
    ensures ClockAction(TodayRecord(ClockedInToday(), 20000, 300)) == ClockInCall
    ensures ClockAction(RecordOn(ClockedInToday(), 20000)) == ClockOutCall
  {
    var records := ClockedInToday();
    assert LocalDayOf(records[0].recordDate, 300) == 19999;
  }

  /** `getStatusChipColor`, on the lower-cased status. */
  function StatusChipColour(status: string): (c: Ui.Colour)
    ensures c == Ui.Success <==> ToLower(status) == "present"
    ensures c == Ui.Warning <==> ToLower(status) == "late"
    ensures c == Ui.Error <==> ToLower(status) == "absent"
    ensures c == Ui.Info <==> ToLower(status) == "on_leave"
    ensures c == Ui.Default <==> ToLower(status) !in {"present", "late", "absent", "on_leave"}
  {
    var s := ToLower(status);
    if s == "present" then Ui.Success
    else if s == "late" then Ui.Warning
    else if s == "absent" then Ui.Error
    else if s == "on_leave" then Ui.Info
    else Ui.Default
  }
}
