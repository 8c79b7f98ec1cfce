/** The `payroll_periods` table: one pay run (e.g. "January 2026") with its
    status, working days, totals and the user who approved it. */
module PayrollPeriods {

  import opened Wrappers
  import opened Numeric
  import opened Tables

  /** The `status` enum column; `draft` is its default. */
  datatype PeriodStatus = Draft | Processing | Approved | Paid | Cancelled

  function PeriodStatusName(s: PeriodStatus): string {
    match s
    case Draft => "draft"
    case Processing => "processing"
    case Approved => "approved"
    case Paid => "paid"
    case Cancelled => "cancelled"
  }

  /** Reading the enum column's text: only the five listed values are accepted. */
  function ParsePeriodStatus(text: string): (r: Option<PeriodStatus>)
    ensures r.Some? <==> text in {"draft", "processing", "approved", "paid", "cancelled"}
    ensures r.Some? ==> PeriodStatusName(r.value) == text
  {
    if text == "draft" then Some(Draft)
    else if text == "processing" then Some(Processing)
    else if text == "approved" then Some(Approved)
    else if text == "paid" then Some(Paid)
    else if text == "cancelled" then Some(Cancelled)
    else None
  }

  /** Every status is stored under a name that reads back as itself. */
  lemma PeriodStatusRoundTrip(s: PeriodStatus)
    ensures ParsePeriodStatus(PeriodStatusName(s)) == Some(s)
  {
  }

  /** A stored period. */
  datatype PayrollPeriod = PayrollPeriod(
    name: string,
    startDate: Day,
    endDate: Day,
    status: PeriodStatus,
    workingDays: int,
    totalGross: Cents,
    totalDeductions: Cents,
    totalNet: Cents,
    approvedBy: Option<nat>,
    approvedAt: Option<Timestamp>)

  /** The columns an INSERT supplies; None is a column left out. */
  datatype NewPeriod = NewPeriod(
    name: Option<string>,
    startDate: Option<Day>,
    endDate: Option<Day>,
    status: Option<string>,
    workingDays: Option<int>,
    totalGross: Option<Cents>,
    totalDeductions: Option<Cents>,
    totalNet: Option<Cents>,
    approvedBy: Option<nat>,
    approvedAt: Option<Timestamp>)

  /** The NOT NULL columns without a default that `n` leaves out, in column order. */
  function MissingColumns(n: NewPeriod): (cols: seq<string>)
    ensures |cols| == 0 <==> n.name.Some? && n.startDate.Some? && n.endDate.Some? && n.workingDays.Some?
  {
    (if n.name.None? then ["name"] else [])
    + (if n.startDate.None? then ["start_date"] else [])
    + (if n.endDate.None? then ["end_date"] else [])
    + (if n.workingDays.None? then ["working_days"] else [])
  }

  /** The row an INSERT stores: refused when a required column is missing or
      the status text is not one of the enum's values; otherwise the omitted
      columns take their defaults (draft, zero totals, no approval). */
  function NewRow(n: NewPeriod): (r: Result<PayrollPeriod, DbError>)
    ensures r.Failure? <==>
              |MissingColumns(n)| > 0 || (n.status.Some? && ParsePeriodStatus(n.status.value).None?)
    ensures r.Failure? && |MissingColumns(n)| > 0 ==> r.error == MissingValue(MissingColumns(n)[0])
    ensures r.Success? ==>
              && Some(r.value.name) == n.name && Some(r.value.startDate) == n.startDate
              && Some(r.value.endDate) == n.endDate && Some(r.value.workingDays) == n.workingDays
              && r.value.approvedBy == n.approvedBy && r.value.approvedAt == n.approvedAt
    ensures r.Success? ==>
              && (n.status.None? ==> r.value.status == Draft)
              && (n.status.Some? ==> PeriodStatusName(r.value.status) == n.status.value)
    ensures r.Success? ==>
              && r.value.totalGross == n.totalGross.GetOr(0)
              && r.value.totalDeductions == n.totalDeductions.GetOr(0)
              && r.value.totalNet == n.totalNet.GetOr(0)
  {
    var missing := MissingColumns(n);
    if |missing| > 0 then Failure(MissingValue(missing[0]))
    else if n.status.Some? && ParsePeriodStatus(n.status.value).None? then
      Failure(InvalidEnum("status", n.status.value))
    else
      Success(PayrollPeriod(
        n.name.value, n.startDate.value, n.endDate.value,
        if n.status.Some? then ParsePeriodStatus(n.status.value).value else Draft,
        n.workingDays.value,
        n.totalGross.GetOr(0), n.totalDeductions.GetOr(0), n.totalNet.GetOr(0),
        n.approvedBy, n.approvedAt))
  }

  /** The payload that supplies only the four required columns. */
  function RequiredOnly(name: string, start: Day, end: Day, workingDays: int): NewPeriod {
    NewPeriod(Some(name), Some(start), Some(end), None, Some(workingDays), None, None, None, None, None)
  }

  /** A period created with only its required columns is a draft with zero
      totals and no approval. */
  lemma FreshPeriodIsUnapprovedDraft(name: string, start: Day, end: Day, workingDays: int)
    ensures NewRow(RequiredOnly(name, start, end, workingDays))
            == Success(PayrollPeriod(name, start, end, Draft, workingDays, 0, 0, 0, None, None))
  {
  }

  /** A period cannot be created without its number of working days, whatever else is given. */
  lemma WorkingDaysRequired(n: NewPeriod)
    requires n.workingDays.None?
    ensures NewRow(n).Failure?
  {
  }

  /** `ON DELETE SET NULL` on `approved_by` for the deleted user `user`. */
  function ForgetApprover(p: PayrollPeriod, user: nat): (r: PayrollPeriod)
    ensures r.approvedBy != Some(user)
    ensures p.approvedBy != Some(user) ==> r == p
    ensures r.(approvedBy := p.approvedBy) == p
  {
    if p.approvedBy == Some(user) then p.(approvedBy := None) else p
  }
}
