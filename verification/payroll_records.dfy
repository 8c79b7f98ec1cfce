/** The `payroll_records` table: one employee's pay for one payroll period,
    at most one row per (employee, period) pair. */
module PayrollRecords {

  import opened Wrappers
  import opened Numeric
  import opened Tables

  /** The `status` enum column; `draft` is its default. */
  datatype RecordStatus = Draft | Approved | Paid

  function RecordStatusName(s: RecordStatus): string {
    match s
    case Draft => "draft"
    case Approved => "approved"
    case Paid => "paid"
  }

  /** Reading the enum column's text: only the three listed values are accepted. */
  function ParseRecordStatus(text: string): (r: Option<RecordStatus>)
    ensures r.Some? <==> text in {"draft", "approved", "paid"}
    ensures r.Some? ==> RecordStatusName(r.value) == text
  {
    if text == "draft" then Some(Draft)
    else if text == "approved" then Some(Approved)
    else if text == "paid" then Some(Paid)
    else None
  }

  lemma RecordStatusRoundTrip(s: RecordStatus)
    ensures ParseRecordStatus(RecordStatusName(s)) == Some(s)
  {
  }

  /** A stored record. Money in cents, overtime hours in hundredths. */
  datatype PayrollRecord = PayrollRecord(
    employeeId: nat,
    periodId: nat,
    basicSalary: Cents,
    allowances: Cents,
    bonuses: Cents,
    overtimePay: Cents,
    grossSalary: Cents,
    taxDeduction: Cents,
    insuranceDeduction: Cents,
    otherDeductions: Cents,
    totalDeductions: Cents,
    netSalary: Cents,
    daysWorked: int,
    daysAbsent: int,
    overtimeHours: Hundredths,
    status: RecordStatus,
    notes: Option<string>)

  /** The unique index `(employee_id, payroll_period_id)`. */
  function Key(r: PayrollRecord): (nat, nat) {
    (r.employeeId, r.periodId)
  }

  /** The columns an INSERT supplies; None is a column left out. */
  datatype NewRecord = NewRecord(
    employeeId: Option<nat>,
    periodId: Option<nat>,
    basicSalary: Option<Cents>,
    allowances: Option<Cents>,
    bonuses: Option<Cents>,
    overtimePay: Option<Cents>,
    grossSalary: Option<Cents>,
    taxDeduction: Option<Cents>,
    insuranceDeduction: Option<Cents>,
    otherDeductions: Option<Cents>,
    totalDeductions: Option<Cents>,
    netSalary: Option<Cents>,
    daysWorked: Option<int>,
    daysAbsent: Option<int>,
    overtimeHours: Option<Hundredths>,
    status: Option<string>,
    notes: Option<string>)

  /** The NOT NULL columns without a default that `n` leaves out, in column order. */
  function MissingColumns(n: NewRecord): (cols: seq<string>)
    ensures |cols| == 0 <==>
              && n.employeeId.Some? && n.periodId.Some?
              && n.basicSalary.Some? && n.grossSalary.Some?
              && n.totalDeductions.Some? && n.netSalary.Some?
  {
    (if n.employeeId.None? then ["employee_id"] else [])
    + (if n.periodId.None? then ["payroll_period_id"] else [])
    + (if n.basicSalary.None? then ["basic_salary"] else [])
    + (if n.grossSalary.None? then ["gross_salary"] else [])
    + (if n.totalDeductions.None? then ["total_deductions"] else [])
    + (if n.netSalary.None? then ["net_salary"] else [])
  }

  /** The row an INSERT stores: refused when a required column is missing or
      the status text is not an enum value; omitted earnings, deductions,
      day counts and overtime hours are 0 and an omitted status is draft. */
  function NewRow(n: NewRecord): (r: Result<PayrollRecord, DbError>)
    ensures r.Failure? <==>
              |MissingColumns(n)| > 0 || (n.status.Some? && ParseRecordStatus(n.status.value).None?)
    ensures r.Failure? && |MissingColumns(n)| > 0 ==> r.error == MissingValue(MissingColumns(n)[0])
    ensures r.Success? ==>
              && Some(r.value.employeeId) == n.employeeId && Some(r.value.periodId) == n.periodId
              && Some(r.value.basicSalary) == n.basicSalary && Some(r.value.grossSalary) == n.grossSalary
              && Some(r.value.totalDeductions) == n.totalDeductions && Some(r.value.netSalary) == n.netSalary
              && r.value.notes == n.notes
    ensures r.Success? ==>
              && (n.status.None? ==> r.value.status == Draft)
              && (n.status.Some? ==> RecordStatusName(r.value.status) == n.status.value)
    ensures r.Success? ==>
              && r.value.allowances == n.allowances.GetOr(0)
              && r.value.bonuses == n.bonuses.GetOr(0)
              && r.value.overtimePay == n.overtimePay.GetOr(0)
              && r.value.taxDeduction == n.taxDeduction.GetOr(0)
              && r.value.insuranceDeduction == n.insuranceDeduction.GetOr(0)
              && r.value.otherDeductions == n.otherDeductions.GetOr(0)
              && r.value.daysWorked == n.daysWorked.GetOr(0)
              && r.value.daysAbsent == n.daysAbsent.GetOr(0)
              && r.value.overtimeHours == n.overtimeHours.GetOr(0)
  {
    var missing := MissingColumns(n);
    if |missing| > 0 then Failure(MissingValue(missing[0]))
    else if n.status.Some? && ParseRecordStatus(n.status.value).None? then
      Failure(InvalidEnum("status", n.status.value))
    else
      Success(PayrollRecord(
        n.employeeId.value, n.periodId.value,
        n.basicSalary.value, n.allowances.GetOr(0), n.bonuses.GetOr(0), n.overtimePay.GetOr(0),
        n.grossSalary.value,
        n.taxDeduction.GetOr(0), n.insuranceDeduction.GetOr(0), n.otherDeductions.GetOr(0),
        n.totalDeductions.value,
        n.netSalary.value,
        n.daysWorked.GetOr(0), n.daysAbsent.GetOr(0), n.overtimeHours.GetOr(0),
        if n.status.Some? then ParseRecordStatus(n.status.value).value else Draft,
        n.notes))
  }

  /** The payload that supplies only the required columns. */
  function RequiredOnly(employee: nat, period: nat, basic: Cents, gross: Cents, deductions: Cents, net: Cents): NewRecord {
    NewRecord(Some(employee), Some(period), Some(basic), None, None, None, Some(gross),
              None, None, None, Some(deductions), Some(net), None, None, None, None, None)
  }

  /** A record created with only its required columns is a draft whose optional
      earnings, deductions, day counts and overtime are all zero. */
  lemma FreshRecordIsZeroDraft(employee: nat, period: nat, basic: Cents, gross: Cents, deductions: Cents, net: Cents)
    ensures NewRow(RequiredOnly(employee, period, basic, gross, deductions, net))
            == Success(PayrollRecord(employee, period, basic, 0, 0, 0, gross, 0, 0, 0, deductions, net,
                                     0, 0, 0, Draft, None))
  {
  }

  /** None of the four summary amounts can be left to a default. */
  lemma SummaryAmountsRequired(n: NewRecord)
    requires n.basicSalary.None? || n.grossSalary.None? || n.totalDeductions.None? || n.netSalary.None?
    ensures NewRow(n).Failure?
  {
  }
}
