/** The payroll page: the selected period's totals (taken from the period,
    or summed over its records when the period's figure is zero), the status
    chip colour, and the guards on the calculate and create buttons. */
module PayrollPage {

  import opened Wrappers
  import opened Numeric
  import opened Strings
  import Ui

  /** A period as listed: id, status text and its three stored totals. */
  datatype Period = Period(id: nat, status: string, totalGross: Cents, totalDeductions: Cents, totalNet: Cents)

  /** A payroll record's three summary amounts. */
  datatype Record = Record(gross: Cents, deductions: Cents, net: Cents)

  /** `records.reduce((acc, r) => acc + Number(r.gross_salary), 0)` and its two siblings. */
  function SumGross(records: seq<Record>): Cents {
    if records == [] then 0 else records[0].gross + SumGross(records[1..])
  }

  function SumDeductions(records: seq<Record>): Cents {
    if records == [] then 0 else records[0].deductions + SumDeductions(records[1..])
  }

  function SumNet(records: seq<Record>): Cents {
    if records == [] then 0 else records[0].net + SumNet(records[1..])
  }

  /** A record whose net pay is its gross pay less its deductions. */
  predicate Balanced(r: Record) {
    r.net == r.gross - r.deductions
  }

  /** If every record balances, so do the sums. */
  lemma {:induction false} SumsBalance(records: seq<Record>)
    requires forall i :: 0 <= i < |records| ==> Balanced(records[i])
    ensures SumNet(records) == SumGross(records) - SumDeductions(records)
    decreases |records|
  {
    if records != [] {
      assert forall i :: 1 <= i < |records| ==> records[i] == records[1..][i - 1];
      SumsBalance(records[1..]);
    }
  }

  /** `periods.find(p => p.id === selectedPeriod)`; no selection is None. */
  function CurrentPeriod(periods: seq<Period>, selected: Option<nat>): (r: Option<Period>)
    ensures r.Some? ==> r.value in periods && selected == Some(r.value.id)
    ensures r.None? ==> selected.None? || forall i :: 0 <= i < |periods| ==> periods[i].id != selected.value
    decreases |periods|
  {
    if selected.None? || periods == [] then None
    else if periods[0].id == selected.value then Some(periods[0])
    else
      assert forall i :: 1 <= i < |periods| ==> periods[i] == periods[1..][i - 1];
      CurrentPeriod(periods[1..], selected)
  }

  /** `period?.total || sum`: the stored figure unless there is no period or
      the figure is 0, in which case the sum over the records. */
  function OrSum(stored: Option<Cents>, sum: Cents): (shown: Cents)
    ensures stored.Some? && stored.value != 0 ==> shown == stored.value
    ensures stored.None? || stored.value == 0 ==> shown == sum
  {
    if stored.Some? && stored.value != 0 then stored.value else sum
  }

  /** The three figures at the top of the page. */
  datatype Totals = Totals(gross: Cents, deductions: Cents, net: Cents)

  function Shown(period: Option<Period>, records: seq<Record>): (t: Totals)
    ensures t.gross == OrSum(if period.Some? then Some(period.value.totalGross) else None, SumGross(records))
    ensures t.deductions == OrSum(if period.Some? then Some(period.value.totalDeductions) else None, SumDeductions(records))
    ensures t.net == OrSum(if period.Some? then Some(period.value.totalNet) else None, SumNet(records))
  {
    match period
    case None => Totals(SumGross(records), SumDeductions(records), SumNet(records))
    case Some(p) =>
      Totals(OrSum(Some(p.totalGross), SumGross(records)),
             OrSum(Some(p.totalDeductions), SumDeductions(records)),
             OrSum(Some(p.totalNet), SumNet(records)))
  }

  /** A period whose totals are still the zero defaults shows the record sums. */
  lemma ZeroTotalsFallBack(p: Period, records: seq<Record>)
    requires p.totalGross == 0 && p.totalDeductions == 0 && p.totalNet == 0
    ensures Shown(Some(p), records) == Totals(SumGross(records), SumDeductions(records), SumNet(records))
  {
  }

  /** When all three figures fall back and every record balances, the shown
      net is the shown gross less the shown deductions. */
  lemma ShownTotalsBalance(period: Option<Period>, records: seq<Record>)
    requires period.Some? ==> period.value.totalGross == 0 && period.value.totalDeductions == 0 && period.value.totalNet == 0
    requires forall i :: 0 <= i < |records| ==> Balanced(records[i])
    ensures Shown(period, records).net == Shown(period, records).gross - Shown(period, records).deductions
  {
    SumsBalance(records);
  }

  /** A stored, non-zero figure wins, whatever the records say. */
  lemma StoredTotalWins(p: Period, records: seq<Record>)
    requires p.totalGross != 0
    ensures Shown(Some(p), records).gross == p.totalGross
  {
  }

  /** How a period's stored totals reach the page. The period model casts
      them as `decimal:2`, which Laravel serialises as a string such as
      "0.00"; a JSON number would be the other form. */
  datatype Wire = AsNumber | AsDecimalString

  /** Whether `period?.total` is truthy: a non-empty string always is, a
      number only when it is not zero. */
  predicate Truthy(wire: Wire, stored: Cents) {
    wire == AsDecimalString || stored != 0
  }

  /** `period?.total || sum` for totals served in the given form. */
  function OrSumServed(wire: Wire, stored: Option<Cents>, sum: Cents): (shown: Cents)
    ensures stored.Some? && Truthy(wire, stored.value) ==> shown == stored.value
    ensures stored.None? || !Truthy(wire, stored.value) ==> shown == sum
    ensures wire == AsNumber ==> shown == OrSum(stored, sum)
  {
    if stored.Some? && Truthy(wire, stored.value) then stored.value else sum
  }

  /** The three figures for totals served in the given form. Served as
      numbers they are `Shown`; served as decimal strings, a loaded period's
      stored totals are always shown, zero or not. */
  function ShownServed(wire: Wire, period: Option<Period>, records: seq<Record>): (t: Totals)
    ensures wire == AsNumber ==> t == Shown(period, records)
    ensures wire == AsDecimalString && period.Some? ==>
              t == Totals(period.value.totalGross, period.value.totalDeductions, period.value.totalNet)
    ensures period.None? ==> t == Totals(SumGross(records), SumDeductions(records), SumNet(records))
  {
    match period
    case None => Totals(SumGross(records), SumDeductions(records), SumNet(records))
    case Some(p) =>
      Totals(OrSumServed(wire, Some(p.totalGross), SumGross(records)),
             OrSumServed(wire, Some(p.totalDeductions), SumDeductions(records)),
             OrSumServed(wire, Some(p.totalNet), SumNet(records)))
  }

  /** With decimal strings the fallback never fires for a loaded period: a
      period whose totals are still zero shows zero although its one record
      carries pay, where numeric totals would show the record. */
  lemma ZeroStringTotalsHideRecords()
    ensures ShownServed(AsDecimalString, Some(Period(1, "draft", 0, 0, 0)), [Record(100000, 10000, 90000)]).gross == 0
    ensures ShownServed(AsNumber, Some(Period(1, "draft", 0, 0, 0)), [Record(100000, 10000, 90000)]).gross == 100000
  {
    assert SumGross([Record(100000, 10000, 90000)]) == 100000;
  }

  /** `handleCalculate` asks the server to calculate only when a period is
      selected (a falsy id, such as 0, counts as none). */
  function CalculateRequest(selected: Option<nat>): (r: Option<nat>)
    ensures r.Some? <==> selected.Some? && selected.value != 0
    ensures r.Some? ==> r == selected
  {
    if selected.Some? && selected.value != 0 then selected else None
  }

  /** `getStatusColor`, on the lower-cased status. */
  function StatusColour(status: string): (c: Ui.Colour)
    ensures c == Ui.Success <==> ToLower(status) == "approved"
    ensures c == Ui.Info <==> ToLower(status) == "paid"
    ensures c == Ui.Warning <==> ToLower(status) == "processing"
    ensures c == Ui.Default <==> ToLower(status) !in {"approved", "paid", "processing"}
  {
    var s := ToLower(status);
    if s == "draft" then Ui.Default
    else if s == "approved" then Ui.Success
    else if s == "paid" then Ui.Info
    else if s == "processing" then Ui.Warning
    else Ui.Default
  }

  /** Status colours ignore letter case. */
  lemma StatusColourIgnoresCase(status: string)
    ensures StatusColour(ToLower(status)) == StatusColour(status)
  {
    ToLowerIdempotent(status);
  }

  /** The new-period form. */
  datatype PeriodForm = PeriodForm(name: string, startDate: string, endDate: string, workingDays: int)

  const InitialForm: PeriodForm := PeriodForm("", "", "", 22)

  /** The create button is disabled unless name, start and end are all filled in. */
  function CreateDisabled(f: PeriodForm): (b: bool)
    ensures !b <==> f.name != "" && f.startDate != "" && f.endDate != ""
  {
    f.name == "" || f.startDate == "" || f.endDate == ""
  }

  /** The untouched form cannot be submitted. */
  lemma InitialFormDisabled()
    ensures CreateDisabled(InitialForm)
  {
  }
}
