/** An employee's salary structure: its money columns, the `decimal:2` cast
    that brings every amount to two decimal places, and the
    `total_allowances` accessor. Amounts are integer cents. */
module SalaryStructure {

  import opened Wrappers
  import opened Numeric

  /** A decimal number `unscaled / 10^scale`, as handed to the cast. */
  datatype Decimal = Decimal(unscaled: int, scale: nat)

  function Pow10(k: nat): (r: nat)
    ensures r >= 1
  {
    if k == 0 then 1 else 10 * Pow10(k - 1)
  }

  /** `n / m` rounded to the nearest integer, ties away from zero
      (the HALF_UP rounding mode of the decimal cast). */
  function RoundHalfUp(n: int, m: nat): (r: int)
    requires m > 0
    ensures n >= 0 ==> (2 * r - 1) * m <= 2 * n < (2 * r + 1) * m
    ensures n < 0 ==> (2 * r - 1) * m < 2 * n <= (2 * r + 1) * m
  {
    if n >= 0 then
      DivBounds(2 * n + m, 2 * m);
      (2 * n + m) / (2 * m)
    else
      DivBounds(-2 * n + m, 2 * m);
      -((-2 * n + m) / (2 * m))
  }

  /** The `decimal:2` cast: the amount in cents, rounded half up when the
      input carries more than two decimal places. */
  function CastDecimal2(d: Decimal): (c: Cents)
    ensures KeepsValue(d, c)
    ensures d.scale > 2 && d.unscaled >= 0 ==>
              (2 * c - 1) * Pow10(d.scale - 2) <= 2 * d.unscaled < (2 * c + 1) * Pow10(d.scale - 2)
    ensures d.scale > 2 && d.unscaled < 0 ==>
              (2 * c - 1) * Pow10(d.scale - 2) < 2 * d.unscaled <= (2 * c + 1) * Pow10(d.scale - 2)
  {
    if d.scale <= 2 then
      ScaleExact(d.scale);
      d.unscaled * Pow10(2 - d.scale)
    else RoundHalfUp(d.unscaled, Pow10(d.scale - 2))
  }

  /** Casting an amount that already has two decimal places changes nothing. */
  lemma CastIdempotent(c: Cents)
    ensures CastDecimal2(Decimal(c, 2)) == c
  {
  }

  /** The cast lands within half a cent of the input value. */
  lemma {:induction false} CastWithinHalfCent(d: Decimal)
    requires d.scale > 2
    ensures var m: int := Pow10(d.scale - 2);
            var c := CastDecimal2(d);
            -m <= 2 * (c * m - d.unscaled) <= m
  {
    var m := Pow10(d.scale - 2);
    var c := CastDecimal2(d);
    assert 2 * c * m == 2 * (c * m);
  }

  /** A salary structure row after the casts. `taxRate` is a percentage in
      hundredths; `effectiveTo` of None means open-ended. */
  datatype SalaryStructure = SalaryStructure(
    employeeId: nat,
    basicSalary: Cents,
    housingAllowance: Cents,
    transportAllowance: Cents,
    otherAllowances: Cents,
    taxRate: int,
    socialInsurance: Cents,
    currency: string,
    effectiveFrom: nat,
    effectiveTo: Option<nat>,
    active: bool)

  /** The raw attribute values before the casts. */
  datatype SalaryInput = SalaryInput(
    employeeId: nat,
    basicSalary: Decimal,
    housingAllowance: Decimal,
    transportAllowance: Decimal,
    otherAllowances: Decimal,
    taxRate: Decimal,
    socialInsurance: Decimal,
    currency: string,
    effectiveFrom: nat,
    effectiveTo: Option<nat>,
    active: bool)

  /** Reading a row applies the `decimal:2` cast to each of the six money
      columns; amounts given to two places or fewer come through unchanged. */
  function FromInput(i: SalaryInput): (s: SalaryStructure)
    ensures s.employeeId == i.employeeId && s.currency == i.currency
    ensures s.effectiveFrom == i.effectiveFrom && s.effectiveTo == i.effectiveTo && s.active == i.active
    ensures KeepsValue(i.basicSalary, s.basicSalary)
    ensures KeepsValue(i.housingAllowance, s.housingAllowance)
    ensures KeepsValue(i.transportAllowance, s.transportAllowance)
    ensures KeepsValue(i.otherAllowances, s.otherAllowances)
    ensures KeepsValue(i.taxRate, s.taxRate)
    ensures KeepsValue(i.socialInsurance, s.socialInsurance)
  {
    SalaryStructure(
      i.employeeId,
      CastDecimal2(i.basicSalary),
      CastDecimal2(i.housingAllowance),
      CastDecimal2(i.transportAllowance),
      CastDecimal2(i.otherAllowances),
      CastDecimal2(i.taxRate),
      CastDecimal2(i.socialInsurance),
      i.currency,
      i.effectiveFrom,
      i.effectiveTo,
      i.active)
  }

  /** `c` cents is the value of `d` whenever `d` has at most two decimal places. */
  predicate KeepsValue(d: Decimal, c: Cents) {
    d.scale <= 2 ==> c * Pow10(d.scale) == d.unscaled * 100
  }

  lemma ScaleExact(k: nat)
    requires k <= 2
    ensures Pow10(2 - k) * Pow10(k) == 100
  {
  }

  predicate NonNegativeAllowances(s: SalaryStructure) {
    s.housingAllowance >= 0 && s.transportAllowance >= 0 && s.otherAllowances >= 0
  }

  /** `total_allowances`: the housing, transport and other allowances together. */
  function TotalAllowances(s: SalaryStructure): (r: Cents)
    ensures NonNegativeAllowances(s) ==>
              r >= s.housingAllowance && r >= s.transportAllowance && r >= s.otherAllowances
    ensures NonNegativeAllowances(s) ==> r >= 0
  {
    s.housingAllowance + s.transportAllowance + s.otherAllowances
  }

  /** The total depends only on the three allowances: basic salary, tax rate,
      social insurance and the other columns play no part. */
  lemma TotalAllowancesIgnoresOtherColumns(a: SalaryStructure, b: SalaryStructure)
    requires a.housingAllowance == b.housingAllowance
    requires a.transportAllowance == b.transportAllowance
    requires a.otherAllowances == b.otherAllowances
    ensures TotalAllowances(a) == TotalAllowances(b)
  {
  }

  /** Raising any one allowance raises the total by exactly that much, in
      the model's integer cents (the source adds the cast values as floats). */
  lemma TotalAllowancesExact(s: SalaryStructure, delta: Cents)
    ensures TotalAllowances(s.(housingAllowance := s.housingAllowance + delta)) == TotalAllowances(s) + delta
    ensures TotalAllowances(s.(transportAllowance := s.transportAllowance + delta)) == TotalAllowances(s) + delta
    ensures TotalAllowances(s.(otherAllowances := s.otherAllowances + delta)) == TotalAllowances(s) + delta
  {
  }
}
