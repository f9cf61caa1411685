/**
 * The two calculators of the home page: `calculateRent`, the yearly increase by the T\U{00DC}FE
 * (consumer price index) rate of the current year under the 25% cap, and `calculateDebt`,
 * what is owed over a number of months. Number fields are `Option<real>` or `Option<int>`,
 * `None` standing for `NaN`; the contract date is `None` when the field is empty. Today's
 * date is a parameter.
 */
module HomeCalculators {
  import opened Common
  import opened Calendar
  import Calculator

  /** The T\U{00DC}FE rates by year, in percent. */
  const TufeRates: map<int, real> := map[2024 := 64.77, 2023 := 64.27, 2022 := 36.08, 2021 := 19.60, 2020 := 14.60]

  /** The rate used when the current year has none. */
  const DefaultRate: real := 50.0

  /** `tufeRates[currentYear] || 50`: the year's rate, or 50 for a year not listed. */
  function RateFor(year: int): (rate: real)
    ensures year in TufeRates ==> rate == TufeRates[year]
    ensures year !in TufeRates ==> rate == DefaultRate
    ensures rate > 0.0
  {
    if year in TufeRates && TufeRates[year] != 0.0 then TufeRates[year] else DefaultRate
  }

  datatype RentResult =
    | RentMissingFields
      /** A contract made this year: no increase yet. */
    | SameYear
    | RentIncrease(tufeRate: real, actualIncrease: real, newRent: real, increasePercentage: real)

  /**
   * `calculateRent()`: the increase is the smaller of the T\U{00DC}FE increase at this year's rate
   * and a quarter of the previous rent.
   */
  function CalculateRent(contractDate: Option<DateTime>, previousRent: Option<real>, today: DateTime): (r: RentResult)
    ensures r.RentMissingFields? <==> contractDate.None? || Calculator.Falsy(previousRent)
    ensures r.SameYear? <==> !r.RentMissingFields? && contractDate.value.year == today.year
    ensures r.RentIncrease? ==>
      var rent := previousRent.value;
      && r.tufeRate == RateFor(today.year)
      && r.actualIncrease == Min(rent * r.tufeRate / 100.0, rent * 0.25)
      && r.newRent == rent + r.actualIncrease
      && r.increasePercentage == r.actualIncrease / rent * 100.0
  {
    if contractDate.None? || Calculator.Falsy(previousRent) then RentMissingFields
    else if contractDate.value.year == today.year then SameYear
    else
      var rent := previousRent.value;
      var tufeRate := RateFor(today.year);
      var increaseRate := tufeRate / 100.0;
      var maxIncrease := rent * 0.25;
      var tufeIncrease := rent * increaseRate;
      var actualIncrease := Min(tufeIncrease, maxIncrease);
      RentIncrease(tufeRate, actualIncrease, rent + actualIncrease, actualIncrease / rent * 100.0)
  }

  /**
   * For a positive rent the 25% cap decides the new rent in every year except 2020 and 2021,
   * the only listed years whose rate is below 25; the default rate 50 is capped as well.
   */
  lemma CapBindsExceptIn2020And2021(contractDate: DateTime, rent: real, today: DateTime)
    requires rent > 0.0 && contractDate.year != today.year
    ensures var r := CalculateRent(Some(contractDate), Some(rent), today);
      r.RentIncrease? && (r.newRent == rent * 1.25 <==> today.year != 2020 && today.year != 2021)
  {
    var rate := RateFor(today.year);
    if today.year == 2020 || today.year == 2021 {
      assert rate < 25.0;
      assert rent * rate < rent * 25.0;
    } else {
      assert rate > 25.0;
      assert rent * rate > rent * 25.0;
    }
  }

  /**
   * Once both calculators compute an increase at the same rate, they agree on the new rent:
   * a quarter of the rent is the 25% maximum of the calculator page.
   */
  lemma SameIncreaseAsCalculatorPage(contractDate: DateTime, rent: real, today: DateTime)
    requires rent != 0.0 && contractDate.year != today.year
    requires Calculator.MonthsDifference(contractDate, today) >= 12
    ensures var r := CalculateRent(Some(contractDate), Some(rent), today);
      var c := Calculator.TufeIncrease(Some(contractDate), Some(rent), Some(RateFor(today.year)), today);
      r.RentIncrease? && c.Increase? && r.newRent == c.newRent && r.increasePercentage == c.effectiveRate
  {
    assert rent * 0.25 == rent * Calculator.MaxIncreaseRate / 100.0;
  }

  /**
   * The two pages gate the increase differently: a December contract is increased here in
   * January, by year, while the calculator page asks for eleven more months.
   */
  lemma YearGateOpensBeforeMonthGate()
    ensures var contract := DateTime(2023, 11, 15, 0);
      var today := DateTime(2024, 0, 10, 0);
      && CalculateRent(Some(contract), Some(1000.0), today).RentIncrease?
      && Calculator.TufeIncrease(Some(contract), Some(1000.0), Some(64.77), today) == Calculator.TooEarly(11)
  {
    assert Calculator.MonthsDifference(DateTime(2023, 11, 15, 0), DateTime(2024, 0, 10, 0)) == 1;
  }

  // ---------------------------------------------------------------------------------------
  // calculateDebt

  /** The three outcomes: debt (`Bor\U{00E7}`), credit (`Alacak`), settled. */
  datatype DebtStatus = Owed | Credit | Settled

  datatype DebtResult =
    | DebtMissingFields
      /** `difference` is `None` when it is `NaN`. */
    | Debt(totalRent: real, difference: Option<real>, status: DebtStatus)

  /** The exact three-way comparison of `difference` with zero; `NaN` falls to settled. */
  function DebtStatusOf(difference: Option<real>): (s: DebtStatus)
    ensures s == Owed <==> difference.Some? && difference.value > 0.0
    ensures s == Credit <==> difference.Some? && difference.value < 0.0
    ensures s == Settled <==> difference.None? || difference.value == 0.0
  {
    if difference.Some? && difference.value > 0.0 then Owed
    else if difference.Some? && difference.value < 0.0 then Credit
    else Settled
  }

  /**
   * `calculateDebt()` as written: the guard `paidAmount === undefined` never holds for the
   * number `parseFloat` returns, so an empty paid-amount field goes through with `NaN`,
   * which is neither above nor below zero and is reported as fully paid.
   */
  function CalculateDebt(monthlyRent: Option<real>, months: Option<int>, paidAmount: Option<real>): (r: DebtResult)
    ensures r.DebtMissingFields? <==> Calculator.Falsy(monthlyRent) || months.None? || months.value == 0
    ensures r.Debt? ==>
      && r.totalRent == monthlyRent.value * months.value as real
      && (paidAmount.Some? ==> r.difference == Some(r.totalRent - paidAmount.value))
      && (paidAmount.None? ==> r.difference.None?)
      && r.status == DebtStatusOf(r.difference)
  {
    if Calculator.Falsy(monthlyRent) || months.None? || months.value == 0 then DebtMissingFields
    else
      var totalRent := monthlyRent.value * months.value as real;
      var difference := if paidAmount.Some? then Some(totalRent - paidAmount.value) else None;
      Debt(totalRent, difference, DebtStatusOf(difference))
  }

  /** An empty paid-amount field reports the whole period as paid. */
  lemma EmptyPaidAmountReportedAsSettled(monthlyRent: real, months: int)
    requires monthlyRent != 0.0 && months != 0
    ensures CalculateDebt(Some(monthlyRent), Some(months), None) == Debt(monthlyRent * months as real, None, Settled)
  {
  }

  /** The evidently intended check: an empty paid-amount field is a missing field. */
  function CalculateDebtChecked(monthlyRent: Option<real>, months: Option<int>, paidAmount: Option<real>): (r: DebtResult)
    ensures r.DebtMissingFields? <==>
      Calculator.Falsy(monthlyRent) || months.None? || months.value == 0 || paidAmount.None?
    ensures r.Debt? ==> r.difference.Some?
    ensures paidAmount.Some? ==> r == CalculateDebt(monthlyRent, months, paidAmount)
  {
    if paidAmount.None? then DebtMissingFields else CalculateDebt(monthlyRent, months, paidAmount)
  }

  /** With the check, settled means that exactly what is due was paid. */
  lemma CheckedSettledMeansPaidInFull(monthlyRent: Option<real>, months: Option<int>, paidAmount: Option<real>)
    ensures var r := CalculateDebtChecked(monthlyRent, months, paidAmount);
      r.Debt? && r.status == Settled ==> paidAmount.value == r.totalRent
  {
  }

  /**
   * Outside the 0.01 tolerance of the calculator page the two classifications agree: debt is
   * an underpayment and credit an overpayment.
   */
  lemma AgreesWithCalculatorOutsideTolerance(difference: real)
    requires Abs(difference) >= 0.01
    ensures DebtStatusOf(Some(difference)) == Owed <==> Calculator.Classify(Some(difference)) == Calculator.Underpaid
    ensures DebtStatusOf(Some(difference)) == Credit <==> Calculator.Classify(Some(difference)) == Calculator.Overpaid
  {
  }

  /** Within the tolerance they part: half a kuru\U{015F} short is a debt here and complete there. */
  lemma ToleranceSeparatesThePages()
    ensures DebtStatusOf(Some(0.005)) == Owed
    ensures Calculator.Classify(Some(0.005)) == Calculator.Complete
  {
  }
}
