/**
 * The rent calculator page: the T\U{00DC}FE (consumer price index) increase under the 25% legal cap,
 * the check of payments over a period against the monthly rent, and the compounding
 * projection table. A number field read with `parseFloat` or `parseInt` is an
 * `Option<real>` or `Option<int>`, `None` standing for `NaN`; a date field is an
 * `Option<DateTime>`, `None` standing for the empty field. Today's date is a parameter.
 */
module Calculator {
  import opened Common
  import opened Calendar

  /** `this.maxIncreaseRate`: the legal maximum yearly increase, in percent. */
  const MaxIncreaseRate: real := 25.0

  /** `!x` for a number read from a field: true for `NaN` and for zero. */
  predicate Falsy(x: Option<real>)
  {
    x.None? || x.value == 0.0
  }

  /**
   * `getMonthsDifference(date1, date2)`: whole calendar months from the month of `d1` to the
   * month of `d2`, never negative; the days of the month play no part.
   */
  function MonthsDifference(d1: DateTime, d2: DateTime): (n: nat)
    ensures d2.MonthIndex() >= d1.MonthIndex() ==> n == d2.MonthIndex() - d1.MonthIndex()
    ensures d2.MonthIndex() < d1.MonthIndex() ==> n == 0
  {
    var diff := (d2.year - d1.year) * 12 + (d2.month - d1.month);
    if diff > 0 then diff else 0
  }

  /** Moving either date within its month does not change the difference. */
  lemma MonthsDifferenceIgnoresDay(d1: DateTime, d2: DateTime, day1: int, day2: int)
    ensures MonthsDifference(d1.(day := day1), d2.(day := day2)) == MonthsDifference(d1, d2)
  {
  }

  /** A whole year after the contract month, and only then, the difference reaches 12. */
  lemma TwelveMonthsIsOneYearOn(d1: DateTime, d2: DateTime)
    ensures MonthsDifference(d1, d2) >= 12 <==> d2.MonthIndex() >= d1.MonthIndex() + 12
  {
  }

  // ---------------------------------------------------------------------------------------
  // calculateTufeIncrease

  datatype TufeResult =
    | TufeMissingFields
      /** The warning panel: the increase is not yet due, `monthsLeft` more months are needed. */
    | TooEarly(monthsLeft: int)
    | Increase(tufeIncrease: real, maxAllowedIncrease: real, actualIncrease: real,
               newRent: real, effectiveRate: real, isLimited: bool)

  /**
   * `calculateTufeIncrease()` with the contract date, the current rent and the T\U{00DC}FE rate
   * (in percent) read from the form, on day `today`.
   */
  function TufeIncrease(contractDate: Option<DateTime>, currentRent: Option<real>, tufeRate: Option<real>,
                        today: DateTime): (r: TufeResult)
    ensures r.TufeMissingFields? <==> contractDate.None? || Falsy(currentRent) || Falsy(tufeRate)
    ensures r.TooEarly? <==> !r.TufeMissingFields? && MonthsDifference(contractDate.value, today) < 12
    ensures r.TooEarly? ==> 1 <= r.monthsLeft <= 12
    ensures r.Increase? ==>
      var rent, tufe := currentRent.value, tufeRate.value;
      && r.tufeIncrease == rent * tufe / 100.0
      && r.maxAllowedIncrease == rent * MaxIncreaseRate / 100.0
      && r.actualIncrease == Min(r.tufeIncrease, r.maxAllowedIncrease)
      && (r.isLimited <==> r.tufeIncrease > r.maxAllowedIncrease)
      && r.newRent == rent + r.actualIncrease
      && r.effectiveRate == r.actualIncrease / rent * 100.0
  {
    if contractDate.None? || Falsy(currentRent) || Falsy(tufeRate) then TufeMissingFields
    else
      var monthsDiff := MonthsDifference(contractDate.value, today);
      if monthsDiff < 12 then TooEarly(12 - monthsDiff)
      else
        var rent, tufe := currentRent.value, tufeRate.value;
        var tufeIncrease := rent * tufe / 100.0;
        var maxAllowedIncrease := rent * MaxIncreaseRate / 100.0;
        var actualIncrease := Min(tufeIncrease, maxAllowedIncrease);
        var newRent := rent + actualIncrease;
        Increase(tufeIncrease, maxAllowedIncrease, actualIncrease, newRent,
                 actualIncrease / rent * 100.0, tufeIncrease > maxAllowedIncrease)
  }

  /**
   * For a positive rent and a non-negative T\U{00DC}FE rate, the applied increase is the smaller of
   * the T\U{00DC}FE increase and the 25% maximum, the new rent lies between the rent and 1.25 times
   * it, the cap is reported exactly when the rate exceeds 25, and the effective rate is the
   * smaller of the T\U{00DC}FE rate and 25.
   */
  lemma IncreaseIsCapped(contractDate: DateTime, rent: real, tufe: real, today: DateTime)
    requires rent > 0.0 && tufe > 0.0 && MonthsDifference(contractDate, today) >= 12
    ensures var r := TufeIncrease(Some(contractDate), Some(rent), Some(tufe), today);
      && r.Increase?
      && r.actualIncrease == rent * Min(tufe, MaxIncreaseRate) / 100.0
      && rent <= r.newRent <= rent * 1.25
      && (r.isLimited <==> tufe > MaxIncreaseRate)
      && r.effectiveRate == Min(tufe, MaxIncreaseRate)
  {
    var r := TufeIncrease(Some(contractDate), Some(rent), Some(tufe), today);
    var actual := Min(rent * tufe / 100.0, rent * MaxIncreaseRate / 100.0);
    if tufe <= MaxIncreaseRate {
      assert rent * tufe <= rent * MaxIncreaseRate;
      assert actual == rent * tufe / 100.0;
    } else {
      assert rent * tufe > rent * MaxIncreaseRate;
      assert actual == rent * MaxIncreaseRate / 100.0;
    }
    assert actual / rent * 100.0 == Min(tufe, MaxIncreaseRate);
  }

  /**
   * A negative rent passes the form check, and the smaller increase is then the larger rate:
   * the effective rate is the larger of the T\U{00DC}FE rate and 25.
   */
  lemma NegativeRentTakesLargerRate(contractDate: DateTime, rent: real, tufe: real, today: DateTime)
    requires rent < 0.0 && tufe != 0.0 && MonthsDifference(contractDate, today) >= 12
    ensures var r := TufeIncrease(Some(contractDate), Some(rent), Some(tufe), today);
      r.Increase? && r.effectiveRate == (if tufe > MaxIncreaseRate then tufe else MaxIncreaseRate)
  {
    var actual := Min(rent * tufe / 100.0, rent * MaxIncreaseRate / 100.0);
    if tufe > MaxIncreaseRate {
      assert rent * tufe < rent * MaxIncreaseRate;
      assert actual == rent * tufe / 100.0;
    } else {
      assert rent * tufe >= rent * MaxIncreaseRate;
      assert actual == rent * MaxIncreaseRate / 100.0;
    }
  }

  // ---------------------------------------------------------------------------------------
  // calculatePaymentDifference

  /** The three result panels: complete, underpaid (`Eksik`), overpaid (`Fazla`). */
  datatype Balance = Complete | Underpaid | Overpaid

  datatype PaymentResult =
    | PaymentMissingFields
    | PeriodNotPositive
      /** `difference` is `None` when it is `NaN`. */
    | PaymentClassified(months: nat, totalRentDue: real, difference: Option<real>, balance: Balance)

  /**
   * The classification of `difference`: within 0.01 of zero is complete, above is underpaid,
   * and everything else, `NaN` included, is overpaid.
   */
  function Classify(difference: Option<real>): (b: Balance)
    ensures b == Complete <==> difference.Some? && Abs(difference.value) < 0.01
    ensures b == Underpaid <==> difference.Some? && difference.value >= 0.01
    ensures b == Overpaid <==> difference.None? || difference.value <= -0.01
  {
    if difference.Some? && Abs(difference.value) < 0.01 then Complete
    else if difference.Some? && difference.value > 0.0 then Underpaid
    else Overpaid
  }

  /**
   * `calculatePaymentDifference()` as written: the guard `paidAmount === undefined` never
   * holds for the number `parseFloat` returns, so an empty paid-amount field goes through
   * with `NaN` and is classified as an overpayment.
   */
  function PaymentDifference(monthlyRent: Option<real>, startDate: Option<DateTime>, endDate: Option<DateTime>,
                             paidAmount: Option<real>): (r: PaymentResult)
    ensures r.PaymentMissingFields? <==> Falsy(monthlyRent) || startDate.None? || endDate.None?
    ensures r.PeriodNotPositive? <==> !r.PaymentMissingFields? && MonthsDifference(startDate.value, endDate.value) == 0
    ensures r.PaymentClassified? ==>
      && r.months == MonthsDifference(startDate.value, endDate.value) > 0
      && r.totalRentDue == monthlyRent.value * r.months as real
      && (paidAmount.Some? ==> r.difference == Some(r.totalRentDue - paidAmount.value))
      && (paidAmount.None? ==> r.difference.None?)
      && r.balance == Classify(r.difference)
  {
    if Falsy(monthlyRent) || startDate.None? || endDate.None? then PaymentMissingFields
    else
      var months := MonthsDifference(startDate.value, endDate.value);
      if months <= 0 then PeriodNotPositive
      else
        var totalRentDue := monthlyRent.value * months as real;
        var difference := if paidAmount.Some? then Some(totalRentDue - paidAmount.value) else None;
        PaymentClassified(months, totalRentDue, difference, Classify(difference))
  }

  /** An empty paid-amount field is reported as an overpayment. */
  lemma EmptyPaidAmountReportedAsOverpaid(monthlyRent: real, startDate: DateTime, endDate: DateTime)
    requires monthlyRent != 0.0 && MonthsDifference(startDate, endDate) > 0
    ensures PaymentDifference(Some(monthlyRent), Some(startDate), Some(endDate), None).PaymentClassified?
    ensures PaymentDifference(Some(monthlyRent), Some(startDate), Some(endDate), None).balance == Overpaid
  {
  }

  /** The evidently intended check: an empty paid-amount field is a missing field. */
  function PaymentDifferenceChecked(monthlyRent: Option<real>, startDate: Option<DateTime>, endDate: Option<DateTime>,
                                    paidAmount: Option<real>): (r: PaymentResult)
    ensures r.PaymentMissingFields? <==> Falsy(monthlyRent) || startDate.None? || endDate.None? || paidAmount.None?
    ensures r.PaymentClassified? ==> r.difference.Some?
    ensures paidAmount.Some? ==> r == PaymentDifference(monthlyRent, startDate, endDate, paidAmount)
  {
    if paidAmount.None? then PaymentMissingFields
    else PaymentDifference(monthlyRent, startDate, endDate, paidAmount)
  }

  /**
   * With a paid amount, the checked version reports exactly one balance, overpaid only for
   * a payment at least 0.01 above what is due.
   */
  lemma CheckedOverpaidMeansPaidMore(monthlyRent: Option<real>, startDate: Option<DateTime>, endDate: Option<DateTime>,
                                     paidAmount: Option<real>)
    ensures var r := PaymentDifferenceChecked(monthlyRent, startDate, endDate, paidAmount);
      r.PaymentClassified? && r.balance == Overpaid ==> paidAmount.value >= r.totalRentDue + 0.01
  {
  }

  // ---------------------------------------------------------------------------------------
  // calculateProjection and generateProjectionTable

  /** A row of the projection table. */
  datatype Row = Row(year: string, rent: real, increase: real, cumulativeIncrease: real)

  const StartLabel: string := "Ba\U{015F}lang\U{0131}\U{00E7}"

  /** `${i}. Y\U{0131}l`. */
  function YearLabel(i: nat): string
  {
    NatToString(i) + ". Y\U{0131}l"
  }

  /** The rent after `k` yearly increases of `rate` percent, each on the previous year's rent. */
  function RentAfter(baseRent: real, rate: real, k: nat): real
  {
    if k == 0 then baseRent
    else
      var previous := RentAfter(baseRent, rate, k - 1);
      previous + previous * rate / 100.0
  }

  /** Each year multiplies the rent by `1 + rate/100`. */
  lemma RentAfterCompounds(baseRent: real, rate: real, k: nat)
    requires k >= 1
    ensures RentAfter(baseRent, rate, k) == RentAfter(baseRent, rate, k - 1) * (1.0 + rate / 100.0)
  {
  }

  /** With a non-negative rent and rate the projected rent never falls. */
  lemma {:induction false} RentAfterGrows(baseRent: real, rate: real, j: nat, k: nat)
    requires baseRent >= 0.0 && rate >= 0.0 && j <= k
    ensures baseRent <= RentAfter(baseRent, rate, j) <= RentAfter(baseRent, rate, k)
    decreases k
  {
    if j < k {
      RentAfterGrows(baseRent, rate, j, k - 1);
      var previous := RentAfter(baseRent, rate, k - 1);
      assert previous * rate >= 0.0;
    } else if k > 0 {
      RentAfterGrows(baseRent, rate, 0, k - 1);
      var previous := RentAfter(baseRent, rate, k - 1);
      assert previous * rate >= 0.0;
    }
  }

  /** Products of non-negative reals grow with both factors. */
  lemma ProductMonotone(a: real, b: real, c: real, d: real)
    requires 0.0 <= a <= b && 0.0 <= c <= d
    ensures a * c <= b * d
  {
    assert a * c <= b * c;
    assert b * c <= b * d;
  }

  /** A smaller rate never projects a larger rent: the 25% cap bounds the whole table. */
  lemma {:induction false} RentAfterBoundedByRate(baseRent: real, rate: real, cap: real, k: nat)
    requires baseRent >= 0.0 && 0.0 <= rate <= cap
    ensures RentAfter(baseRent, rate, k) <= RentAfter(baseRent, cap, k)
  {
    if k > 0 {
      RentAfterBoundedByRate(baseRent, rate, cap, k - 1);
      RentAfterGrows(baseRent, rate, 0, k - 1);
      var x := RentAfter(baseRent, rate, k - 1);
      var y := RentAfter(baseRent, cap, k - 1);
      ProductMonotone(x, y, rate, cap);
      RentAfterCompounds(baseRent, rate, k);
      RentAfterCompounds(baseRent, cap, k);
    }
  }

  /** Row `k >= 1` of the table: the rent after `k` years, that year's increase and the total. */
  function ProjectionRow(baseRent: real, rate: real, k: nat): (row: Row)
    requires k >= 1
    ensures row.rent == row.cumulativeIncrease + baseRent
    ensures row.rent == RentAfter(baseRent, rate, k - 1) + row.increase
  {
    var rent := RentAfter(baseRent, rate, k);
    Row(YearLabel(k), rent, RentAfter(baseRent, rate, k - 1) * rate / 100.0, rent - baseRent)
  }

  /**
   * `generateProjectionTable(baseRent, years, rate)`: the starting row, then one row per year
   * whose rent is the previous rent increased by `rate` percent, with that increase and the
   * total increase over the base rent.
   */
  method GenerateProjectionTable(baseRent: real, years: int, rate: real) returns (data: seq<Row>)
    ensures |data| == (if years > 0 then years else 0) + 1
    ensures data[0] == Row(StartLabel, baseRent, 0.0, 0.0)
    ensures forall i :: 1 <= i < |data| ==> data[i] == ProjectionRow(baseRent, rate, i)
  {
    data := [Row(StartLabel, baseRent, 0.0, 0.0)];
    var currentRent := baseRent;
    var i := 1;
    while i <= years
      invariant 1 <= i <= (if years > 0 then years else 0) + 1 && |data| == i
      invariant currentRent == RentAfter(baseRent, rate, i - 1)
      invariant data[0] == Row(StartLabel, baseRent, 0.0, 0.0)
      invariant forall k :: 1 <= k < |data| ==> data[k] == ProjectionRow(baseRent, rate, k)
    {
      var increase := (currentRent * rate) / 100.0;
      currentRent := currentRent + increase;
      var cumulativeIncrease := currentRent - baseRent;
      data := data + [Row(YearLabel(i), currentRent, increase, cumulativeIncrease)];
      i := i + 1;
    }
  }

  datatype ProjectionResult =
    | ProjectionMissingFields
      /** `capWarning` is the warning shown when the entered rate exceeds the legal limit. */
    | Projection(capWarning: bool, effectiveRate: real, table: seq<Row>)

  /**
   * `calculateProjection()`: the base rent, the number of years and the yearly rate from the
   * form; the table is computed with the rate capped at 25%.
   */
  method CalculateProjection(baseRent: Option<real>, projectionYears: Option<int>, annualIncrease: Option<real>)
    returns (r: ProjectionResult)
    ensures r.ProjectionMissingFields? <==>
      Falsy(baseRent) || projectionYears.None? || projectionYears.value == 0 || Falsy(annualIncrease)
    ensures r.Projection? ==>
      && r.capWarning == (annualIncrease.value > MaxIncreaseRate)
      && r.effectiveRate == Min(annualIncrease.value, MaxIncreaseRate)
      && |r.table| == (if projectionYears.value > 0 then projectionYears.value else 0) + 1
      && r.table[0].rent == baseRent.value
      && forall i :: 1 <= i < |r.table| ==> r.table[i] == ProjectionRow(baseRent.value, r.effectiveRate, i)
  {
    if Falsy(baseRent) || projectionYears.None? || projectionYears.value == 0 || Falsy(annualIncrease) {
      return ProjectionMissingFields;
    }
    var capWarning := annualIncrease.value > MaxIncreaseRate;
    var effectiveRate := Min(annualIncrease.value, MaxIncreaseRate);
    var table := GenerateProjectionTable(baseRent.value, projectionYears.value, effectiveRate);
    r := Projection(capWarning, effectiveRate, table);
  }
}
