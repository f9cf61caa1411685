/**
 * The `Rent` schema (one rent or dues obligation of a property for one month), its
 * defaults and validators, the overdue helpers `isOverdue` and `getOverdueDays`, and the
 * per-month look-up the dashboard and the CSV export share.
 */
module RentModel {
  import opened Common
  import opened Calendar

  /** The `status` enum; `pending` is the default. */
  datatype RentStatus = Pending | Paid | Overdue

  function StatusName(s: RentStatus): string
  {
    match s
    case Pending => "pending"
    case Paid => "paid"
    case Overdue => "overdue"
  }

  /** The enum validator: the status a string names, if any. */
  function ParseStatus(s: string): Option<RentStatus>
  {
    if s == "pending" then Some(Pending)
    else if s == "paid" then Some(Paid)
    else if s == "overdue" then Some(Overdue)
    else None
  }

  /** The enum accepts exactly the three names, and each name parses back to its status. */
  lemma ParseStatusExact(s: string, st: RentStatus)
    ensures ParseStatus(s) == Some(st) <==> s == StatusName(st)
  {
  }

  datatype Rent = Rent(
    id: nat,
    propertyId: nat,
    landlordId: nat,
    amount: real,
    dueDate: DateTime,
    paymentDate: Option<DateTime>,
    status: RentStatus,
    isAidat: bool,
    month: int,
    year: int,
    notes: Option<string>)
  {
    /** What every stored record satisfies: amount >= 0, month in 1..12, real dates. */
    predicate Valid()
    {
      amount >= 0.0 && 1 <= month <= 12 && dueDate.Valid()
      && (paymentDate.Some? ==> paymentDate.value.Valid())
    }
  }

  /** The fields handed to `new Rent({...})`; `None` is an absent (undefined) field. */
  datatype RentInput = RentInput(
    propertyId: Option<nat>,
    landlordId: Option<nat>,
    amount: Option<real>,
    dueDate: Option<DateTime>,
    paymentDate: Option<DateTime>,
    status: Option<string>,
    isAidat: Option<bool>,
    month: Option<int>,
    year: Option<int>,
    notes: Option<string>)

  /** The paths whose validators (required, min, max, enum, Date cast) reject `input`. */
  function RentFailures(input: RentInput): set<string>
  {
    (if input.propertyId.None? then {"propertyId"} else {})
    + (if input.landlordId.None? then {"landlordId"} else {})
    + (if input.amount.None? || input.amount.value < 0.0 then {"amount"} else {})
    + (if input.dueDate.None? || !input.dueDate.value.Valid() then {"dueDate"} else {})
    + (if input.paymentDate.Some? && !input.paymentDate.value.Valid() then {"paymentDate"} else {})
    + (if input.status.Some? && ParseStatus(input.status.value).None? then {"status"} else {})
    + (if input.month.None? || !(1 <= input.month.value <= 12) then {"month"} else {})
    + (if input.year.None? then {"year"} else {})
  }

  /**
   * `new Rent(input).save()`: absent `status` and `isAidat` take their defaults (pending,
   * false), `notes` is trimmed, and the document is stored only if every validator passes.
   */
  function BuildRent(id: nat, input: RentInput): (r: Validation<Rent>)
    ensures r.Accepted? <==>
      && input.propertyId.Some? && input.landlordId.Some?
      && input.amount.Some? && input.amount.value >= 0.0
      && input.dueDate.Some? && input.dueDate.value.Valid()
      && (input.paymentDate.Some? ==> input.paymentDate.value.Valid())
      && (input.status.Some? ==> input.status.value in {"pending", "paid", "overdue"})
      && input.month.Some? && 1 <= input.month.value <= 12
      && input.year.Some?
    ensures r.Accepted? ==> r.value.Valid() && r.value.id == id
    ensures r.Accepted? ==>
      && r.value.propertyId == input.propertyId.value && r.value.landlordId == input.landlordId.value
      && r.value.amount == input.amount.value && r.value.dueDate == input.dueDate.value
      && r.value.month == input.month.value && r.value.year == input.year.value
    ensures r.Accepted? ==>
      r.value.status == (if input.status.Some? then ParseStatus(input.status.value).value else Pending)
    ensures r.Accepted? ==> r.value.isAidat == (input.isAidat.Some? && input.isAidat.value)
    ensures r.Accepted? ==> r.value.paymentDate == input.paymentDate
    ensures r.Accepted? ==> r.value.notes == (if input.notes.Some? then Some(Trim(input.notes.value)) else None)
    ensures r.Rejected? ==> r.paths != {}
    ensures input.month.None? ==> r.Rejected? && "month" in r.paths
    ensures input.year.None? ==> r.Rejected? && "year" in r.paths
  {
    var failures := RentFailures(input);
    if failures != {} then Rejected(failures)
    else
      Accepted(Rent(
        id, input.propertyId.value, input.landlordId.value, input.amount.value,
        input.dueDate.value, input.paymentDate,
        if input.status.Some? then ParseStatus(input.status.value).value else Pending,
        input.isAidat.Some? && input.isAidat.value,
        input.month.value, input.year.value,
        if input.notes.Some? then Some(Trim(input.notes.value)) else None))
  }

  /**
   * `isOverdue()`: the due date lies before now and the record is not paid. For valid dates,
   * "before" on time values is the calendar order of year, month, day and time of day.
   */
  predicate IsOverdue(r: Rent, now: DateTime)
    ensures r.dueDate.Valid() && now.Valid() ==>
      (IsOverdue(r, now) <==> CalendarBefore(r.dueDate, now) && r.status != Paid)
  {
    CalendarOrder(r.dueDate, now);
    TimeValue(r.dueDate) < TimeValue(now) && r.status != Paid
  }

  /** `Math.ceil(ms / 86400000)`: the whole number of days, rounded up, in `ms` milliseconds. */
  function CeilDays(ms: int): (n: int)
    ensures (n - 1) * MsPerDay < ms <= n * MsPerDay
  {
    -((-ms) / MsPerDay)
  }

  /** `getOverdueDays()`: 0 for a paid record, otherwise the positive part of the rounded-up day count. */
  function OverdueDays(r: Rent, now: DateTime): (n: nat)
    ensures r.status == Paid ==> n == 0
    ensures n > 0 ==> (n - 1) * MsPerDay < TimeValue(now) - TimeValue(r.dueDate) <= n * MsPerDay
  {
    if r.status == Paid then 0
    else
      var days := CeilDays(TimeValue(now) - TimeValue(r.dueDate));
      if days > 0 then days else 0
  }

  /** The two helpers agree: a record has overdue days exactly when it is overdue. */
  lemma OverdueDaysPositiveIffOverdue(r: Rent, now: DateTime)
    ensures OverdueDays(r, now) > 0 <==> IsOverdue(r, now)
  {
    if r.status != Paid {
      var diff := TimeValue(now) - TimeValue(r.dueDate);
      var days := CeilDays(diff);
      assert days > 0 <==> diff > 0;
    }
  }

  /** A non-dues record for calendar month `m` (1..12). */
  predicate IsRentFor(p: Rent, m: int)
  {
    p.month == m && !p.isAidat
  }

  /**
   * `payments.find(p => p.month === m && !p.isAidat)`, as the position of the record it
   * returns: the first non-dues record of month `m`, if any.
   */
  function FirstRentFor(payments: seq<Rent>, m: int): (r: Option<nat>)
    ensures r.Some? ==> r.value < |payments| && IsRentFor(payments[r.value], m)
    ensures r.Some? ==> forall j :: 0 <= j < r.value ==> !IsRentFor(payments[j], m)
    ensures r.None? ==> forall j :: 0 <= j < |payments| ==> !IsRentFor(payments[j], m)
  {
    if payments == [] then None
    else if IsRentFor(payments[0], m) then Some(0)
    else
      var r := FirstRentFor(payments[1..], m);
      if r.Some? then Some(r.value + 1) else None
  }

  /** The Turkish label the CSV export and the toggle message give a status. */
  function StatusLabel(s: RentStatus): (text: string)
    ensures text == "Bekliyor" <==> s == Pending
    ensures text == "\U{00D6}dendi" <==> s == Paid
    ensures text == "\U{00D6}denmedi" <==> s == Overdue
  {
    match s
    case Paid => "\U{00D6}dendi"
    case Overdue => "\U{00D6}denmedi"
    case Pending => "Bekliyor"
  }
}
