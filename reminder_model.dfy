/**
 * The `Reminder` schema (a monthly e-mail reminder a landlord sets up for one property),
 * `calculateNextSendDate`, `generateSMSMessage`, and the "same day of next month, at noon"
 * rescheduling that the reminder service and the mark-sent route share.
 */
module ReminderModel {
  import opened Common
  import opened Calendar

  /** `maxlength` of `customMessage`. */
  const MaxCustomMessage: int := 500

  /** The sender named at the foot of every reminder. */
  const Company: string := "Ey\U{00FC}po\U{011F}lu&I\U{015F}\U{0131}kg\U{00F6}r ev sahibi dan\U{0131}\U{015F}manl\U{0131}\U{011F}\U{0131}"

  /** The closing line of the SMS template and of the reminder e-mail. */
  const Signature: string := Company + " taraf\U{0131}ndan g\U{00F6}nderilen hat\U{0131}rlatma"

  datatype Reminder = Reminder(
    id: nat,
    propertyId: nat,
    landlordId: nat,
    ownerName: string,
    email: string,
    reminderDays: int,
    customMessage: Option<string>,
    isActive: bool,
    lastSentDate: Option<DateTime>,
    nextSendDate: Option<DateTime>)
  {
    /** What every stored reminder satisfies: the schema's required, `min`, `max` and `maxlength`. */
    predicate Valid()
    {
      ownerName != "" && email != "" && 1 <= reminderDays <= 31
      && (customMessage.Some? ==> |customMessage.value| <= MaxCustomMessage)
      && (lastSentDate.Some? ==> lastSentDate.value.Valid())
      && (nextSendDate.Some? ==> nextSendDate.value.Valid())
    }
  }

  /** The fields handed to `new Reminder({...})` plus the assigned `nextSendDate`. */
  datatype ReminderInput = ReminderInput(
    propertyId: Option<nat>,
    landlordId: Option<nat>,
    ownerName: Option<string>,
    email: Option<string>,
    reminderDays: Option<int>,
    customMessage: Option<string>,
    isActive: Option<bool>,
    nextSendDate: Option<DateTime>)

  /** The paths whose validators reject `input` when the document is saved. */
  function ReminderFailures(input: ReminderInput): set<string>
  {
    (if input.propertyId.None? then {"propertyId"} else {})
    + (if input.landlordId.None? then {"landlordId"} else {})
    + (if !RequiredText(input.ownerName) then {"ownerName"} else {})
    + (if !RequiredText(input.email) then {"email"} else {})
    + (if input.reminderDays.None? || !(1 <= input.reminderDays.value <= 31) then {"reminderDays"} else {})
    + (if input.customMessage.Some? && |Trim(input.customMessage.value)| > MaxCustomMessage
       then {"customMessage"} else {})
    + (if input.nextSendDate.Some? && !input.nextSendDate.value.Valid() then {"nextSendDate"} else {})
  }

  /**
   * `new Reminder(input).save()`: the strings are trimmed before validation, `isActive`
   * defaults to true, and the document is stored only if every validator passes.
   */
  function BuildReminder(id: nat, input: ReminderInput): (r: Validation<Reminder>)
    ensures r.Accepted? <==>
      && input.propertyId.Some? && input.landlordId.Some?
      && RequiredText(input.ownerName) && RequiredText(input.email)
      && input.reminderDays.Some? && 1 <= input.reminderDays.value <= 31
      && (input.customMessage.Some? ==> |Trim(input.customMessage.value)| <= MaxCustomMessage)
      && (input.nextSendDate.Some? ==> input.nextSendDate.value.Valid())
    ensures r.Accepted? ==> r.value.Valid() && r.value.id == id
    ensures r.Accepted? ==>
      && r.value.propertyId == input.propertyId.value && r.value.landlordId == input.landlordId.value
      && r.value.reminderDays == input.reminderDays.value
      && r.value.nextSendDate == input.nextSendDate && r.value.lastSentDate.None?
    ensures r.Accepted? ==> r.value.isActive == (input.isActive.None? || input.isActive.value)
    ensures r.Accepted? ==>
      && r.value.ownerName == Trim(input.ownerName.value) && r.value.email == Trim(input.email.value)
      && r.value.customMessage == (if input.customMessage.Some? then Some(Trim(input.customMessage.value)) else None)
    ensures r.Rejected? ==> r.paths != {}
    ensures input.reminderDays.None? ==> r.Rejected? && "reminderDays" in r.paths
  {
    var failures := ReminderFailures(input);
    if failures != {} then Rejected(failures)
    else
      Accepted(Reminder(
        id, input.propertyId.value, input.landlordId.value,
        Trim(input.ownerName.value), Trim(input.email.value), input.reminderDays.value,
        if input.customMessage.Some? then Some(Trim(input.customMessage.value)) else None,
        input.isActive.None? || input.isActive.value,
        None, input.nextSendDate))
  }

  /**
   * Time value of `new Date(year, month + offset, days, 12, 0, 0)` for the year and month
   * of `now`: day `days` at noon, this month (offset 0) or next month (offset 1).
   */
  function Candidate(now: DateTime, offset: int, days: int): int
  {
    MakeDay(now.year, now.month + offset, days) * MsPerDay + Noon
  }

  /**
   * `calculateNextSendDate()`: day `days` of this month at noon if that instant is still to
   * come, otherwise day `days` of next month at noon. Days past the end of a month overflow
   * into the following month.
   */
  function CalculateNextSendDate(days: int, now: DateTime): (r: DateTime)
    requires now.Valid()
    ensures r.Valid() && r.msOfDay == Noon
    ensures Candidate(now, 0, days) > TimeValue(now) ==> TimeValue(r) == Candidate(now, 0, days)
    ensures Candidate(now, 0, days) <= TimeValue(now) ==> TimeValue(r) == Candidate(now, 1, days)
    ensures days >= 1 ==> TimeValue(r) > TimeValue(now)
    ensures 1 <= days <= 28 ==> r.day == days
  {
    var thisMonth := Normalize(now.year, now.month, days, Noon);
    var nextMonth := Normalize(now.year, now.month + 1, days, Noon);
    if TimeValue(thisMonth) > TimeValue(now) then thisMonth
    else
      NextMonthNoonIsLater(now, days);
      nextMonth
  }

  /** Day `days` (at least 1) of the following month, at noon, lies after now. */
  lemma NextMonthNoonIsLater(now: DateTime, days: int)
    requires now.Valid()
    ensures days >= 1 ==> TimeValue(Normalize(now.year, now.month + 1, days, Noon)) > TimeValue(now)
  {
    if days >= 1 {
      DayNumberInMonth(now);
      EarlierDayFirst(now, Normalize(now.year, now.month + 1, days, Noon));
    }
  }

  /**
   * The computed date is the earliest noon on that day of the month that lies after now: no
   * valid date on day `days` at noon lies between now and it.
   */
  lemma NextSendDateIsEarliest(days: int, now: DateTime, x: DateTime)
    requires now.Valid() && x.Valid()
    requires x.day == days && x.msOfDay == Noon && TimeValue(x) > TimeValue(now)
    ensures TimeValue(CalculateNextSendDate(days, now)) <= TimeValue(x)
  {
    CandidatesOrdered(now, days);
    AgainstCandidates(days, now, x);
  }

  /** This month's candidate never comes after next month's. */
  lemma CandidatesOrdered(now: DateTime, days: int)
    ensures Candidate(now, 0, days) < Candidate(now, 1, days)
  {
    FirstDayNext(12 * now.year + now.month);
    ScaleByDay(MakeDay(now.year, now.month, days), MakeDay(now.year, now.month + 1, days));
  }

  /**
   * Where a valid noon on day `days` falls: before now in an earlier month, on this month's
   * candidate in this month, and no earlier than next month's candidate in a later month.
   */
  lemma AgainstCandidates(days: int, now: DateTime, x: DateTime)
    requires now.Valid() && x.Valid() && x.day == days && x.msOfDay == Noon
    ensures x.MonthIndex() < now.MonthIndex() ==> TimeValue(x) < TimeValue(now)
    ensures x.MonthIndex() == now.MonthIndex() ==> TimeValue(x) == Candidate(now, 0, days)
    ensures x.MonthIndex() > now.MonthIndex() ==> TimeValue(x) >= Candidate(now, 1, days)
  {
    var L, Lx := now.MonthIndex(), x.MonthIndex();
    if Lx < L {
      DayNumberInMonth(now);
      DayNumberInMonth(x);
      FirstDayMonotone(Lx, L);
      FirstDayNext(Lx);
      EarlierDayFirst(x, now);
    } else if Lx > L {
      if Lx > L + 1 {
        FirstDayMonotone(L + 1, Lx);
        FirstDayNext(Lx);
      }
      ScaleByDay(MakeDay(now.year, now.month + 1, days), DayNumber(x));
    }
  }

  lemma ScaleByDay(a: int, b: int)
    requires a <= b
    ensures a * MsPerDay <= b * MsPerDay
  {
  }

  /** Day 31 asked for on any day of April: April has 30 days, so the reminder goes out on 1 May. */
  lemma ThirtyFirstInAprilOverflowsToMay(now: DateTime)
    requires now.Valid() && now.month == 3
    ensures CalculateNextSendDate(31, now) == DateTime(now.year, 4, 1, Noon)
  {
    var may := DateTime(now.year, 4, 1, Noon);
    DayThirtyOneOfAprilIsFirstOfMay(now.year, Noon);
    DayNumberInMonth(now);
    FirstDayNext(now.MonthIndex());
    EarlierDayFirst(now, may);
  }

  /**
   * `nextMonth = new Date(); nextMonth.setMonth(nextMonth.getMonth() + 1);
   * nextMonth.setDate(d); nextMonth.setHours(12, 0, 0, 0)` run at `now`. The first step can
   * overflow (31 January becomes 3 March), so the result may lie two months ahead.
   */
  function NextMonthSameDayNoon(now: DateTime, d: int): (r: DateTime)
    requires now.Valid()
    ensures r.Valid() && r.msOfDay == Noon
    ensures d >= 1 ==> TimeValue(r) > TimeValue(now)
    ensures now.day <= 28 && 1 <= d <= 28 ==> r.MonthIndex() == now.MonthIndex() + 1 && r.day == d
  {
    var moved := SetMonth(now, now.month + 1);
    var dated := SetDate(moved, d);
    RescheduledDayIsLater(now, d);
    SetHours(dated, 12)
  }

  /**
   * Moving to the next month never lands before next month's first day, so any day of that
   * month from the 1st on, at noon, is later than now.
   */
  lemma RescheduledDayIsLater(now: DateTime, d: int)
    requires now.Valid()
    ensures d >= 1 ==> TimeValue(now) < TimeValue(SetHours(SetDate(SetMonth(now, now.month + 1), d), 12))
  {
    var moved := SetMonth(now, now.month + 1);
    MovedIntoLaterMonth(now);
    if d >= 1 {
      var L, Lm := now.MonthIndex(), moved.MonthIndex();
      var target := SetHours(SetDate(moved, d), 12);
      DayNumberInMonth(now);
      FirstDayNext(L);
      if Lm > L + 1 {
        FirstDayMonotone(L + 1, Lm);
        FirstDayNext(Lm);
      }
      DatedDayNumber(moved, d);
      EarlierDayFirst(now, target);
    }
  }

  /** `setDate(d)` then `setHours(12, 0, 0, 0)`: day `d` of the same month, overflow included. */
  lemma DatedDayNumber(moved: DateTime, d: int)
    requires moved.Valid()
    ensures DayNumber(SetHours(SetDate(moved, d), 12)) == FirstDay(moved.MonthIndex()) + d - 1
    ensures SetHours(SetDate(moved, d), 12).msOfDay == Noon
  {
  }

  /** `setMonth(getMonth() + 1)` always leaves the current month, forward. */
  lemma MovedIntoLaterMonth(now: DateTime)
    requires now.Valid()
    ensures SetMonth(now, now.month + 1).MonthIndex() > now.MonthIndex()
  {
    var moved := SetMonth(now, now.month + 1);
    var L, Lm := now.MonthIndex(), moved.MonthIndex();
    DayNumberInMonth(moved);
    assert DayNumber(moved) >= FirstDay(L + 1);
    if Lm <= L {
      if Lm < L {
        FirstDayMonotone(Lm + 1, L + 1);
      }
      assert false;
    }
  }

  /** On 31 January, asking for any day of March's 31 gives that day of March: February is skipped. */
  lemma NextMonthFromJanuaryThirtyFirstSkipsFebruary(year: int, msOfDay: int, d: int)
    requires 0 <= msOfDay < MsPerDay && 1 <= d <= 31
    ensures NextMonthSameDayNoon(DateTime(year, 0, 31, msOfDay), d) == DateTime(year, 2, d, Noon)
  {
    SetMonthOnThirtyFirstSkipsFebruary(year, msOfDay);
    NormalizeValid(DateTime(year, 2, d, msOfDay));
  }

  /** The reminder text without a custom message. */
  function SmsBase(ownerName: string, propertyName: string, rentText: string): string
  {
    "Say\U{0131}n " + ownerName + ", " + propertyName
    + " gayrimenkul\U{00FC}n\U{00FC}n kira \U{00F6}deme tarihi yakla\U{015F}\U{0131}yor. Tutar: \U{20BA}" + rentText
    + "\n\nSiteye giri\U{015F} yaparak \U{00F6}deme durumunu g\U{00FC}ncelleyebilirsiniz.\n\n" + Signature
  }

  /**
   * `generateSMSMessage(property)`, with the property's rent already rendered as text: the
   * base text, followed, when a non-empty custom message is set, by that message and the
   * company name.
   */
  function GenerateSmsMessage(r: Reminder, propertyName: string, rentText: string): (m: string)
    ensures StartsWith(m, SmsBase(r.ownerName, propertyName, rentText))
    ensures !Truthy(r.customMessage) ==> m == SmsBase(r.ownerName, propertyName, rentText)
    ensures Truthy(r.customMessage) ==>
      var n := |SmsBase(r.ownerName, propertyName, rentText)|;
      && EndsWith(m, "\n\n" + Company)
      && |m| == n + 2 + |r.customMessage.value| + 2 + |Company|
      && m[n..n + 2] == "\n\n"
      && m[n + 2..n + 2 + |r.customMessage.value|] == r.customMessage.value
  {
    var base := SmsBase(r.ownerName, propertyName, rentText);
    if Truthy(r.customMessage) then
      CustomTail(base, r.customMessage.value);
      base + ("\n\n" + r.customMessage.value) + ("\n\n" + Company)
    else
      assert base[..|base|] == base;
      base
  }

  /** Appending a blank line, a custom text, a blank line and the company name to `base`. */
  lemma CustomTail(base: string, custom: string)
    ensures var m := base + ("\n\n" + custom) + ("\n\n" + Company);
      && StartsWith(m, base) && EndsWith(m, "\n\n" + Company)
      && |m| == |base| + 2 + |custom| + 2 + |Company|
      && m[|base|..|base| + 2] == "\n\n"
      && m[|base| + 2..|base| + 2 + |custom|] == custom
  {
    var middle := "\n\n" + custom;
    ThreeParts(base, middle, "\n\n" + Company, 2);
    ThreeParts(base, middle, "\n\n" + Company, 0);
    assert middle[2..] == custom;
    assert (base + middle + ("\n\n" + Company))[|base|..|base| + 2] == middle[..2];
  }
}
