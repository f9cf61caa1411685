/**
 * The reminder service: `sendReminder` writes the reminder e-mail, hands it to the mail
 * service and reschedules the reminder; `checkAndSendReminders` selects the active reminders
 * whose day of month is today and sends each in turn. The mail service is the parameter
 * `mail`, which says what the call did for a given message; `now` is the clock.
 */
module ReminderService {
  import opened Common
  import opened Calendar
  import opened PropertyModel
  import opened ReminderModel
  import opened Store

  const PropertyMissing: string := "Gayrimenkul bulunamad\U{0131}"

  /** What the mail call did: it resolved, or it threw with a message. */
  datatype MailOutcome = Delivered | Threw(error: string)

  datatype Mail = Mail(to: string, subject: string, text: string)

  /** The result object of `sendReminder`. */
  datatype SendResult = Sent(reminderId: nat, nextSendDate: DateTime) | NotSent(error: string)

  /** The result object of `checkAndSendReminders`. */
  datatype CheckReport = CheckReport(total: nat, successCount: nat, errorCount: nat)

  function MailSubject(propertyName: string): string
  {
    "Kira Hat\U{0131}rlatma: " + propertyName
  }

  /** The greeting and the amount, up to the optional custom message. */
  function MailHead(ownerName: string, propertyName: string, rentText: string): string
  {
    "Say\U{0131}n " + ownerName + ",\n" + propertyName
    + " gayrimenkul\U{00FC}n\U{00FC}z\U{00FC}n kira \U{00F6}deme tarihi yakla\U{015F}\U{0131}yor. Tutar: \U{20BA}" + rentText + "\n"
  }

  /**
   * The e-mail body: the head, then a blank line and the custom message when one is set,
   * and always the signature line at the end.
   */
  function MailText(ownerName: string, propertyName: string, rentText: string, custom: Option<string>): (t: string)
    ensures StartsWith(t, MailHead(ownerName, propertyName, rentText))
    ensures EndsWith(t, "\n\n" + Signature)
    ensures !Truthy(custom) ==> |t| == |MailHead(ownerName, propertyName, rentText)| + 2 + |Signature|
    ensures Truthy(custom) ==>
      var n := |MailHead(ownerName, propertyName, rentText)|;
      && |t| == n + 1 + |custom.value| + 2 + |Signature|
      && t[n] == '\n' && t[n + 1..n + 1 + |custom.value|] == custom.value
  {
    var head := MailHead(ownerName, propertyName, rentText);
    var middle := if Truthy(custom) then "\n" + custom.value else "";
    ThreeParts(head, middle, "\n\n" + Signature, if Truthy(custom) then 1 else 0);
    head + middle + ("\n\n" + Signature)
  }

  /** The message `sendReminder` passes to the mail service for reminder `r` of property `p`. */
  function ReminderMail(r: Reminder, p: Property, render: real -> string): Mail
  {
    Mail(r.email, MailSubject(p.name), MailText(r.ownerName, p.name, render(p.rent), r.customMessage))
  }

  /**
   * The reminder as `sendReminder` leaves it: rescheduled when its property exists and the
   * mail call resolved, untouched otherwise.
   */
  function AfterSend(props: seq<Property>, r: Reminder, now: DateTime,
                     mail: Mail -> MailOutcome, render: real -> string): (r': Reminder)
    requires now.Valid()
    ensures r'.id == r.id && r'.isActive == r.isActive && r'.reminderDays == r.reminderDays
    ensures && r'.propertyId == r.propertyId && r'.landlordId == r.landlordId
            && r'.ownerName == r.ownerName && r'.email == r.email && r'.customMessage == r.customMessage
    ensures var p := FindProperty(props, r.propertyId);
      if p.Some? && mail(ReminderMail(r, p.value, render)).Delivered? then
        r'.lastSentDate == Some(now) && r'.nextSendDate == Some(NextMonthSameDayNoon(now, r.reminderDays))
      else r' == r
    ensures r.Valid() ==> r'.Valid()
  {
    var p := FindProperty(props, r.propertyId);
    if p.Some? && mail(ReminderMail(r, p.value, render)).Delivered? then
      r.(lastSentDate := Some(now), nextSendDate := Some(NextMonthSameDayNoon(now, r.reminderDays)))
    else r
  }

  /**
   * `sendReminder(reminder)` for the reminder at position `i`: fails without sending when the
   * property is gone, fails without saving when the mail call throws, and otherwise records
   * the send time and moves the next send date to the same day of next month at noon.
   */
  method SendReminder(db: Db, i: nat, now: DateTime, mail: Mail -> MailOutcome, render: real -> string)
    returns (result: SendResult, attempted: Option<Mail>)
    requires db.Valid() && i < |db.reminders| && now.Valid()
    modifies db
    ensures db.Valid()
    ensures db.properties == old(db.properties) && db.rents == old(db.rents) && db.nextId == old(db.nextId)
    ensures db.reminders == old(db.reminders)[i := AfterSend(db.properties, old(db.reminders)[i], now, mail, render)]
    ensures var r := old(db.reminders)[i];
      var p := FindProperty(db.properties, r.propertyId);
      && (p.None? ==> result == NotSent(PropertyMissing) && attempted.None?)
      && (p.Some? ==> attempted == Some(ReminderMail(r, p.value, render)))
      && (p.Some? && mail(attempted.value).Threw? ==> result == NotSent(mail(attempted.value).error))
      && (p.Some? && mail(attempted.value).Delivered? ==>
            result == Sent(r.id, NextMonthSameDayNoon(now, r.reminderDays)))
  {
    var reminder := db.reminders[i];
    var property := FindProperty(db.properties, reminder.propertyId);
    if property.None? {
      return NotSent(PropertyMissing), None;
    }
    var subject := MailSubject(property.value.name);
    var text := MailText(reminder.ownerName, property.value.name, render(property.value.rent), reminder.customMessage);
    attempted := Some(Mail(reminder.email, subject, text));
    var outcome := mail(attempted.value);
    if outcome.Threw? {
      return NotSent(outcome.error), attempted;
    }
    var nextMonth := now;
    nextMonth := SetMonth(nextMonth, nextMonth.month + 1);
    nextMonth := SetDate(nextMonth, reminder.reminderDays);
    nextMonth := SetHours(nextMonth, 12);
    reminder := reminder.(lastSentDate := Some(now), nextSendDate := Some(nextMonth));
    db.reminders := db.reminders[i := reminder];
    result := Sent(reminder.id, nextMonth);
  }

  /** The query `{ isActive: true, reminderDays: day }`. */
  predicate IsDue(r: Reminder, day: int)
  {
    r.isActive && r.reminderDays == day
  }

  /** Positions of the reminders due on `day`, from position `from` on, in store order. */
  function Select(reminders: seq<Reminder>, day: int, from: nat): (s: seq<nat>)
    requires from <= |reminders|
    ensures forall k :: 0 <= k < |s| ==> from <= s[k] < |reminders|
    ensures forall j, k :: 0 <= j < k < |s| ==> s[j] < s[k]
    ensures forall i :: from <= i < |reminders| ==> (i in s <==> IsDue(reminders[i], day))
    decreases |reminders| - from
  {
    if from == |reminders| then []
    else
      var rest := Select(reminders, day, from + 1);
      if IsDue(reminders[from], day) then [from] + rest else rest
  }

  /** The reminders after `sendReminder` has run on each of `positions`. */
  function AfterRound(props: seq<Property>, rs: seq<Reminder>, positions: seq<nat>, now: DateTime,
                      mail: Mail -> MailOutcome, render: real -> string): (r: seq<Reminder>)
    requires now.Valid()
    ensures |r| == |rs|
    ensures forall j :: 0 <= j < |rs| ==>
      r[j] == if j in positions then AfterSend(props, rs[j], now, mail, render) else rs[j]
  {
    seq(|rs|, j requires 0 <= j < |rs| =>
      if j in positions then AfterSend(props, rs[j], now, mail, render) else rs[j])
  }

  /**
   * One more send, at the next of a strictly increasing list of positions: that position is
   * still untouched, and it is the only one the send changes.
   */
  lemma AfterRoundStep(props: seq<Property>, rs: seq<Reminder>, positions: seq<nat>, n: nat, now: DateTime,
                       mail: Mail -> MailOutcome, render: real -> string)
    requires now.Valid() && n < |positions|
    requires forall k :: 0 <= k < |positions| ==> positions[k] < |rs|
    requires forall j, k :: 0 <= j < k < |positions| ==> positions[j] < positions[k]
    ensures var before := AfterRound(props, rs, positions[..n], now, mail, render);
      var i := positions[n];
      && before[i] == rs[i]
      && AfterRound(props, rs, positions[..n + 1], now, mail, render)
           == before[i := AfterSend(props, rs[i], now, mail, render)]
  {
    var i := positions[n];
    assert i !in positions[..n];
    assert positions[..n + 1] == positions[..n] + [i];
  }

  /** Sending at the selected positions updates exactly the reminders due on `day`. */
  lemma RoundOverSelection(props: seq<Property>, rs: seq<Reminder>, day: int, now: DateTime,
                           mail: Mail -> MailOutcome, render: real -> string)
    requires now.Valid()
    ensures var r := AfterRound(props, rs, Select(rs, day, 0), now, mail, render);
      forall j :: 0 <= j < |r| ==>
        r[j] == if IsDue(rs[j], day) then AfterSend(props, rs[j], now, mail, render) else rs[j]
  {
  }

  /**
   * The `for ... of` loop of `checkAndSendReminders()`: `sendReminder` on each selected
   * position in turn. It never throws, so every attempt is counted as a success.
   */
  method SendEach(db: Db, positions: seq<nat>, now: DateTime, mail: Mail -> MailOutcome, render: real -> string)
    returns (successCount: nat, errorCount: nat)
    requires db.Valid() && now.Valid()
    requires forall k :: 0 <= k < |positions| ==> positions[k] < |db.reminders|
    requires forall j, k :: 0 <= j < k < |positions| ==> positions[j] < positions[k]
    modifies db
    ensures db.Valid()
    ensures db.properties == old(db.properties) && db.rents == old(db.rents) && db.nextId == old(db.nextId)
    ensures successCount == |positions| && errorCount == 0
    ensures db.reminders == AfterRound(db.properties, old(db.reminders), positions, now, mail, render)
  {
    ghost var rs := db.reminders;
    successCount, errorCount := 0, 0;
    var n := 0;
    while n < |positions|
      invariant 0 <= n <= |positions|
      invariant db.Valid()
      invariant db.properties == old(db.properties) && db.rents == old(db.rents) && db.nextId == old(db.nextId)
      invariant successCount == n && errorCount == 0
      invariant db.reminders == AfterRound(db.properties, rs, positions[..n], now, mail, render)
    {
      AfterRoundStep(db.properties, rs, positions, n, now, mail, render);
      var result, attempted := SendReminder(db, positions[n], now, mail, render);
      successCount := successCount + 1;
      n := n + 1;
    }
    assert positions[..n] == positions;
  }

  /**
   * `checkAndSendReminders()`: sends every active reminder whose day of month is today's.
   * `sendReminder` reports failures in its result instead of throwing, so every attempt
   * counts as a success and the error count stays 0.
   */
  method CheckAndSendReminders(db: Db, now: DateTime, mail: Mail -> MailOutcome, render: real -> string)
    returns (report: CheckReport)
    requires db.Valid() && now.Valid()
    modifies db
    ensures db.Valid()
    ensures db.properties == old(db.properties) && db.rents == old(db.rents) && db.nextId == old(db.nextId)
    ensures report.total == |Select(old(db.reminders), now.day, 0)|
    ensures report.successCount + report.errorCount == report.total
    ensures report.errorCount == 0
    ensures |db.reminders| == |old(db.reminders)|
    ensures forall j :: 0 <= j < |db.reminders| ==>
      db.reminders[j] == if IsDue(old(db.reminders)[j], now.day)
                         then AfterSend(db.properties, old(db.reminders)[j], now, mail, render)
                         else old(db.reminders)[j]
  {
    var pending := Select(db.reminders, now.day, 0);
    var successCount, errorCount := SendEach(db, pending, now, mail, render);
    RoundOverSelection(db.properties, old(db.reminders), now.day, now, mail, render);
    report := CheckReport(|pending|, successCount, errorCount);
  }
}
