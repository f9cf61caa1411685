/**
 * The reminder routes: `add-reminder` (owner check, e-mail and day checks, then the schema),
 * `toggle-reminder`, the `pending-reminders` query for the `[today, tomorrow)` window, and
 * `mark-sent`. `user` is the authenticated landlord; `now` is the clock.
 */
module ReminderRoutes {
  import opened Common
  import opened Calendar
  import opened PropertyModel
  import opened ReminderModel
  import opened Store

  const NoPropertyAccess: string := "Bu gayrimenkul i\U{00E7}in yetkiniz yok"
  const InvalidEmail: string := "Ge\U{00E7}erli bir e-posta adresi giriniz"
  const InvalidDays: string := "Hat\U{0131}rlatma g\U{00FC}n\U{00FC} 1-31 aras\U{0131}nda olmal\U{0131}d\U{0131}r"
  const AddFailed: string := "Hat\U{0131}rlat\U{0131}c\U{0131} eklenemedi"
  const Added: string := "Hat\U{0131}rlat\U{0131}c\U{0131} ba\U{015F}ar\U{0131}yla eklendi"
  const ReminderNotFound: string := "Hat\U{0131}rlat\U{0131}c\U{0131} bulunamad\U{0131}"
  const NoReminderAccess: string := "Bu hat\U{0131}rlat\U{0131}c\U{0131} i\U{00E7}in yetkiniz yok"
  const MarkedSent: string := "Hat\U{0131}rlat\U{0131}c\U{0131} g\U{00FC}ncellendi"

  /** The JSON body of a successful reply: a message and the saved reminder. */
  datatype Saved = Saved(message: string, reminder: Reminder)

  // ---------------------------------------------------------------------------------------
  // The e-mail check `/^[^@\s]+@[^@\s]+\.[^@\s]+$/.test(email)`.

  /** A character of the class `[^@\s]`. */
  predicate Plain(c: char)
  {
    c != '@' && !IsJsWhitespace(c)
  }

  /**
   * The pattern matches `s` split as local part `s[..p]`, `@`, domain name `s[p+1..q]`, `.`,
   * and suffix `s[q+1..]`: every part non-empty and free of `@` and white space.
   */
  predicate IsSplit(s: string, p: int, q: int)
  {
    && 0 < p && p + 1 < q < |s| - 1 && s[p] == '@' && s[q] == '.'
    && forall i :: 0 <= i < |s| && i != p ==> Plain(s[i])
  }

  ghost predicate EmailShape(s: string)
  {
    exists p, q :: IsSplit(s, p, q)
  }

  /** The first `@` at or after `from`. */
  function FindAt(s: string, from: nat): (r: Option<nat>)
    requires from <= |s|
    ensures r.Some? ==> from <= r.value < |s| && s[r.value] == '@'
    ensures r.Some? ==> forall i :: from <= i < r.value ==> s[i] != '@'
    ensures r.None? ==> forall i :: from <= i < |s| ==> s[i] != '@'
    decreases |s| - from
  {
    if from == |s| then None
    else if s[from] == '@' then Some(from)
    else FindAt(s, from + 1)
  }

  /** Every character from `from` on, except the one at `p`, is of the class `[^@\s]`. */
  function PlainExcept(s: string, p: nat, from: nat): (b: bool)
    requires from <= |s|
    ensures b <==> forall i :: from <= i < |s| && i != p ==> Plain(s[i])
    decreases |s| - from
  {
    if from == |s| then true
    else (from == p || Plain(s[from])) && PlainExcept(s, p, from + 1)
  }

  /** The position of a `.` in `s[lo..hi]`, if there is one. */
  function FindDot(s: string, lo: nat, hi: int): (r: Option<nat>)
    requires hi <= |s|
    ensures r.Some? ==> lo <= r.value < hi && s[r.value] == '.'
    ensures r.None? ==> forall q :: lo <= q < hi ==> s[q] != '.'
    decreases hi - lo
  {
    if lo >= hi then None
    else if s[lo] == '.' then Some(lo)
    else FindDot(s, lo + 1, hi)
  }

  /** The check: one `@`, not first, a `.` strictly inside the part after it, no white space. */
  function EmailMatches(s: string): bool
  {
    var at := FindAt(s, 0);
    at.Some? && 0 < at.value && PlainExcept(s, at.value, 0) && FindDot(s, at.value + 2, |s| - 1).Some?
  }

  /** The check accepts exactly the strings the regular expression matches. */
  lemma EmailMatchesIffShape(s: string)
    ensures EmailMatches(s) <==> EmailShape(s)
  {
    var at := FindAt(s, 0);
    if EmailMatches(s) {
      var q := FindDot(s, at.value + 2, |s| - 1).value;
      assert IsSplit(s, at.value, q);
    }
    if EmailShape(s) {
      var p, q :| IsSplit(s, p, q);
      assert at.Some? && at.value == p;
      assert FindDot(s, p + 2, |s| - 1).Some? by {
        assert s[q] == '.' && p + 2 <= q < |s| - 1;
      }
    }
  }

  lemma PlainAddressAccepted()
    ensures EmailMatches("ali@ornek.com")
  {
    assert IsSplit("ali@ornek.com", 3, 9);
    EmailMatchesIffShape("ali@ornek.com");
  }

  lemma AddressWithSpaceRejected()
    ensures !EmailMatches("ali veli@ornek.com")
  {
    EmailMatchesIffShape("ali veli@ornek.com");
    assert !Plain("ali veli@ornek.com"[3]);
  }

  // ---------------------------------------------------------------------------------------
  // add-reminder

  /** The request body of `add-reminder`; `None` is an absent field. */
  datatype ReminderRequest = ReminderRequest(
    propertyId: Option<nat>,
    ownerName: Option<string>,
    email: Option<string>,
    reminderDays: Option<int>,
    customMessage: Option<string>)

  /**
   * The document `add-reminder` saves, with `nextSendDate` from `calculateNextSendDate()`.
   * Without `reminderDays` that call yields an invalid date; the save then fails on the
   * required `reminderDays` whatever the date, so the date is left absent here.
   */
  function AddInput(req: ReminderRequest, user: nat, now: DateTime): ReminderInput
    requires now.Valid()
  {
    ReminderInput(
      req.propertyId, Some(user), req.ownerName, req.email, req.reminderDays, req.customMessage,
      None,
      if req.reminderDays.Some? then Some(CalculateNextSendDate(req.reminderDays.value, now)) else None)
  }

  predicate OwnsRequested(props: seq<Property>, req: ReminderRequest, user: nat)
  {
    req.propertyId.Some? && Owns(props, req.propertyId.value, user)
  }

  predicate EmailAccepted(email: Option<string>)
  {
    Truthy(email) && EmailMatches(email.value)
  }

  /** `reminderDays < 1 || reminderDays > 31`; an absent value compares false both ways. */
  predicate DaysOutOfRange(days: Option<int>)
  {
    days.Some? && (days.value < 1 || days.value > 31)
  }

  /** `new Reminder(doc).save()` followed by the insertion of the accepted document. */
  method SaveNewReminder(db: Db, input: ReminderInput) returns (saved: Option<Reminder>)
    requires db.Valid()
    modifies db
    ensures db.Valid()
    ensures db.properties == old(db.properties) && db.rents == old(db.rents)
    ensures BuildReminder(old(db.nextId), input).Rejected? ==>
      saved.None? && db.reminders == old(db.reminders) && db.nextId == old(db.nextId)
    ensures BuildReminder(old(db.nextId), input).Accepted? ==>
      && saved == Some(BuildReminder(old(db.nextId), input).value)
      && db.reminders == old(db.reminders) + [saved.value] && db.nextId == old(db.nextId) + 1
  {
    var built := BuildReminder(db.nextId, input);
    if built.Rejected? {
      return None;
    }
    db.reminders := db.reminders + [built.value];
    db.nextId := db.nextId + 1;
    saved := Some(built.value);
  }

  /**
   * `POST /add-reminder`: 403 unless the landlord owns the property, then 400 for a bad
   * e-mail, then 400 for a day outside 1..31, then 500 if the schema rejects the document;
   * otherwise the reminder is stored with its next send date after now.
   */
  method AddReminder(db: Db, user: nat, req: ReminderRequest, now: DateTime) returns (reply: Reply<Saved>)
    requires db.Valid() && now.Valid()
    modifies db
    ensures db.Valid()
    ensures db.properties == old(db.properties) && db.rents == old(db.rents)
    ensures !OwnsRequested(db.properties, req, user) ==> reply == Fail(403, NoPropertyAccess)
    ensures OwnsRequested(db.properties, req, user) && !EmailAccepted(req.email) ==>
      reply == Fail(400, InvalidEmail)
    ensures OwnsRequested(db.properties, req, user) && EmailAccepted(req.email) && DaysOutOfRange(req.reminderDays) ==>
      reply == Fail(400, InvalidDays)
    ensures OwnsRequested(db.properties, req, user) && EmailAccepted(req.email) && !DaysOutOfRange(req.reminderDays) ==>
      match BuildReminder(old(db.nextId), AddInput(req, user, now))
      case Rejected(_) => reply == Fail(500, AddFailed)
      case Accepted(r) =>
        && reply == Ok(Saved(Added, r))
        && db.reminders == old(db.reminders) + [r] && db.nextId == old(db.nextId) + 1
    ensures reply.Fail? ==> db.reminders == old(db.reminders) && db.nextId == old(db.nextId)
    ensures reply.Ok? ==>
      && reply.body.reminder.landlordId == user && reply.body.reminder.isActive
      && reply.body.reminder.nextSendDate == Some(CalculateNextSendDate(reply.body.reminder.reminderDays, now))
      && TimeValue(reply.body.reminder.nextSendDate.value) > TimeValue(now)
  {
    if !OwnsRequested(db.properties, req, user) {
      return Fail(403, NoPropertyAccess);
    }
    if !Truthy(req.email) || !EmailMatches(req.email.value) {
      return Fail(400, InvalidEmail);
    }
    if DaysOutOfRange(req.reminderDays) {
      return Fail(400, InvalidDays);
    }
    var saved := SaveNewReminder(db, AddInput(req, user, now));
    if saved.None? {
      return Fail(500, AddFailed);
    }
    reply := Ok(Saved(Added, saved.value));
  }

  // ---------------------------------------------------------------------------------------
  // toggle-reminder and mark-sent

  /** `Reminder.findById(id)`, as the position of the first reminder with that id. */
  function FindReminder(reminders: seq<Reminder>, id: nat): (k: Option<nat>)
    ensures k.Some? ==> k.value < |reminders| && reminders[k.value].id == id
    ensures k.Some? ==> forall j :: 0 <= j < k.value ==> reminders[j].id != id
    ensures k.None? ==> forall j :: 0 <= j < |reminders| ==> reminders[j].id != id
  {
    if reminders == [] then None
    else if reminders[0].id == id then Some(0)
    else
      var k := FindReminder(reminders[1..], id);
      if k.Some? then Some(k.value + 1) else None
  }

  function ToggleMessage(active: bool): string
  {
    "Hat\U{0131}rlat\U{0131}c\U{0131} " + (if active then "aktif" else "pasif") + " hale getirildi"
  }

  /**
   * `PUT /toggle-reminder/:reminderId`: 404 for an unknown id, 403 for another landlord's
   * reminder, otherwise `isActive` is negated and nothing else changes.
   */
  method ToggleReminder(db: Db, user: nat, reminderId: nat) returns (reply: Reply<Saved>)
    requires db.Valid()
    modifies db
    ensures db.Valid()
    ensures db.properties == old(db.properties) && db.rents == old(db.rents) && db.nextId == old(db.nextId)
    ensures var k := FindReminder(old(db.reminders), reminderId);
      && (k.None? ==> reply == Fail(404, ReminderNotFound) && db.reminders == old(db.reminders))
      && (k.Some? && old(db.reminders)[k.value].landlordId != user ==>
            reply == Fail(403, NoReminderAccess) && db.reminders == old(db.reminders))
      && (k.Some? && old(db.reminders)[k.value].landlordId == user ==>
            var r := old(db.reminders)[k.value].(isActive := !old(db.reminders)[k.value].isActive);
            && db.reminders == old(db.reminders)[k.value := r]
            && reply == Ok(Saved(ToggleMessage(r.isActive), r)))
  {
    var k := FindReminder(db.reminders, reminderId);
    if k.None? {
      return Fail(404, ReminderNotFound);
    }
    var reminder := db.reminders[k.value];
    if reminder.landlordId != user {
      return Fail(403, NoReminderAccess);
    }
    reminder := reminder.(isActive := !reminder.isActive);
    db.reminders := db.reminders[k.value := reminder];
    reply := Ok(Saved(ToggleMessage(reminder.isActive), reminder));
  }

  /** Toggling the same reminder twice restores every reminder. */
  method ToggleReminderTwice(db: Db, user: nat, reminderId: nat) returns (first: Reply<Saved>, second: Reply<Saved>)
    requires db.Valid()
    modifies db
    ensures db.reminders == old(db.reminders)
    ensures first.Ok? <==> second.Ok?
    ensures first.Ok? ==> first.body.reminder.isActive == !second.body.reminder.isActive
  {
    first := ToggleReminder(db, user, reminderId);
    second := ToggleReminder(db, user, reminderId);
  }

  /**
   * `PUT /mark-sent/:reminderId` (no owner check): 404 for an unknown id, otherwise the
   * send time becomes now and the next send date the same day of next month at noon.
   */
  method MarkSent(db: Db, reminderId: nat, now: DateTime) returns (reply: Reply<Saved>)
    requires db.Valid() && now.Valid()
    modifies db
    ensures db.Valid()
    ensures db.properties == old(db.properties) && db.rents == old(db.rents) && db.nextId == old(db.nextId)
    ensures var k := FindReminder(old(db.reminders), reminderId);
      && (k.None? ==> reply == Fail(404, ReminderNotFound) && db.reminders == old(db.reminders))
      && (k.Some? ==>
            var old_r := old(db.reminders)[k.value];
            var r := old_r.(lastSentDate := Some(now),
                            nextSendDate := Some(NextMonthSameDayNoon(now, old_r.reminderDays)));
            && db.reminders == old(db.reminders)[k.value := r]
            && reply == Ok(Saved(MarkedSent, r)))
    ensures reply.Ok? ==> TimeValue(reply.body.reminder.nextSendDate.value) > TimeValue(now)
  {
    var k := FindReminder(db.reminders, reminderId);
    if k.None? {
      return Fail(404, ReminderNotFound);
    }
    var reminder := db.reminders[k.value];
    reminder := reminder.(lastSentDate := Some(now));
    var nextMonth := now;
    nextMonth := SetMonth(nextMonth, nextMonth.month + 1);
    nextMonth := SetDate(nextMonth, reminder.reminderDays);
    nextMonth := SetHours(nextMonth, 12);
    assert nextMonth == NextMonthSameDayNoon(now, reminder.reminderDays);
    reminder := reminder.(nextSendDate := Some(nextMonth));
    assert reminder.Valid();
    db.reminders := db.reminders[k.value := reminder];
    reply := Ok(Saved(MarkedSent, reminder));
  }

  // ---------------------------------------------------------------------------------------
  // pending-reminders

  /** The query `{ isActive: true, nextSendDate: { $gte: lo, $lt: hi } }` on one reminder. */
  predicate InWindow(r: Reminder, lo: int, hi: int)
  {
    r.isActive && r.nextSendDate.Some? && lo <= TimeValue(r.nextSendDate.value) < hi
  }

  /** `Reminder.find(...)` with that query: the matching reminders in store order. */
  function FindInWindow(reminders: seq<Reminder>, lo: int, hi: int): (s: seq<Reminder>)
    ensures |s| <= |reminders|
    ensures forall r :: r in s <==> r in reminders && InWindow(r, lo, hi)
  {
    if reminders == [] then []
    else
      var rest := FindInWindow(reminders[1..], lo, hi);
      if InWindow(reminders[0], lo, hi) then [reminders[0]] + rest else rest
  }

  /** An active reminder whose next send date falls on the calendar day of `day`. */
  predicate DueOn(r: Reminder, day: DateTime)
  {
    && r.isActive && r.nextSendDate.Some?
    && r.nextSendDate.value.year == day.year && r.nextSendDate.value.month == day.month
    && r.nextSendDate.value.day == day.day
  }

  /** The reminders due on the calendar day of `day`, in store order. */
  function DueReminders(reminders: seq<Reminder>, day: DateTime): (s: seq<Reminder>)
    ensures |s| <= |reminders|
    ensures forall r :: r in s <==> r in reminders && DueOn(r, day)
  {
    if reminders == [] then []
    else
      var rest := DueReminders(reminders[1..], day);
      if DueOn(reminders[0], day) then [reminders[0]] + rest else rest
  }

  /**
   * A valid date lies in `[today 00:00, tomorrow 00:00)` exactly when it is on today's
   * calendar day, where tomorrow is today with its day of month incremented.
   */
  lemma WindowIsCalendarDay(now: DateTime, d: DateTime)
    requires now.Valid() && d.Valid()
    ensures var today := SetHours(now, 0);
      var tomorrow := SetDate(today, today.day + 1);
      TimeValue(today) <= TimeValue(d) < TimeValue(tomorrow)
      <==> d.year == now.year && d.month == now.month && d.day == now.day
  {
    var today := SetHours(now, 0);
    var tomorrow := SetDate(today, today.day + 1);
    var N, D := DayNumber(now), DayNumber(d);
    assert DayNumber(today) == N;
    assert DayNumber(tomorrow) == N + 1;
    if D < N {
      EarlierDayFirst(d, today);
    } else if D == N + 1 {
      assert TimeValue(tomorrow) == D * MsPerDay;
    } else if D > N + 1 {
      EarlierDayFirst(tomorrow, d);
    } else {
      assert TimeValue(today) == D * MsPerDay;
      assert TimeValue(tomorrow) == D * MsPerDay + MsPerDay;
    }
    if d.year == now.year && d.month == now.month && d.day == now.day {
      assert D == N;
    } else if D == N {
      DayNumberInjective(d, now);
    }
  }

  /** On reminders with valid dates, the window query selects exactly the reminders due today. */
  lemma {:induction false} WindowQueryIsDueToday(reminders: seq<Reminder>, now: DateTime)
    requires now.Valid()
    requires forall i :: 0 <= i < |reminders| ==> reminders[i].Valid()
    ensures var today := SetHours(now, 0);
      FindInWindow(reminders, TimeValue(today), TimeValue(SetDate(today, today.day + 1)))
      == DueReminders(reminders, now)
  {
    if reminders != [] {
      var r := reminders[0];
      assert r.Valid();
      if r.nextSendDate.Some? {
        WindowIsCalendarDay(now, r.nextSendDate.value);
      }
      WindowQueryIsDueToday(reminders[1..], now);
    }
  }

  /**
   * `GET /pending-reminders`: today at midnight, tomorrow one day later, and the active
   * reminders whose next send date lies in between, which are the ones due on today's date.
   */
  method PendingReminders(db: Db, now: DateTime) returns (count: nat, pending: seq<Reminder>)
    requires db.Valid() && now.Valid()
    ensures pending == DueReminders(db.reminders, now)
    ensures count == |pending|
    ensures forall r :: r in pending <==> r in db.reminders && DueOn(r, now)
  {
    var today := now;
    today := SetHours(today, 0);
    var tomorrow := today;
    tomorrow := SetDate(tomorrow, tomorrow.day + 1);
    pending := FindInWindow(db.reminders, TimeValue(today), TimeValue(tomorrow));
    WindowQueryIsDueToday(db.reminders, now);
    count := |pending|;
  }
}
