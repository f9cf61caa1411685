# Rent tracking core, modelled in Dafny

The system is a rent-tracking service for landlords in Turkey. A landlord keeps properties and
one rent record per property and month. The landlord marks each month paid, pending or overdue,
exports a yearly report, and sets up monthly e-mail reminders. The service also sends WhatsApp
and SMS messages through vendor APIs. The web pages carry calculators for the legal TÜFE
(consumer price index) rent increase and for unpaid rent.

The model covers:

- the three record schemas (property, rent, reminder) as validating constructors;
- the rent routes over a sequential store (`Store.Db`); toggle-payment-status and
  generate-monthly-payments are proved to keep at most one rent record per property and period,
  while update-payment can break this (`RentRoutes.UpdateCanDuplicatePeriod`), and so can the
  corrected create-payment, which appends without a period lookup;
- the reminder routes and the reminder service, with the dates they compute;
- a small Gregorian calendar that reproduces JavaScript `Date` overflow;
- the phone formatting and response handling of the WhatsApp and SMS services;
- the calculators of the calculator page and the home page;
- the initials, the name fallback, the monthly status table and the logout of the tracking page.

Modules, one per modelled source file: `PropertyModel`, `RentModel`, `ReminderModel`,
`RentRoutes`, `ReminderService`, `ReminderRoutes`, `WhatsAppService`, `SmsService`,
`Calculator`, `HomeCalculators` (script.js) and `Tracking`. They share four modules that match
no single source file: `Common` (strings and JavaScript number parsing), `JsValue` (JSON values
and their property reads), `Calendar` (JavaScript `Date` arithmetic) and `Store` (the stored
collections).

How things are represented:

- "Now", the mail transport, the HTTP client, number-to-text rendering and the engine's
  TypeError message are parameters of the operations that use them.
- Amounts are `real`. A number field that JavaScript would hold as `NaN` is `Option<real>`,
  with `None` for `NaN`.
- Dates are `Calendar.DateTime(year, month0, day, msOfDay)`. Comparisons go through
  `Calendar.TimeValue`, the milliseconds since the epoch in a single time zone.

## Model

| member | source | states |
|---|---|---|
| Common.Trim | backend/models/Rent.js:45-48 | the mongoose `trim` result has no JavaScript white space at either end and keeps every other character |
| Common.TrimIsSlice | backend/models/Rent.js:45-48 | the trimmed string is the contiguous slice of the input that starts at its first non-space character, and every character outside that slice is white space |
| Common.TrimIdempotent | backend/models/Rent.js:45-48 | trimming a trimmed string changes nothing |
| Common.JsParseInt | backend/routes/rent.js:321 | `parseInt` of a blank text is NaN; a negative result needs a minus sign; a text starting with a digit 1-9 after white space gives a non-negative number |
| Common.ParseIntOfDecimal | backend/services/smsService.js:72 | `parseInt` of a decimal numeral returns its value |
| Calendar.Normalize | backend/models/Reminder.js:68 | `new Date(y, m, d, h)` gives a valid date whose time value is the ECMAScript MakeDay of the possibly overflowing fields |
| Calendar.SetMonth | backend/services/reminderService.js:63 | `setMonth(m)` keeps the time of day and gives the valid date whose day number is MakeDay(year, m, day): the day of month overflows into a later month rather than being clamped |
| Calendar.SetDate | backend/services/reminderService.js:64 | `setDate(day)` keeps the time of day and gives the valid date whose day number is MakeDay(year, month, day), overflowing like `new Date` |
| Calendar.SetHours | backend/services/reminderService.js:65 | `setHours(h, 0, 0, 0)` sets the time of day to exactly h hours and keeps year, month and day, so a valid date stays valid on the same day |
| Calendar.NormalizeValid | backend/models/Reminder.js:68 | normalising a date that is already valid returns it unchanged |
| Calendar.DayNumberInjective | backend/models/Rent.js:67-69 | two valid dates on the same day number have the same year, month and day |
| Calendar.TimeValueOrder | backend/models/Rent.js:67-69 | `<` on dates holds exactly when the first is earlier in calendar order (year, month, day, time) |
| Calendar.MonthIndexTwelveIsNextJanuary | backend/models/Reminder.js:71 | in every year, month index 12 with any day up to 31 is that day of January of the next year |
| Calendar.DayThirtyOneOfAprilIsFirstOfMay | backend/models/Reminder.js:68 | in every year, day 31 of April (30 days) is 1 May at the same time of day |
| Calendar.SetMonthOnThirtyFirstSkipsFebruary | backend/services/reminderService.js:62-63 | `setMonth(month + 1)` on 31 January lands on 3 March in a common year and on 2 March in a leap year |
| PropertyModel.ParsePropertyType | backend/models/Property.js:19-23 | a type is accepted iff it is one of daire, villa, dükkan, ofis, arsa |
| PropertyModel.ParseOccupancy | backend/models/Property.js:40-44 | a status is accepted iff it is vacant or occupied |
| PropertyModel.BuildProperty | backend/models/Property.js:4-44 | a property is saved iff landlord, name and address are present, rent is present and ≥ 0, aidat ≥ 0, dueDay is in 1..31 and both enums are valid; the saved document carries the landlord, the trimmed name, address and tenant fields, and the supplied type, aidat and status, with defaults daire, aidat 0 and vacant; a rejection names at least one field |
| PropertyModel.FindProperty | backend/routes/rent.js:191 | a found property has the requested id; when none is found, no property has it |
| RentModel.ParseStatusExact | backend/models/Rent.js:26-30 | a status string is accepted iff it is exactly the name of pending, paid or overdue |
| RentModel.BuildRent | backend/models/Rent.js:4-48 | a rent record is saved iff property and landlord are present, amount is present and ≥ 0, the due date is present, the status is valid, month is in 1..12 and year is present; the defaults are pending and not dues; a missing month or year is always a rejection |
| RentModel.IsOverdue | backend/models/Rent.js:67-69 | for valid dates, overdue iff the due date comes before now in calendar order (year, month, day, time) and the record is not paid |
| RentModel.StatusLabel | backend/routes/rent.js:331 | `Ödendi` iff paid, `Ödenmedi` iff overdue, `Bekliyor` iff pending, so the label determines the status |
| RentModel.CeilDays | backend/models/Rent.js:77 | `Math.ceil(ms / 86400000)` is the least n with ms ≤ n days |
| RentModel.OverdueDays | backend/models/Rent.js:72-79 | 0 for a paid record; a positive result is the ceiling of the elapsed days since the due date |
| RentModel.OverdueDaysPositiveIffOverdue | backend/models/Rent.js:67-79 | the overdue day count is positive iff `isOverdue` holds: due date before now and not paid |
| RentModel.FirstRentFor | assets/js/tracking.js:868 | `payments.find(month === m && !isAidat)`: the first matching record, none before it; none means no record matches |
| ReminderModel.BuildReminder | backend/models/Reminder.js:4-38 | a reminder is saved iff property, landlord, owner name and e-mail are present, reminderDays is in 1..31 and the custom message is at most 500 characters; the saved document carries the trimmed owner name, e-mail and custom message; isActive defaults to true |
| ReminderModel.CalculateNextSendDate | backend/models/Reminder.js:62-76 | this month's day d at 12:00 if that is after now, else next month's; always at noon and after now when d ≥ 1 |
| ReminderModel.NextMonthNoonIsLater | backend/models/Reminder.js:71 | next month's day d at noon is after now for every d ≥ 1 |
| ReminderModel.NextSendDateIsEarliest | backend/models/Reminder.js:62-76 | no valid date on day d at noon lies after now and before the result |
| ReminderModel.AgainstCandidates | backend/models/Reminder.js:67-73 | a noon on day d falls before now in an earlier month, on this month's candidate in this month, and no earlier than next month's candidate in a later month |
| ReminderModel.ThirtyFirstInAprilOverflowsToMay | backend/models/Reminder.js:68-73 | reminder day 31 asked for on any day of April gives 1 May at noon, not 30 April |
| ReminderModel.NextMonthSameDayNoon | backend/services/reminderService.js:61-66 | the reschedule gives a noon after now; from a day ≤ 28 with d ≤ 28 it is day d of the next month |
| ReminderModel.RescheduledDayIsLater | backend/services/reminderService.js:62-66 | `setMonth(+1)`, `setDate(d)`, `setHours(12)` is after now for every d ≥ 1 |
| ReminderModel.MovedIntoLaterMonth | backend/services/reminderService.js:63 | `setMonth(getMonth() + 1)` always moves to a later month |
| ReminderModel.NextMonthFromJanuaryThirtyFirstSkipsFebruary | backend/routes/reminders.js:163-166 | marking a reminder sent on 31 January schedules it for day d of March, in every year and for every d in 1..31 |
| ReminderModel.GenerateSmsMessage | backend/models/Reminder.js:79-87 | the message starts with the base text; it is exactly the base text without a custom message, and otherwise continues with a blank line, the custom message, another blank line and the company name |
| RentRoutes.FindPeriod | backend/routes/rent.js:196-201 | `findOne({propertyId, isAidat: false, month, year})`: the first matching record, none before it; none means no record matches |
| RentRoutes.AppendFreshPeriod | backend/routes/rent.js:202-215 | appending a record for a period that has none keeps at most one record per period, and the lookup then finds the new record |
| RentRoutes.ChangeStatusKeepsPeriods | backend/routes/rent.js:216-219 | changing a record's status keeps at most one record per period and leaves every lookup where it was |
| RentRoutes.StatusFromRequest | backend/routes/rent.js:212 | a missing status defaults to pending; a given one is accepted iff it is one of the three names |
| RentRoutes.SaveNewRent | backend/routes/rent.js:284-294 | a new record is appended with the next id iff the schema accepts it; otherwise the store is unchanged |
| RentRoutes.TogglePaymentStatus | backend/routes/rent.js:187-233 | 403 and no change for a property not owned; an existing period record only gets the requested status; otherwise one record is appended with property.rent, due date (year, month−1, dueDay) and the status; afterwards the lookup finds a record with that status; periods stay unique |
| RentRoutes.GenerateMonthlyPayments | backend/routes/rent.js:265-306 | 403 for a property not owned; an existing period record is returned unchanged; otherwise a pending record with property.rent and due date (year, month−1, dueDay) is appended; periods stay unique |
| RentRoutes.GenerateMonthlyPaymentsTwice | backend/routes/rent.js:276-295 | a second call for the same period returns the same reply; together the two calls add at most the one returned record, and nothing when the first call fails |
| RentRoutes.CreatePayment | backend/routes/rent.js:35-76 | as written: 403 for a property not owned, otherwise always 500, and the store never changes |
| RentRoutes.CreatePaymentAlwaysRejected | backend/routes/rent.js:52-62 | the record built from any request lacks month and year, so the schema rejects it |
| RentRoutes.CreatePaymentForPeriod | backend/routes/rent.js:52-70 | corrected: a request with amount ≥ 0, a due date and a valid status appends one record whose month and year are those of its due date |
| RentRoutes.ApplyUpdates | backend/routes/rent.js:109-116 | each supplied field replaces the stored one; every field not supplied, and id, landlord, month and year, is kept |
| RentRoutes.ApplyUpdatesIdempotent | backend/routes/rent.js:109-116 | applying the same update twice equals applying it once |
| RentRoutes.ApplyUpdatesKeepsValid | backend/routes/rent.js:118-122 | an update that passes the validators turns a valid record into a valid record |
| RentRoutes.UpdateCanDuplicatePeriod | backend/routes/rent.js:109-122 | clearing `isAidat` on a dues record can create a second rent record for the same period |
| RentRoutes.FindRent | backend/routes/rent.js:92-95 | `findById`: a found record has the id; none means no record has it |
| RentRoutes.UpdatePayment | backend/routes/rent.js:79-134 | 404 for an unknown id, 403 for another landlord's record or property, 500 when the validators fail (among them an amount sent as `null`, which the required validator refuses); otherwise only that record is replaced by the merged one |
| RentRoutes.WithStatus | backend/routes/rent.js:169-175 | a record is kept iff it is in the input and has that status |
| RentRoutes.SumAmountsNonNegative | backend/routes/rent.js:172-175 | a sum of non-negative amounts is non-negative |
| RentRoutes.StatusesPartition | backend/routes/rent.js:169-175 | the paid, pending and overdue filters split the records: their counts and their amounts add up to the whole |
| RentRoutes.RentsOf | backend/routes/rent.js:163 | exactly the landlord's records |
| RentRoutes.PropertiesOf | backend/routes/rent.js:164 | exactly the landlord's properties |
| RentRoutes.OccupiedOnes | backend/routes/rent.js:168 | exactly the occupied properties, no more than there are properties |
| RentRoutes.ComputeStatistics | backend/routes/rent.js:161-184 | paid + pending + overdue amounts = total amount; tenants ≤ properties; pending + overdue ≤ payments; the amounts are non-negative when every record's amount is |
| RentRoutes.OfPropertyYear | backend/routes/rent.js:319-322 | exactly the property's records of the given year |
| RentRoutes.ExportPropertyPayments | backend/routes/rent.js:309-341 | 403 for a property not owned; 500 "Rapor export edilemedi" when the year is missing or `parseInt` gives NaN, which the query cannot cast; otherwise the header followed by the twelve month rows over that year's records |
| RentRoutes.CsvRowIsOneLine | backend/routes/rent.js:332 | each month row ends in the only line break it contains |
| RentRoutes.CsvRowsLineCount | backend/routes/rent.js:329-333 | n month rows contain n line breaks |
| RentRoutes.CsvLineCount | backend/routes/rent.js:328-333 | the report has 13 lines: the header and one row per month |
| RentRoutes.ExportFindsPeriodRecord | backend/routes/rent.js:330 | the report's lookup in the year's records finds the same record as the period lookup, and finds none exactly when there is none |
| RentRoutes.ExportShowsRecordedStatus | backend/routes/rent.js:330-331 | each month shows the label of that period's record, or `Bekliyor` when it has none |
| ReminderService.MailText | backend/services/reminderService.js:52-57 | the body starts with the greeting and amount and ends with the signature; a custom message is in between only when present |
| ReminderService.AfterSend | backend/services/reminderService.js:59-67 | when the property exists and the mail is delivered, the last sent date becomes now and the next send date the chosen day of next month at noon; otherwise the reminder is unchanged; every other field is kept, and so is validity |
| ReminderService.SendReminder | backend/services/reminderService.js:45-74 | no property: failure and no mail; a mail that throws: failure and the reminder unchanged; a delivered mail: lastSentDate = now and nextSendDate = next month, day d, noon |
| ReminderService.Select | backend/services/reminderService.js:12-15 | the selected positions are in increasing order and are exactly the active reminders whose day is today's day of month |
| ReminderService.AfterRound | backend/services/reminderService.js:19-27 | after sending to a set of positions, exactly those reminders are updated as by `sendReminder` and the rest are unchanged |
| ReminderService.AfterRoundStep | backend/services/reminderService.js:19-27 | one more iteration of the loop updates the next selected reminder, which no earlier iteration touched |
| ReminderService.SendEach | backend/services/reminderService.js:19-27 | the loop counts every selected reminder as a success, none as an error, and leaves the reminders as `AfterRound` says |
| ReminderService.RoundOverSelection | backend/services/reminderService.js:12-27 | the round over the selection updates exactly the active reminders due today |
| ReminderService.CheckAndSendReminders | backend/services/reminderService.js:7-42 | total = number selected = successCount + errorCount, with errorCount 0; each selected reminder is updated as by `sendReminder`, the others are unchanged |
| ReminderRoutes.FindAt | backend/routes/reminders.js:18 | the first `@` from a position, or none |
| ReminderRoutes.PlainExcept | backend/routes/reminders.js:18 | every character except one is neither `@` nor white space |
| ReminderRoutes.FindDot | backend/routes/reminders.js:18 | a dot in a range, or none in it |
| ReminderRoutes.EmailMatchesIffShape | backend/routes/reminders.js:18 | the matcher accepts exactly the strings of `^[^@\s]+@[^@\s]+\.[^@\s]+$` |
| ReminderRoutes.PlainAddressAccepted | backend/routes/reminders.js:18 | an ordinary address is accepted |
| ReminderRoutes.AddressWithSpaceRejected | backend/routes/reminders.js:18 | an address with a space is rejected |
| ReminderRoutes.SaveNewReminder | backend/routes/reminders.js:26-35 | a new reminder is appended with the next id iff the schema accepts it; otherwise the store is unchanged |
| ReminderRoutes.AddReminder | backend/routes/reminders.js:9-41 | 403 before the 400 for the e-mail, before the 400 for the day range, then a schema check; a saved reminder is active, belongs to the user and has nextSendDate = calculateNextSendDate, after now |
| ReminderRoutes.FindReminder | backend/routes/reminders.js:97 | `findById`: the first reminder with the id, or none |
| ReminderRoutes.ToggleReminder | backend/routes/reminders.js:93-118 | 404 or 403 without change; otherwise only that reminder's isActive is negated |
| ReminderRoutes.ToggleReminderTwice | backend/routes/reminders.js:106 | toggling twice restores every reminder |
| ReminderRoutes.MarkSent | backend/routes/reminders.js:150-181 | 404 without change; otherwise lastSentDate = now and nextSendDate = next month, day d, noon, after now |
| ReminderRoutes.FindInWindow | backend/routes/reminders.js:130-136 | a reminder is listed iff it is stored, active and its next send date is in [lo, hi) |
| ReminderRoutes.DueReminders | backend/routes/reminders.js:130-136 | exactly the active reminders whose next send date falls on the given calendar day |
| ReminderRoutes.WindowIsCalendarDay | backend/routes/reminders.js:123-127 | [today 00:00, tomorrow 00:00) contains a date iff it is on today's calendar day |
| ReminderRoutes.WindowQueryIsDueToday | backend/routes/reminders.js:123-136 | the time-window query selects exactly the reminders due today |
| ReminderRoutes.PendingReminders | backend/routes/reminders.js:121-147 | the reply lists exactly the active reminders due today, and the count is their number |
| JsValue.Get | backend/services/whatsappService.js:73 | a property read throws exactly on undefined and null and returns the field of an object |
| JsValue.At | backend/services/whatsappService.js:73 | an index read throws exactly on undefined and null and returns the element of an array |
| JsValue.OptionalGet | backend/services/smsService.js:165 | `?.` gives undefined on undefined and null, and the field of an object |
| JsValue.Or | backend/services/smsService.js:114 | `a \|\| b` is a when a is truthy, b otherwise |
| WhatsAppService.DigitsOf | backend/services/whatsappService.js:22 | `replace(/\D/g, '')` leaves only digits and keeps a string of digits as it is |
| WhatsAppService.FormattedPhone | backend/services/whatsappService.js:22-27 | the formatted phone is all digits and starts with 90 |
| WhatsAppService.TrunkZeroBecomesCountryCode | backend/services/whatsappService.js:23-24 | a leading 0 is replaced by 90 |
| WhatsAppService.CountryCodeKept | backend/services/whatsappService.js:25-27 | digits already starting with 90 are left unchanged |
| WhatsAppService.FormattedPhoneIdempotent | backend/services/whatsappService.js:22-27 | formatting a formatted phone changes nothing |
| WhatsAppService.DigitsOfConcat | backend/services/whatsappService.js:22 | digit extraction distributes over concatenation |
| WhatsAppService.NonDigitIgnored | backend/services/whatsappService.js:22-27 | inserting a non-digit anywhere does not change the formatted phone |
| WhatsAppService.SendOutcome | backend/services/whatsappService.js:73-98 | a thrown request fails with its message; an answer with undefined or null data fails with the TypeError message; otherwise success iff `messages` and `messages[0]` are truthy, carrying `messages[0].id`, and failure is "Mesaj gönderilemedi" |
| WhatsAppService.AcceptedMessageYieldsId | backend/services/whatsappService.js:73-78 | an answer listing a message yields that message's id |
| WhatsAppService.AnswerWithoutMessagesFails | backend/services/whatsappService.js:79-84 | an answer without messages fails with `Mesaj gönderilemedi` |
| WhatsAppService.SendMessage | backend/services/whatsappService.js:19-99 | the payload goes to the formatted phone; it is a template in language tr iff a template name is given, otherwise a text with the message; the result classifies the answer |
| WhatsAppService.VerifyWebhook | backend/services/whatsappService.js:174-179 | the challenge is returned iff mode is subscribe and the token equals the configured one; null otherwise |
| WhatsAppService.UnsetTokenAcceptsMissingToken | backend/services/whatsappService.js:175 | with no configured token, a subscription without a token is accepted |
| WhatsAppService.ProcessWebhook | backend/services/whatsappService.js:182-204 | a result iff object = whatsapp_business_account, the first change has a truthy `messages` of positive length, and its first element can be read; the result is that message's from, type and timestamp, with its text body or null when `text` is falsy |
| WhatsAppService.FirstMessageExtracted | backend/services/whatsappService.js:189-196 | the first message's from, type and timestamp are returned, with the text body or null |
| WhatsAppService.StatusUpdateIgnored | backend/services/whatsappService.js:189 | a notification without messages yields null |
| WhatsAppService.MissingEntryYieldsNull | backend/services/whatsappService.js:200-203 | a body whose `entry` read throws yields null, not an exception |
| WhatsAppService.OtherObjectIgnored | backend/services/whatsappService.js:184 | any other object kind yields null |
| SmsService.StripLeadingZero | backend/services/smsService.js:20-22 | a leading 0 is removed; a phone without one is unchanged |
| SmsService.OnlyOneZeroStripped | backend/services/smsService.js:20-22 | only one leading 0 is removed |
| SmsService.CaptureAt | backend/services/smsService.js:50 | the digit run of `<code>(\d+)</code>` at a position, which is the only capture there |
| SmsService.OnlyWholeRun | backend/services/smsService.js:50 | a match must capture the whole digit run |
| SmsService.FindDigitTag | backend/services/smsService.js:50 | the leftmost match of the digit tag, with no match before it; none means no match anywhere |
| SmsService.FindClose | backend/services/smsService.js:51 | the first closing tag before any line terminator, as the lazy `.*?` finds it |
| SmsService.FindLazyTag | backend/services/smsService.js:51 | the leftmost match of `<message>(.*?)</message>` |
| SmsService.FirstSegment | backend/services/smsService.js:71 | `split(':')[0]` has no colon and is the text before the first colon |
| SmsService.ClassifyText | backend/services/smsService.js:48-91 | an XML answer succeeds iff its code is 200, with the id or null; an XML failure carries the message or `Bilinmeyen hata`; an `id:text` answer succeeds iff the id parses above 0; anything else fails with `Geçersiz API response` |
| SmsService.FirstSegmentBeforeColon | backend/services/smsService.js:71 | the first segment of `a:rest` is a |
| SmsService.NoTagWithoutBracket | backend/services/smsService.js:48 | a text without `<` contains no tag |
| SmsService.ColonAnswerWithPositiveId | backend/services/smsService.js:69-78 | `n:text` with n > 0 succeeds with order id n |
| SmsService.ClassifyGetData | backend/services/smsService.js:48-91 | a string answer is classified as text; an object, a non-zero number or true makes `includes` throw; a falsy answer fails with `Geçersiz API response` |
| SmsService.CatchGet | backend/services/smsService.js:93-116 | the catch never reports success; an XML `<message>` in the body is the error; otherwise the error is the body when truthy and the error message when not; the handler itself throws exactly for a truthy body that is neither a string nor an array without `<message>` |
| SmsService.SendSms | backend/services/smsService.js:17-117 | the request goes to the stripped phone; the result classifies the answer or the error |
| SmsService.ClassifyJsonData | backend/services/smsService.js:161-179 | success iff the answer has a response whose status code is the string `200`; the order id is read with `?.`; no answer gives `Geçersiz response` |
| SmsService.NumericCodeIsFailure | backend/services/smsService.js:162 | a numeric code 200 is a failure under `===` |
| SmsService.SendSmsJson | backend/services/smsService.js:120-188 | the request goes to the stripped phone; the result classifies the answer or the error |
| Calculator.MonthsDifference | assets/js/calculator.js:397-401 | max(0, 12·(y2−y1) + (m2−m1)) |
| Calculator.MonthsDifferenceIgnoresDay | assets/js/calculator.js:397-401 | the day of month does not change the month difference |
| Calculator.TwelveMonthsIsOneYearOn | assets/js/calculator.js:61-63 | twelve months have passed iff the month index advanced by at least 12 |
| Calculator.TufeIncrease | assets/js/calculator.js:42-93 | missing fields iff the date is empty or the rent or rate is 0 or NaN; a warning with 1..12 months left iff under 12 months; otherwise increase = min(rent·tüfe/100, rent·25/100), new rent = rent + increase, and limited iff the TÜFE increase exceeds the 25% maximum |
| Calculator.IncreaseIsCapped | assets/js/calculator.js:76-82 | for positive rent and rate, increase = rent·min(tüfe, 25)/100, rent ≤ new rent ≤ 1.25·rent, limited iff the rate exceeds 25, and the effective rate is min(tüfe, 25) |
| Calculator.NegativeRentTakesLargerRate | assets/js/calculator.js:76-78 | for a negative rent the minimum picks the larger rate |
| Calculator.Classify | assets/js/calculator.js:129-141 | complete iff abs(difference) < 0.01; underpaid iff difference ≥ 0.01; overpaid otherwise, NaN included |
| Calculator.PaymentDifference | assets/js/calculator.js:106-159 | as written: missing fields iff rent is 0/NaN or a date is empty; an error iff the month difference is 0; otherwise total = rent·months and the difference is classified |
| Calculator.EmptyPaidAmountReportedAsOverpaid | assets/js/calculator.js:110-113 | an empty paid amount passes the guard and is reported as overpaid |
| Calculator.PaymentDifferenceChecked | assets/js/calculator.js:113 | corrected: an empty paid amount is a missing field; otherwise as written |
| Calculator.CheckedOverpaidMeansPaidMore | assets/js/calculator.js:137-141 | with the check, overpaid means paid ≥ due + 0.01 |
| Calculator.RentAfterCompounds | assets/js/calculator.js:207-209 | each year's rent is the previous one times (1 + rate/100) |
| Calculator.RentAfterGrows | assets/js/calculator.js:207-209 | with non-negative rent and rate, the rent never decreases over the years |
| Calculator.RentAfterBoundedByRate | assets/js/calculator.js:190 | a lower rate never gives a higher rent, so the 25 cap bounds the projection |
| Calculator.ProjectionRow | assets/js/calculator.js:208-217 | rent = base + cumulative increase = previous rent + increase |
| Calculator.GenerateProjectionTable | assets/js/calculator.js:196-221 | years+1 rows; row 0 is the base rent with no increase; row i is the rent after i compounding years |
| Calculator.CalculateProjection | assets/js/calculator.js:172-194 | missing fields iff a field is 0 or NaN; otherwise rate = min(rate, 25), a warning iff the rate exceeds 25, and the table at that rate |
| HomeCalculators.RateFor | script.js:61 | the year's TÜFE rate, or 50 when the year is not listed |
| HomeCalculators.CalculateRent | script.js:42-79 | missing fields iff the date is empty or the rent is 0 or NaN; no increase in the contract's own year; otherwise increase = min(rent·rate/100, rent·0.25) |
| HomeCalculators.CapBindsExceptIn2020And2021 | script.js:33-39 | for a positive rent the new rent is 1.25·rent iff the year is not 2020 or 2021 |
| HomeCalculators.SameIncreaseAsCalculatorPage | script.js:62-67 | at the same rate both calculators give the same new rent and percentage |
| HomeCalculators.YearGateOpensBeforeMonthGate | script.js:52-58 | a December contract is increased here in January while the calculator page waits 11 more months |
| HomeCalculators.DebtStatusOf | script.js:93-125 | debt iff difference > 0, credit iff < 0, settled iff exactly 0 or NaN |
| HomeCalculators.CalculateDebt | script.js:82-125 | as written: missing fields iff rent is 0/NaN or months is 0/NaN; total = rent·months and the difference is classified |
| HomeCalculators.EmptyPaidAmountReportedAsSettled | script.js:82-125 | an empty paid amount is reported as settled |
| HomeCalculators.CalculateDebtChecked | script.js:82-125 | corrected: an empty paid amount is a missing field; otherwise as written |
| HomeCalculators.CheckedSettledMeansPaidInFull | script.js:82-125 | with the check, settled means exactly the total was paid |
| HomeCalculators.AgreesWithCalculatorOutsideTolerance | script.js:93-125 | beyond 0.01 debt is underpaid and credit is overpaid on the calculator page |
| HomeCalculators.ToleranceSeparatesThePages | script.js:93-125 | half a kuruş short is a debt here and complete on the calculator page |
| Tracking.Split | assets/js/tracking.js:160 | `split(' ')` gives one piece more than there are spaces, none containing a space |
| Tracking.JoinOfSplit | assets/js/tracking.js:160 | joining the pieces with spaces gives back the name |
| Tracking.SplitWithoutSpace | assets/js/tracking.js:160-161 | a name without a space is one piece |
| Tracking.SplitAfterWord | assets/js/tracking.js:160 | a word and a space split off as the first piece |
| Tracking.SplitOfJoin | assets/js/tracking.js:160 | splitting space-free pieces joined by spaces gives the pieces back |
| Tracking.UpperTextConcat | assets/js/tracking.js:165 | upper-casing distributes over concatenation |
| Tracking.UpperOfUpper | assets/js/tracking.js:162 | upper-casing an upper-cased character changes nothing |
| Tracking.UpperTextIdempotent | assets/js/tracking.js:165 | upper-casing twice equals upper-casing once |
| Tracking.FirstChar | assets/js/tracking.js:162 | `charAt(0)` is the first character, or empty |
| Tracking.UserInitials | assets/js/tracking.js:157-166 | `E` for an empty or missing name; a one-word name gives its upper-cased first character |
| Tracking.InitialsOfFirstAndLastPiece | assets/js/tracking.js:165 | for two or more words, the upper-cased first characters of the first and last words |
| Tracking.SingleSpaceHasNoInitials | assets/js/tracking.js:160-165 | a name of one space has two empty pieces and empty initials |
| Tracking.FirstPresent | assets/js/tracking.js:136 | `a \|\| b \|\| fallback` |
| Tracking.UpdateUserDisplay | assets/js/tracking.js:130-154 | the shown name is the name when truthy, else the display name when truthy, else `Ev Sahibi`; the e-mail or empty; the avatar is the picture iff there is one (alt text falling back to `Kullanıcı`), else the initials of name, displayName or `E` |
| Tracking.AvatarMatchesShownName | assets/js/tracking.js:136-148 | without a picture but with a name, the avatar shows the initials of the shown name |
| Tracking.MonthStatus | assets/js/tracking.js:868-869 | the status of the first non-dues record of the month, or pending when there is none |
| Tracking.SameLabelAsExport | assets/js/tracking.js:867-882 | the page shows the same label for each month as the CSV report |
| Tracking.PaymentsHistory | assets/js/tracking.js:849-890 | twelve rows, row m for month m with the month's status |
| Tracking.ClearedStorage | assets/js/tracking.js:292-296 | exactly the five logout keys are removed; every other key keeps its value |
| Tracking.LogoutIdempotent | assets/js/tracking.js:290-299 | logging out twice leaves the same storage as once |
| Tracking.Session.constructor | assets/js/tracking.js:2-4 | the page starts with the given user, lists and storage |
| Tracking.Session.SecureLogout | assets/js/tracking.js:290-299 | the five keys are removed, currentUser becomes null, and the property and payment lists are unchanged |

## Left out

- RentRoutes.TogglePaymentStatus, RentRoutes.GenerateMonthlyPayments: `month` and `year` are
  integers, so a request body without them cannot be expressed. The tracking page always sends
  both (assets/js/tracking.js:902-906), so no behaviour of the core is lost.
- Network, mail and clock: the HTTP client, the mail transport and "now" are parameters. Their
  outcomes are given as values (answered or threw).
- Time zones: every date is in one time zone. `toLocaleDateString`, `Intl.NumberFormat`,
  `toFixed` and the currency formatting are the opaque parameter `render` or are not modelled.
- Floating point: amounts are exact reals, so rounding in `*`, `/` and `0.01` comparisons is
  not modelled. `NaN` is `None`.
- Strings are sequences of characters, not UTF-16 code units, so `length` and `charAt` differ
  from JavaScript on characters outside the Basic Multilingual Plane.
- Dates whose text does not parse (`Invalid Date`) are not modelled; an empty date field is `None`.
- Hour overflow in `Date` is not modelled. Every call site passes an hour in 0..23.
- The database query engine (`find`, `populate`, `sort`) is modelled as filters over sequences in
  store order. Concurrent requests racing through find-or-create are not modelled; calls are
  sequential.
- The routes `my-payments`, `delete-payment`, `export` (the all-records CSV),
  `property-payments`, `property-reminders`, `delete-reminder`, `check-reminders`,
  `send-test-sms`, `active-reminders` and `sms-balance` are reads or deletes with no logic
  beyond the store, and are not modelled.
- `sendRentReminder`, `sendAidatReminder`, `sendContractRenewalReminder` and `sendTestMessage`
  only fill a fixed message text and call `sendMessage`, which is modelled.
- Authentication, sessions, JWT, OAuth, file upload and the Express wiring are not part of this model.
- The DOM: `showResult`, `showError`, `initChart`, the HTML of the tables and the modals, and the
  event listeners are not modelled. The `contractAnniversary` date shown in the warning of
  `calculateTufeIncrease` is display only.
- SmsService.ClassifyText: the `response` field of a success result (the raw answer) is not
  carried.
- JsValue.Positive: the comparison `> 0` on a string or an object first converts it to a
  number. The model treats such operands as not positive.
- Tracking.UpperOf: `toUpperCase` is modelled for ASCII, Latin-1, `ÿ`, `ß` (to `SS`), `ı`, `ğ`
  and `ş` only. Other characters are kept as they are.
- RentRoutes.TogglePaymentStatus: a toggle request without a status is treated as `pending`.
  That is the schema default for a new record. On an existing record, assigning `undefined`
  would unset the stored field instead; the model writes `pending` there too.
- RentRoutes.UpdatePayment: `runValidators` on `findByIdAndUpdate` checks only the supplied
  fields. The model rejects an update whose supplied fields break the schema, and does not
  model the casting of text to numbers or dates. An amount sent as `null` (a cleared form
  field, whose `NaN` JSON sends as `null`) is `Some(None)` and is rejected like the schema does.
- WhatsAppService.SendOutcome: the raw `response` field of a success result (the whole answer) is
  not carried.
- ReminderModel.BuildReminder: `reminderDays` is modelled as an integer. The schema field is a
  Number, so a fractional day such as 5.5 passes the 1..31 checks, and such a reminder is never
  selected, because the send query compares it for equality with `getDate()`.
- WhatsAppService.VerifyWebhook: an unset `WHATSAPP_VERIFY_TOKEN` is `None`. A subscription
  request with no token then matches it, as `undefined === undefined` does.

## Findings

| source | as written | input that shows it | evidently intended | confidence | as-written member | corrected member |
|---|---|---|---|---|---|---|
| backend/routes/rent.js:52-62 | `create-payment` builds a record without `month` and `year`, which the schema requires, so every save fails with 500 | any request for an owned property | set month and year from the due date, so the record can be saved | high; not executed | RentRoutes.CreatePayment, RentRoutes.CreatePaymentAlwaysRejected | RentRoutes.CreatePaymentForPeriod |
| script.js:82-125 | the guard `paidAmount === undefined` never holds for the `NaN` that `parseFloat('')` returns, and `NaN` is neither above nor below 0 | monthly rent 1000, 12 months, paid amount left empty | an empty paid amount is reported as a missing field | high; not executed | HomeCalculators.CalculateDebt, HomeCalculators.EmptyPaidAmountReportedAsSettled | HomeCalculators.CalculateDebtChecked, HomeCalculators.CheckedSettledMeansPaidInFull |
| assets/js/calculator.js:110-113 | the same guard lets an empty paid amount through; the `NaN` difference fails both tests and lands in "overpaid" | monthly rent 1000, a 12-month period, paid amount left empty | an empty paid amount is reported as a missing field | high; not executed | Calculator.PaymentDifference, Calculator.EmptyPaidAmountReportedAsOverpaid | Calculator.PaymentDifferenceChecked, Calculator.CheckedOverpaidMeansPaidMore |
