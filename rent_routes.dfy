/**
 * The landlord's rent bookkeeping routes: find-or-create of the monthly rent record
 * (`toggle-payment-status`, `generate-monthly-payments`), `create-payment`, the field merge
 * of `update-payment`, the dashboard `statistics`, and the yearly CSV export of one property.
 * Each route is a method over the shared store; the authenticated landlord is `user`.
 */
module RentRoutes {
  import opened Common
  import opened Calendar
  import opened PropertyModel
  import opened RentModel
  import opened Store

  const NoPropertyAccess: string := "Bu gayrimenkul i\U{00E7}in yetkiniz yok"
  const ToggleFailed: string := "\U{00D6}deme durumu g\U{00FC}ncellenemedi"
  const GenerateFailed: string := "Ayl\U{0131}k \U{00F6}demeler olu\U{015F}turulamad\U{0131}"
  const CreateFailed: string := "\U{00D6}deme kayd\U{0131} olu\U{015F}turulamad\U{0131}"
  const Created: string := "\U{00D6}deme kayd\U{0131} olu\U{015F}turuldu"
  const PaymentNotFound: string := "\U{00D6}deme kayd\U{0131} bulunamad\U{0131}"
  const NoPaymentAccess: string := "Bu \U{00F6}deme i\U{00E7}in yetkiniz yok"
  const UpdateFailed: string := "\U{00D6}deme g\U{00FC}ncellenemedi"
  const Updated: string := "\U{00D6}deme g\U{00FC}ncellendi"
  const ExportFailed: string := "Rapor export edilemedi"

  /** A JSON reply carrying a message and the payment record it is about. */
  datatype Payload = Payload(message: string, payment: Rent)

  // ---------------------------------------------------------------------------------------
  // The monthly rent record of a property and its lookup

  /** The filter `{ propertyId, isAidat: false, month, year }`. */
  predicate IsPeriodRecord(r: Rent, propertyId: nat, month: int, year: int)
  {
    r.propertyId == propertyId && !r.isAidat && r.month == month && r.year == year
  }

  /** `Rent.findOne(filter)`: the position of the first record of that period, if any. */
  function FindPeriod(rents: seq<Rent>, propertyId: nat, month: int, year: int): (k: Option<nat>)
    ensures k.Some? ==> k.value < |rents| && IsPeriodRecord(rents[k.value], propertyId, month, year)
    ensures k.Some? ==> forall j :: 0 <= j < k.value ==> !IsPeriodRecord(rents[j], propertyId, month, year)
    ensures k.None? ==> forall j :: 0 <= j < |rents| ==> !IsPeriodRecord(rents[j], propertyId, month, year)
  {
    if rents == [] then None
    else if IsPeriodRecord(rents[0], propertyId, month, year) then Some(0)
    else
      var k := FindPeriod(rents[1..], propertyId, month, year);
      if k.Some? then Some(k.value + 1) else None
  }

  /** Two rent (not dues) records of the same property, month and year. */
  predicate SamePeriod(a: Rent, b: Rent)
  {
    !a.isAidat && !b.isAidat && a.propertyId == b.propertyId && a.month == b.month && a.year == b.year
  }

  /**
   * At most one rent record per property and month. The index on (propertyId, month, year,
   * isAidat) is not unique, so only the find-before-create of the routes keeps this.
   */
  predicate UniquePeriods(rents: seq<Rent>)
  {
    forall i, j :: 0 <= i < j < |rents| ==> !SamePeriod(rents[i], rents[j])
  }

  /** Appending a record for a period that has none keeps periods unique and makes it the one found. */
  lemma AppendFreshPeriod(rents: seq<Rent>, r: Rent)
    requires !r.isAidat && FindPeriod(rents, r.propertyId, r.month, r.year).None?
    ensures UniquePeriods(rents) ==> UniquePeriods(rents + [r])
    ensures FindPeriod(rents + [r], r.propertyId, r.month, r.year) == Some(|rents|)
  {
    var s := rents + [r];
    assert s[|rents|] == r;
    assert forall j :: 0 <= j < |rents| ==> s[j] == rents[j];
    assert IsPeriodRecord(s[|rents|], r.propertyId, r.month, r.year);
  }

  /** Changing only a status moves no record to another period, so every lookup is unaffected. */
  lemma ChangeStatusKeepsPeriods(rents: seq<Rent>, k: nat, st: RentStatus, propertyId: nat, month: int, year: int)
    requires k < |rents|
    ensures UniquePeriods(rents) ==> UniquePeriods(rents[k := rents[k].(status := st)])
    ensures FindPeriod(rents[k := rents[k].(status := st)], propertyId, month, year)
         == FindPeriod(rents, propertyId, month, year)
  {
    var s := rents[k := rents[k].(status := st)];
    assert forall j :: 0 <= j < |s| ==>
      (IsPeriodRecord(s[j], propertyId, month, year) <==> IsPeriodRecord(rents[j], propertyId, month, year));
    assert forall i, j :: 0 <= i < j < |s| ==> (SamePeriod(s[i], s[j]) <==> SamePeriod(rents[i], rents[j]));
  }

  /** The status a request asks for: absent means the schema default, `pending`. */
  function StatusFromRequest(status: Option<string>): (r: Option<RentStatus>)
    ensures status.None? ==> r == Some(Pending)
    ensures status.Some? ==> (r.Some? <==> status.value in {"pending", "paid", "overdue"})
  {
    if status.None? then Some(Pending) else ParseStatus(status.value)
  }

  /** `new Rent(doc).save()` followed by the insertion of the accepted document. */
  method SaveNewRent(db: Db, input: RentInput) returns (saved: Option<Rent>)
    requires db.Valid()
    modifies db
    ensures db.Valid()
    ensures db.properties == old(db.properties) && db.reminders == old(db.reminders)
    ensures BuildRent(old(db.nextId), input).Rejected? ==>
      saved.None? && db.rents == old(db.rents) && db.nextId == old(db.nextId)
    ensures BuildRent(old(db.nextId), input).Accepted? ==>
      && saved == Some(BuildRent(old(db.nextId), input).value)
      && db.rents == old(db.rents) + [saved.value] && db.nextId == old(db.nextId) + 1
  {
    var built := BuildRent(db.nextId, input);
    if built.Rejected? {
      return None;
    }
    db.rents := db.rents + [built.value];
    db.nextId := db.nextId + 1;
    saved := Some(built.value);
  }

  /** The rent record the find-or-create routes insert for a period that has none. */
  function NewPeriodInput(p: Property, user: nat, status: Option<string>, month: int, year: int): RentInput
  {
    RentInput(Some(p.id), Some(user), Some(p.rent), Some(Normalize(year, month - 1, p.dueDay, 0)),
              None, status, Some(false), Some(month), Some(year), None)
  }

  // ---------------------------------------------------------------------------------------
  // toggle-payment-status

  function ToggleMessage(st: RentStatus): string
  {
    "Kira durumu \"" + StatusLabel(st) + "\" olarak g\U{00FC}ncellendi"
  }

  /**
   * `POST /toggle-payment-status`: sets the status of the property's rent record for the
   * month, creating the record (amount and due day taken from the property) when there is
   * none. The `paymentType` of the request is ignored: the record is always the rent one.
   */
  method TogglePaymentStatus(db: Db, user: nat, propertyId: nat, status: Option<string>, month: int, year: int)
    returns (reply: Reply<Payload>)
    requires db.Valid()
    modifies db
    ensures db.Valid()
    ensures db.properties == old(db.properties) && db.reminders == old(db.reminders)
    ensures !Owns(db.properties, propertyId, user) ==> reply == Fail(403, NoPropertyAccess)
    ensures Owns(db.properties, propertyId, user) && reply.Fail? ==> reply == Fail(500, ToggleFailed)
    ensures reply.Fail? ==> db.rents == old(db.rents) && db.nextId == old(db.nextId)
    ensures reply.Ok? <==>
      && Owns(db.properties, propertyId, user) && StatusFromRequest(status).Some?
      && (FindPeriod(old(db.rents), propertyId, month, year).Some? || 1 <= month <= 12)
    ensures reply.Ok? ==>
      var k := FindPeriod(db.rents, propertyId, month, year);
      && k.Some? && db.rents[k.value] == reply.body.payment
      && reply.body.payment.status == StatusFromRequest(status).value
      && reply.body.message == ToggleMessage(StatusFromRequest(status).value)
    ensures reply.Ok? && FindPeriod(old(db.rents), propertyId, month, year).Some? ==>
      var k := FindPeriod(old(db.rents), propertyId, month, year).value;
      && db.rents == old(db.rents)[k := old(db.rents)[k].(status := StatusFromRequest(status).value)]
      && db.nextId == old(db.nextId)
    ensures reply.Ok? && FindPeriod(old(db.rents), propertyId, month, year).None? ==>
      var p := FindProperty(db.properties, propertyId).value;
      db.rents == old(db.rents) + [Rent(old(db.nextId), propertyId, user, p.rent,
        Normalize(year, month - 1, p.dueDay, 0), None, StatusFromRequest(status).value, false, month, year, None)]
    ensures UniquePeriods(old(db.rents)) ==> UniquePeriods(db.rents)
  {
    var property := FindProperty(db.properties, propertyId);
    if property.None? || property.value.landlordId != user {
      return Fail(403, NoPropertyAccess);
    }
    var k := FindPeriod(db.rents, propertyId, month, year);
    if k.None? {
      var saved := SaveNewRent(db, NewPeriodInput(property.value, user, status, month, year));
      if saved.None? {
        return Fail(500, ToggleFailed);
      }
      AppendFreshPeriod(old(db.rents), saved.value);
      reply := Ok(Payload(ToggleMessage(saved.value.status), saved.value));
    } else {
      var wanted := StatusFromRequest(status);
      if wanted.None? {
        return Fail(500, ToggleFailed);
      }
      ChangeStatusKeepsPeriods(db.rents, k.value, wanted.value, propertyId, month, year);
      var updated := db.rents[k.value].(status := wanted.value);
      db.rents := db.rents[k.value := updated];
      reply := Ok(Payload(ToggleMessage(wanted.value), updated));
    }
  }

  // ---------------------------------------------------------------------------------------
  // generate-monthly-payments

  function GenerateMessage(month: nat): string
  {
    NatToString(month) + ". ay i\U{00E7}in kira kayd\U{0131} olu\U{015F}turuldu"
  }

  /**
   * `POST /generate-monthly-payments`: returns the property's rent record for the month,
   * creating a `pending` one from the property's rent and due day when there is none.
   */
  method GenerateMonthlyPayments(db: Db, user: nat, propertyId: nat, month: int, year: int)
    returns (reply: Reply<Payload>)
    requires db.Valid()
    modifies db
    ensures db.Valid()
    ensures db.properties == old(db.properties) && db.reminders == old(db.reminders)
    ensures !Owns(db.properties, propertyId, user) ==> reply == Fail(403, NoPropertyAccess)
    ensures reply.Fail? ==> db.rents == old(db.rents) && db.nextId == old(db.nextId)
    ensures Owns(db.properties, propertyId, user) && FindPeriod(old(db.rents), propertyId, month, year).Some? ==>
      && db.rents == old(db.rents) && db.nextId == old(db.nextId)
      && reply.Ok? && reply.body.payment == old(db.rents)[FindPeriod(old(db.rents), propertyId, month, year).value]
    ensures Owns(db.properties, propertyId, user) && FindPeriod(old(db.rents), propertyId, month, year).None? ==>
      var p := FindProperty(db.properties, propertyId).value;
      if 1 <= month <= 12 then
        && reply.Ok?
        && db.rents == old(db.rents) + [Rent(old(db.nextId), propertyId, user, p.rent,
             Normalize(year, month - 1, p.dueDay, 0), None, Pending, false, month, year, None)]
      else reply == Fail(500, GenerateFailed)
    ensures reply.Ok? ==>
      var k := FindPeriod(db.rents, propertyId, month, year);
      && k.Some? && db.rents[k.value] == reply.body.payment
      && 1 <= month <= 12 && reply.body.message == GenerateMessage(month)
    ensures UniquePeriods(old(db.rents)) ==> UniquePeriods(db.rents)
  {
    var property := FindProperty(db.properties, propertyId);
    if property.None? || property.value.landlordId != user {
      return Fail(403, NoPropertyAccess);
    }
    var k := FindPeriod(db.rents, propertyId, month, year);
    if k.Some? {
      var existing := db.rents[k.value];
      return Ok(Payload(GenerateMessage(month), existing));
    }
    var saved := SaveNewRent(db, NewPeriodInput(property.value, user, Some("pending"), month, year));
    if saved.None? {
      return Fail(500, GenerateFailed);
    }
    AppendFreshPeriod(old(db.rents), saved.value);
    reply := Ok(Payload(GenerateMessage(month), saved.value));
  }

  /** Generating the same month twice: the second call finds the first call's record and changes nothing. */
  method GenerateMonthlyPaymentsTwice(db: Db, user: nat, propertyId: nat, month: int, year: int)
    returns (first: Reply<Payload>, second: Reply<Payload>)
    requires db.Valid()
    modifies db
    ensures second == first
    ensures first.Fail? ==> db.rents == old(db.rents)
    ensures first.Ok? ==> db.rents == old(db.rents) || db.rents == old(db.rents) + [first.body.payment]
    ensures first.Ok? ==>
      var k := FindPeriod(db.rents, propertyId, month, year);
      k.Some? && db.rents[k.value] == first.body.payment
  {
    first := GenerateMonthlyPayments(db, user, propertyId, month, year);
    ghost var between := db.rents;
    second := GenerateMonthlyPayments(db, user, propertyId, month, year);
    assert db.rents == between;
  }

  // ---------------------------------------------------------------------------------------
  // create-payment

  /** The body of a `create-payment` request; `None` is an absent field, or a date `new Date` cannot read. */
  datatype NewPayment = NewPayment(
    propertyId: nat,
    amount: Option<real>,
    dueDate: Option<DateTime>,
    isAidat: Option<bool>,
    status: Option<string>,
    notes: Option<string>)

  /** The document `create-payment` builds: `isAidat || false`, `status || 'pending'`, and no month or year. */
  function CreatePaymentInput(user: nat, req: NewPayment): RentInput
  {
    RentInput(Some(req.propertyId), Some(user), req.amount, req.dueDate, None,
              if Truthy(req.status) then req.status else Some("pending"),
              Some(req.isAidat.Some? && req.isAidat.value), None, None, req.notes)
  }

  /**
   * `POST /create-payment` as written: the document never carries the required `month` and
   * `year`, so `save()` always rejects it and the route answers 500 whatever the request.
   */
  method CreatePayment(db: Db, user: nat, req: NewPayment) returns (reply: Reply<Payload>)
    requires db.Valid()
    modifies db
    ensures db.Valid()
    ensures db.properties == old(db.properties) && db.reminders == old(db.reminders)
    ensures db.rents == old(db.rents) && db.nextId == old(db.nextId)
    ensures reply == if Owns(db.properties, req.propertyId, user) then Fail(500, CreateFailed)
                     else Fail(403, NoPropertyAccess)
  {
    var property := FindProperty(db.properties, req.propertyId);
    if property.None? || property.value.landlordId != user {
      return Fail(403, NoPropertyAccess);
    }
    var saved := SaveNewRent(db, CreatePaymentInput(user, req));
    match saved
    case None => reply := Fail(500, CreateFailed);
    case Some(payment) => reply := Ok(Payload(Created, payment));
  }

  /** The missing fields are exactly what makes every `create-payment` document invalid. */
  lemma CreatePaymentAlwaysRejected(id: nat, user: nat, req: NewPayment)
    ensures BuildRent(id, CreatePaymentInput(user, req)).Rejected?
    ensures {"month", "year"} <= BuildRent(id, CreatePaymentInput(user, req)).paths
  {
  }

  /** `create-payment` with the month and year of the due date filled in, as the schema requires. */
  function CreatePaymentForPeriodInput(user: nat, req: NewPayment): RentInput
  {
    var input := CreatePaymentInput(user, req);
    if req.dueDate.Some? then input.(month := Some(req.dueDate.value.month + 1), year := Some(req.dueDate.value.year))
    else input
  }

  /**
   * `POST /create-payment` corrected: the record is filed under the calendar month of its due
   * date, and it is stored exactly when the amount, due date and status are acceptable.
   */
  method CreatePaymentForPeriod(db: Db, user: nat, req: NewPayment) returns (reply: Reply<Payload>)
    requires db.Valid()
    modifies db
    ensures db.Valid()
    ensures db.properties == old(db.properties) && db.reminders == old(db.reminders)
    ensures !Owns(db.properties, req.propertyId, user) ==> reply == Fail(403, NoPropertyAccess)
    ensures reply.Fail? ==> db.rents == old(db.rents)
    ensures Owns(db.properties, req.propertyId, user) ==>
      (reply.Ok? <==>
        && req.amount.Some? && req.amount.value >= 0.0
        && req.dueDate.Some? && req.dueDate.value.Valid()
        && (Truthy(req.status) ==> req.status.value in {"pending", "paid", "overdue"}))
    ensures reply.Ok? ==>
      && db.rents == old(db.rents) + [reply.body.payment]
      && reply.body.payment.month == reply.body.payment.dueDate.month + 1
      && reply.body.payment.year == reply.body.payment.dueDate.year
      && reply.body.payment.landlordId == user && reply.body.payment.propertyId == req.propertyId
      && reply.body.message == Created
  {
    var property := FindProperty(db.properties, req.propertyId);
    if property.None? || property.value.landlordId != user {
      return Fail(403, NoPropertyAccess);
    }
    var saved := SaveNewRent(db, CreatePaymentForPeriodInput(user, req));
    if saved.None? {
      return Fail(500, CreateFailed);
    }
    reply := Ok(Payload(Created, saved.value));
  }

  // ---------------------------------------------------------------------------------------
  // update-payment

  /**
   * The body of an `update-payment` request, after the route's presence tests: `propertyId`,
   * `dueDate`, `status` and `paymentDate` count when truthy, `amount`, `notes` and `isAidat`
   * when not `undefined`. A date is `Some` with an invalid value when `new Date` cannot read it.
   * An amount that is sent but is `null` (a cleared form field: `NaN` travels as `null` in JSON)
   * is `Some(None)`.
   */
  datatype PaymentUpdate = PaymentUpdate(
    propertyId: Option<nat>,
    amount: Option<Option<real>>,
    dueDate: Option<DateTime>,
    status: Option<string>,
    paymentDate: Option<DateTime>,
    notes: Option<string>,
    isAidat: Option<bool>)

  /** `findByIdAndUpdate(..., { runValidators: true })` fails on a cast error or a failed validator. */
  predicate UpdateRejected(u: PaymentUpdate)
  {
    || (u.amount.Some? && (u.amount.value.None? || u.amount.value.value < 0.0))
    || (u.dueDate.Some? && !u.dueDate.value.Valid())
    || (Truthy(u.status) && ParseStatus(u.status.value).None?)
    || (u.paymentDate.Some? && !u.paymentDate.value.Valid())
  }

  /** The `updates` object applied to the record: each supplied field replaced, nothing else touched. */
  function ApplyUpdates(r: Rent, u: PaymentUpdate): (r': Rent)
    requires u.amount.Some? ==> u.amount.value.Some?
    requires Truthy(u.status) ==> ParseStatus(u.status.value).Some?
    ensures r'.id == r.id && r'.landlordId == r.landlordId && r'.month == r.month && r'.year == r.year
    ensures r'.propertyId == (if u.propertyId.Some? then u.propertyId.value else r.propertyId)
    ensures r'.amount == (if u.amount.Some? then u.amount.value.value else r.amount)
    ensures r'.dueDate == (if u.dueDate.Some? then u.dueDate.value else r.dueDate)
    ensures r'.status == (if Truthy(u.status) then ParseStatus(u.status.value).value else r.status)
    ensures r'.paymentDate == (if u.paymentDate.Some? then u.paymentDate else r.paymentDate)
    ensures r'.notes == (if u.notes.Some? then Some(Trim(u.notes.value)) else r.notes)
    ensures r'.isAidat == (if u.isAidat.Some? then u.isAidat.value else r.isAidat)
  {
    var r1 := if u.propertyId.Some? then r.(propertyId := u.propertyId.value) else r;
    var r2 := if u.amount.Some? then r1.(amount := u.amount.value.value) else r1;
    var r3 := if u.dueDate.Some? then r2.(dueDate := u.dueDate.value) else r2;
    var r4 := if Truthy(u.status) then r3.(status := ParseStatus(u.status.value).value) else r3;
    var r5 := if u.paymentDate.Some? then r4.(paymentDate := u.paymentDate) else r4;
    var r6 := if u.notes.Some? then r5.(notes := Some(Trim(u.notes.value))) else r5;
    if u.isAidat.Some? then r6.(isAidat := u.isAidat.value) else r6
  }

  /** Sending the same update twice leaves the record as the first one left it. */
  lemma ApplyUpdatesIdempotent(r: Rent, u: PaymentUpdate)
    requires u.amount.Some? ==> u.amount.value.Some?
    requires Truthy(u.status) ==> ParseStatus(u.status.value).Some?
    ensures ApplyUpdates(ApplyUpdates(r, u), u) == ApplyUpdates(r, u)
  {
    var once := ApplyUpdates(r, u);
    if u.notes.Some? {
      TrimIdempotent(u.notes.value);
    }
  }

  /** An update the validators accept keeps a valid record valid. */
  lemma ApplyUpdatesKeepsValid(r: Rent, u: PaymentUpdate)
    requires r.Valid() && !UpdateRejected(u)
    ensures ApplyUpdates(r, u).Valid()
  {
  }

  /**
   * `update-payment` does not look periods up: turning a dues record of a month into a rent
   * record gives that month two rent records.
   */
  lemma UpdateCanDuplicatePeriod()
    ensures
      var due := DateTime(2025, 0, 5, 0);
      var rent := Rent(1, 7, 3, 1000.0, due, None, Pending, false, 1, 2025, None);
      var dues := Rent(2, 7, 3, 200.0, due, None, Pending, true, 1, 2025, None);
      var u := PaymentUpdate(None, None, None, None, None, None, Some(false));
      UniquePeriods([rent, dues]) && !UniquePeriods([rent, ApplyUpdates(dues, u)])
  {
    var due := DateTime(2025, 0, 5, 0);
    var rent := Rent(1, 7, 3, 1000.0, due, None, Pending, false, 1, 2025, None);
    var dues := Rent(2, 7, 3, 200.0, due, None, Pending, true, 1, 2025, None);
    var u := PaymentUpdate(None, None, None, None, None, None, Some(false));
    assert SamePeriod([rent, ApplyUpdates(dues, u)][0], [rent, ApplyUpdates(dues, u)][1]);
  }

  /** `Rent.findById(id)`: the position of the first record with that id. */
  function FindRent(rents: seq<Rent>, id: nat): (k: Option<nat>)
    ensures k.Some? ==> k.value < |rents| && rents[k.value].id == id
    ensures k.None? ==> forall j :: 0 <= j < |rents| ==> rents[j].id != id
  {
    if rents == [] then None
    else if rents[0].id == id then Some(0)
    else
      var k := FindRent(rents[1..], id);
      if k.Some? then Some(k.value + 1) else None
  }

  /**
   * `PUT /update-payment/:paymentId`: 404 for an unknown record, 403 for another landlord's
   * record or property, 500 when a validator rejects the update; otherwise the supplied
   * fields are written and nothing else changes.
   */
  method UpdatePayment(db: Db, user: nat, paymentId: nat, u: PaymentUpdate) returns (reply: Reply<Payload>)
    requires db.Valid()
    modifies db
    ensures db.Valid()
    ensures db.properties == old(db.properties) && db.reminders == old(db.reminders) && db.nextId == old(db.nextId)
    ensures reply.Fail? ==> db.rents == old(db.rents)
    ensures FindRent(old(db.rents), paymentId).None? ==> reply == Fail(404, PaymentNotFound)
    ensures FindRent(old(db.rents), paymentId).Some? ==>
      var k := FindRent(old(db.rents), paymentId).value;
      if old(db.rents)[k].landlordId != user then reply == Fail(403, NoPaymentAccess)
      else if u.propertyId.Some? && !Owns(db.properties, u.propertyId.value, user) then
        reply == Fail(403, NoPropertyAccess)
      else if UpdateRejected(u) then reply == Fail(500, UpdateFailed)
      else
        && db.rents == old(db.rents)[k := ApplyUpdates(old(db.rents)[k], u)]
        && reply == Ok(Payload(Updated, db.rents[k]))
  {
    var k := FindRent(db.rents, paymentId);
    if k.None? {
      return Fail(404, PaymentNotFound);
    }
    var payment := db.rents[k.value];
    if payment.landlordId != user {
      return Fail(403, NoPaymentAccess);
    }
    if u.propertyId.Some? {
      var property := FindProperty(db.properties, u.propertyId.value);
      if property.None? || property.value.landlordId != user {
        return Fail(403, NoPropertyAccess);
      }
    }
    if UpdateRejected(u) {
      return Fail(500, UpdateFailed);
    }
    ApplyUpdatesKeepsValid(payment, u);
    var updated := ApplyUpdates(payment, u);
    db.rents := db.rents[k.value := updated];
    reply := Ok(Payload(Updated, updated));
  }

  // ---------------------------------------------------------------------------------------
  // statistics

  datatype Statistics = Statistics(
    totalProperties: nat,
    totalTenants: nat,
    pendingPayments: nat,
    overduePayments: nat,
    totalPayments: nat,
    totalAmount: real,
    paidAmount: real,
    pendingAmount: real,
    overdueAmount: real)

  /** `payments.filter(p => p.status === st)`. */
  function WithStatus(ps: seq<Rent>, st: RentStatus): (r: seq<Rent>)
    ensures |r| <= |ps|
    ensures forall x :: x in r <==> x in ps && x.status == st
  {
    if ps == [] then []
    else (if ps[0].status == st then [ps[0]] else []) + WithStatus(ps[1..], st)
  }

  /** `payments.reduce((sum, p) => sum + p.amount, 0)`. */
  function SumAmounts(ps: seq<Rent>): real
  {
    if ps == [] then 0.0 else ps[0].amount + SumAmounts(ps[1..])
  }

  lemma {:induction false} SumAmountsNonNegative(ps: seq<Rent>)
    requires forall x :: x in ps ==> x.amount >= 0.0
    ensures SumAmounts(ps) >= 0.0
  {
    if ps != [] {
      SumAmountsNonNegative(ps[1..]);
    }
  }

  /** A selection of records whose amounts are all non-negative sums to a non-negative amount. */
  lemma SumOfPartNonNegative(part: seq<Rent>, rents: seq<Rent>)
    requires forall x :: x in part ==> x in rents
    ensures (forall x :: x in rents ==> x.amount >= 0.0) ==> SumAmounts(part) >= 0.0
  {
    if forall x :: x in rents ==> x.amount >= 0.0 {
      SumAmountsNonNegative(part);
    }
  }

  /** One step of the filter: the head counts towards the status it has and no other. */
  lemma WithStatusStep(ps: seq<Rent>, st: RentStatus)
    requires ps != []
    ensures |WithStatus(ps, st)| == (if ps[0].status == st then 1 else 0) + |WithStatus(ps[1..], st)|
    ensures SumAmounts(WithStatus(ps, st)) ==
            (if ps[0].status == st then ps[0].amount else 0.0) + SumAmounts(WithStatus(ps[1..], st))
  {
    var rest := WithStatus(ps[1..], st);
    if ps[0].status == st {
      assert WithStatus(ps, st) == [ps[0]] + rest;
      assert ([ps[0]] + rest)[1..] == rest;
    } else {
      assert WithStatus(ps, st) == rest;
    }
  }

  /** Every record has exactly one of the three statuses, so the three filters split the list. */
  lemma {:induction false} StatusesPartition(ps: seq<Rent>)
    ensures |WithStatus(ps, Paid)| + |WithStatus(ps, Pending)| + |WithStatus(ps, Overdue)| == |ps|
    ensures SumAmounts(WithStatus(ps, Paid)) + SumAmounts(WithStatus(ps, Pending))
            + SumAmounts(WithStatus(ps, Overdue)) == SumAmounts(ps)
  {
    if ps != [] {
      StatusesPartition(ps[1..]);
      WithStatusStep(ps, Paid);
      WithStatusStep(ps, Pending);
      WithStatusStep(ps, Overdue);
    }
  }

  /** `Rent.find({ landlordId })`. */
  function RentsOf(rents: seq<Rent>, user: nat): (r: seq<Rent>)
    ensures forall x :: x in r <==> x in rents && x.landlordId == user
  {
    if rents == [] then []
    else (if rents[0].landlordId == user then [rents[0]] else []) + RentsOf(rents[1..], user)
  }

  /** `Property.find({ landlordId })`. */
  function PropertiesOf(props: seq<Property>, user: nat): (r: seq<Property>)
    ensures forall p :: p in r <==> p in props && p.landlordId == user
  {
    if props == [] then []
    else (if props[0].landlordId == user then [props[0]] else []) + PropertiesOf(props[1..], user)
  }

  /** `properties.filter(p => p.status === 'occupied')`. */
  function OccupiedOnes(props: seq<Property>): (r: seq<Property>)
    ensures |r| <= |props|
    ensures forall p :: p in r <==> p in props && p.status == Occupied
  {
    if props == [] then []
    else (if props[0].status == Occupied then [props[0]] else []) + OccupiedOnes(props[1..])
  }

  /**
   * `GET /statistics`: counts and sums over the landlord's properties and payment records.
   * The three status sums add up to the total, and tenants never outnumber properties.
   */
  function ComputeStatistics(rents: seq<Rent>, props: seq<Property>, user: nat): (st: Statistics)
    ensures st.paidAmount + st.pendingAmount + st.overdueAmount == st.totalAmount
    ensures st.pendingPayments + st.overduePayments <= st.totalPayments
    ensures st.totalTenants <= st.totalProperties
    ensures st.totalPayments == |RentsOf(rents, user)| && st.totalProperties == |PropertiesOf(props, user)|
    ensures (forall x :: x in rents ==> x.amount >= 0.0) ==>
      st.paidAmount >= 0.0 && st.pendingAmount >= 0.0 && st.overdueAmount >= 0.0
  {
    var payments := RentsOf(rents, user);
    var owned := PropertiesOf(props, user);
    StatusesPartition(payments);
    var paid, pending, overdue := WithStatus(payments, Paid), WithStatus(payments, Pending), WithStatus(payments, Overdue);
    SumOfPartNonNegative(paid, rents);
    SumOfPartNonNegative(pending, rents);
    SumOfPartNonNegative(overdue, rents);
    Statistics(|owned|, |OccupiedOnes(owned)|, |pending|, |overdue|, |payments|,
               SumAmounts(payments), SumAmounts(paid), SumAmounts(pending), SumAmounts(overdue))
  }

  // ---------------------------------------------------------------------------------------
  // export-property-payments

  const MonthNames: seq<string> :=
    ["Ocak", "\U{015E}ubat", "Mart", "Nisan", "May\U{0131}s", "Haziran",
     "Temmuz", "A\U{011F}ustos", "Eyl\U{00FC}l", "Ekim", "Kas\U{0131}m", "Aral\U{0131}k"]

  /** The byte-order mark and the column titles. */
  const CsvTitles: string := "\U{FEFF}Ay,Kira Durumu,Kira Tutar\U{0131}"

  const CsvHeader: string := CsvTitles + "\n"

  /** A query-string value as a template literal renders it: absent is `undefined`. */
  function RawText(v: Option<string>): string
  {
    if v.Some? then v.value else "undefined"
  }

  /** `Rent.find({ propertyId, year })` for a year that parsed to a number. */
  function OfPropertyYear(rents: seq<Rent>, propertyId: nat, year: int): (r: seq<Rent>)
    ensures forall x :: x in r <==> x in rents && x.propertyId == propertyId && x.year == year
  {
    if rents == [] then []
    else
      (if rents[0].propertyId == propertyId && rents[0].year == year then [rents[0]] else [])
      + OfPropertyYear(rents[1..], propertyId, year)
  }

  /**
   * The year of the query as `parseInt` reads it. A missing or unparseable year is `NaN`, which
   * the store cannot cast into the numeric `year` filter, so the query throws.
   */
  function QueryYear(year: Option<string>): (r: Option<int>)
    ensures year.None? ==> r.None?
    ensures year.Some? ==> r == JsParseInt(year.value)
  {
    if year.Some? then JsParseInt(year.value) else None
  }

  /** The label of month `m`: that of its first rent record, `Bekliyor` when there is none. */
  function MonthLabel(payments: seq<Rent>, m: int): string
  {
    var found := FirstRentFor(payments, m);
    if found.Some? then StatusLabel(payments[found.value].status) else "Bekliyor"
  }

  function CsvRow(payments: seq<Rent>, m: int, yearText: string, rentText: string): string
    requires 1 <= m <= 12
  {
    "\"" + MonthNames[m - 1] + " " + yearText + "\",\"" + MonthLabel(payments, m) + "\",\"\U{20BA}" + rentText + "\"\n"
  }

  /** The rows of months 1 to `n`, in order. */
  function CsvRows(payments: seq<Rent>, yearText: string, rentText: string, n: nat): string
    requires n <= 12
  {
    if n == 0 then "" else CsvRows(payments, yearText, rentText, n - 1) + CsvRow(payments, n, yearText, rentText)
  }

  /**
   * `GET /export-property-payments/:propertyId?year=...`: the header line and one row per
   * month, January to December, built up in a loop. The property's rent is rendered by `render`.
   */
  method ExportPropertyPayments(db: Db, user: nat, propertyId: nat, year: Option<string>, render: real -> string)
    returns (reply: Reply<string>)
    ensures !Owns(db.properties, propertyId, user) ==> reply == Fail(403, NoPropertyAccess)
    ensures Owns(db.properties, propertyId, user) && QueryYear(year).None? ==> reply == Fail(500, ExportFailed)
    ensures Owns(db.properties, propertyId, user) && QueryYear(year).Some? ==>
      var payments := OfPropertyYear(db.rents, propertyId, QueryYear(year).value);
      reply == Ok(CsvHeader + CsvRows(payments, RawText(year), render(FindProperty(db.properties, propertyId).value.rent), 12))
  {
    var property := FindProperty(db.properties, propertyId);
    if property.None? || property.value.landlordId != user {
      return Fail(403, NoPropertyAccess);
    }
    var parsed := QueryYear(year);
    if parsed.None? {
      return Fail(500, ExportFailed);
    }
    var payments := OfPropertyYear(db.rents, propertyId, parsed.value);
    var yearText := RawText(year);
    var rentText := render(property.value.rent);
    var csv := CsvHeader;
    var month := 1;
    while month <= 12
      invariant 1 <= month <= 13
      invariant csv == CsvHeader + CsvRows(payments, yearText, rentText, month - 1)
    {
      var found := FirstRentFor(payments, month);
      var shown := if found.Some? then StatusLabel(payments[found.value].status) else "Bekliyor";
      var row := "\"" + MonthNames[month - 1] + " " + yearText + "\",\"" + shown + "\",\"\U{20BA}" + rentText + "\"\n";
      assert row == CsvRow(payments, month, yearText, rentText);
      assert CsvRows(payments, yearText, rentText, month) == CsvRows(payments, yearText, rentText, month - 1) + row;
      AppendAssociative(CsvHeader, CsvRows(payments, yearText, rentText, month - 1), row);
      csv := csv + row;
      month := month + 1;
    }
    reply := Ok(csv);
  }

  lemma {:induction false} CountCharAbsent(s: string, c: char)
    requires c !in s
    ensures CountChar(s, c) == 0
  {
    if s != [] {
      assert s[0] != c;
      assert forall x :: x in s[1..] ==> x in s;
      CountCharAbsent(s[1..], c);
    }
  }

  /** Each row is one line: it holds a single line break, at its end. */
  lemma CsvRowIsOneLine(payments: seq<Rent>, m: int, yearText: string, rentText: string)
    requires 1 <= m <= 12 && '\n' !in yearText && '\n' !in rentText
    ensures CountChar(CsvRow(payments, m, yearText, rentText), '\n') == 1
  {
    var line := "\"" + MonthNames[m - 1] + " " + yearText + "\",\"" + MonthLabel(payments, m) + "\",\"\U{20BA}" + rentText + "\"";
    assert '\n' !in MonthNames[m - 1];
    var st := FirstRentFor(payments, m);
    assert '\n' !in MonthLabel(payments, m);
    CountCharAbsent(line, '\n');
    CountCharConcat(line, "\n", '\n');
    assert CsvRow(payments, m, yearText, rentText) == line + "\n";
  }

  lemma {:induction false} CsvRowsLineCount(payments: seq<Rent>, yearText: string, rentText: string, n: nat)
    requires n <= 12 && '\n' !in yearText && '\n' !in rentText
    ensures CountChar(CsvRows(payments, yearText, rentText, n), '\n') == n
  {
    if n > 0 {
      CsvRowsLineCount(payments, yearText, rentText, n - 1);
      CsvRowIsOneLine(payments, n, yearText, rentText);
      CountCharConcat(CsvRows(payments, yearText, rentText, n - 1), CsvRow(payments, n, yearText, rentText), '\n');
    }
  }

  /** The export has thirteen lines: the header and one row for each month. */
  lemma CsvLineCount(payments: seq<Rent>, yearText: string, rentText: string)
    requires '\n' !in yearText && '\n' !in rentText
    ensures CountChar(CsvHeader + CsvRows(payments, yearText, rentText, 12), '\n') == 13
  {
    CsvRowsLineCount(payments, yearText, rentText, 12);
    CountCharConcat(CsvHeader, CsvRows(payments, yearText, rentText, 12), '\n');
    HeaderIsOneLine();
  }

  /** The header is one line: the column titles hold no line break. */
  lemma HeaderIsOneLine()
    ensures CountChar(CsvHeader, '\n') == 1
  {
    assert '\n' !in CsvTitles;
    OneLine(CsvTitles);
  }

  /** A text without line breaks, followed by one, is one line. */
  lemma OneLine(t: string)
    requires '\n' !in t
    ensures CountChar(t + "\n", '\n') == 1
  {
    CountCharAbsent(t, '\n');
    CountCharConcat(t, "\n", '\n');
  }

  /**
   * The export's month lookup over the year's records finds the record the find-or-create
   * routes find for that period, and finds none exactly when they find none.
   */
  lemma {:induction false} ExportFindsPeriodRecord(rents: seq<Rent>, propertyId: nat, m: int, y: int)
    ensures var payments := OfPropertyYear(rents, propertyId, y);
      && (FirstRentFor(payments, m).None? <==> FindPeriod(rents, propertyId, m, y).None?)
      && (FindPeriod(rents, propertyId, m, y).Some? ==>
            payments[FirstRentFor(payments, m).value] == rents[FindPeriod(rents, propertyId, m, y).value])
  {
    if rents != [] {
      ExportFindsPeriodRecord(rents[1..], propertyId, m, y);
      var x := rents[0];
      var tail := OfPropertyYear(rents[1..], propertyId, y);
      var payments := OfPropertyYear(rents, propertyId, y);
      if x.propertyId == propertyId && x.year == y {
        assert payments == [x] + tail;
        assert payments[0] == x && payments[1..] == tail;
        if IsRentFor(x, m) {
          assert IsPeriodRecord(x, propertyId, m, y);
          assert FirstRentFor(payments, m) == Some(0);
          assert FindPeriod(rents, propertyId, m, y) == Some(0);
        } else {
          assert !IsPeriodRecord(x, propertyId, m, y);
          var f := FirstRentFor(tail, m);
          assert FirstRentFor(payments, m) == if f.Some? then Some(f.value + 1) else None;
        }
      } else {
        assert payments == tail;
        assert !IsPeriodRecord(x, propertyId, m, y);
      }
    }
  }

  /**
   * After a toggle to status `st`, the export of that year shows the month with the label of
   * `st`; a month with no rent record shows `Bekliyor`.
   */
  lemma ExportShowsRecordedStatus(rents: seq<Rent>, propertyId: nat, m: int, y: int)
    ensures var k := FindPeriod(rents, propertyId, m, y);
      MonthLabel(OfPropertyYear(rents, propertyId, y), m)
        == if k.Some? then StatusLabel(rents[k.value].status) else "Bekliyor"
  {
    ExportFindsPeriodRecord(rents, propertyId, m, y);
  }
}
