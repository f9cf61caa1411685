/**
 * The MongoDB collections the routes and services share. Each collection is a sequence in
 * insertion order (the order `find` and `findOne` scan in), and `nextId` stands for the
 * fresh `ObjectId` a new document receives.
 */
module Store {
  import opened PropertyModel
  import opened RentModel
  import opened ReminderModel

  class Db {
    var properties: seq<Property>
    var rents: seq<Rent>
    var reminders: seq<Reminder>
    var nextId: nat

    /** Every stored document passed its schema's validators, and every id is already issued. */
    ghost predicate Valid()
      reads this
    {
      && (forall i :: 0 <= i < |properties| ==> properties[i].Valid())
      && (forall i :: 0 <= i < |rents| ==> rents[i].Valid() && rents[i].id < nextId)
      && (forall i :: 0 <= i < |reminders| ==> reminders[i].Valid() && reminders[i].id < nextId)
    }

    constructor ()
      ensures Valid()
      ensures properties == [] && rents == [] && reminders == [] && nextId == 0
    {
      properties := [];
      rents := [];
      reminders := [];
      nextId := 0;
    }
  }
}
