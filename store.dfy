/** The relational store the handlers read and write, reduced to two tables
    keyed by row id. Row ids are generated by the store; a write may fail,
    and the handlers are told so through a `WriteOutcome`. */
module Store {
  import opened Options
  import opened JsValues

  datatype Customer = Customer(id: string, fullName: Value, phone: Value, email: Value)

  datatype Technician = Technician(name: string, phone: string)

  datatype Appointment = Appointment(
    id: string,
    customerId: string,
    collectionDate: Value,
    timeSlot: Value,
    tests: string,
    notes: Value,
    status: Value,
    address: Value,
    prescriptionImage: Value,
    technician: Option<Technician>,
    createdAt: int,
    updatedAt: int)

  /** How one row write ended: stored, or rejected with an error message. */
  datatype WriteOutcome = Written | WriteFails(message: string)

  class Database {
    var customers: map<string, Customer>
    var appointments: map<string, Appointment>

    /** Every row is filed under its own id, and every appointment's customer
        exists (the foreign key the `include: { customer: true }` joins follow). */
    ghost predicate Valid()
      reads this
    {
      && (forall k :: k in customers ==> customers[k].id == k)
      && (forall k :: k in appointments ==> appointments[k].id == k && appointments[k].customerId in customers)
    }

    constructor ()
      ensures Valid() && customers == map[] && appointments == map[]
    {
      customers := map[];
      appointments := map[];
    }
  }
}
