/** The booking intake handler: checks the method, maps the form's field
    names, requires a customer name, then writes a customer row and an
    appointment row (two separate writes, no transaction) and answers 201.
    The notification run it schedules in the background is not performed
    here: the handler returns the request that run would be given. */
module AppointmentsCreate {
  import opened Strings
  import opened Options
  import opened JsValues
  import opened BookingRequests
  import opened Responses
  import opened Store

  const FailurePrefix := "Failed to create appointment: "
  const DefaultTests := "General Checkup"

  datatype CreateEvent = CreateEvent(httpMethod: string, body: Parsed<BookingRequest>)

  /** The `data` summary inside the 201 body. */
  datatype Summary = Summary(
    bookingId: string,
    customerName: Value,
    tests: string,
    collectionDate: Value,
    status: Value,
    hasPrescription: bool)

  /** The 201 body's `data`. */
  datatype Created = Created(
    success: bool,
    message: string,
    appointment: Appointment,
    customer: Customer,
    bookingId: string,
    data: Summary)

  /** Name, phone and email after the field-name mapping. */
  datatype Contact = Contact(name: Value, phone: Value, email: Value)

  /** `fullName || customerName`, `phoneNumber || customerPhone`,
      `emailAddress || customerEmail` */
  function MapContact(req: BookingRequest): (c: Contact)
    ensures Truthy(req.fullName) ==> c.name == req.fullName
    ensures !Truthy(req.fullName) ==> c.name == req.customerName
    ensures Truthy(req.phoneNumber) ==> c.phone == req.phoneNumber
    ensures !Truthy(req.phoneNumber) ==> c.phone == req.customerPhone
    ensures Truthy(req.emailAddress) ==> c.email == req.emailAddress
    ensures !Truthy(req.emailAddress) ==> c.email == req.customerEmail
  {
    Contact(
      Or(req.fullName, req.customerName),
      Or(req.phoneNumber, req.customerPhone),
      Or(req.emailAddress, req.customerEmail))
  }

  /** The verdict of the checks made before anything is written. */
  datatype Screening = Accept(contact: Contact) | Refuse(statusCode: int, message: string)

  /** The logging lines call `.substring` on the prescription image, the
      mapped phone and the mapped email when they are truthy, which throws
      for an array (a 500); then a falsy mapped name is a 400. */
  function Screen(req: BookingRequest): (v: Screening)
    ensures v.Accept? <==>
      !req.prescriptionImage.StrArray? && !MapContact(req).phone.StrArray? &&
      !MapContact(req).email.StrArray? && Truthy(MapContact(req).name)
    ensures v.Accept? ==> v.contact == MapContact(req)
    ensures v.Refuse? ==> v.statusCode == 400 || v.statusCode == 500
    ensures v.Refuse? && v.statusCode == 400 ==> !Truthy(MapContact(req).name) && v.message == "Customer name is required"
    ensures v.Refuse? && v.statusCode == 500 ==> StartsWith(v.message, FailurePrefix)
    ensures req.prescriptionImage.StrArray? || MapContact(req).phone.StrArray? || MapContact(req).email.StrArray? ==>
      v.Refuse? && v.statusCode == 500
    ensures !req.prescriptionImage.StrArray? && !MapContact(req).phone.StrArray? &&
            !MapContact(req).email.StrArray? && !Truthy(MapContact(req).name) ==>
      v == Refuse(400, "Customer name is required")
  {
    var c := MapContact(req);
    if req.prescriptionImage.StrArray? then
      Refuse(500, FailurePrefix + "appointmentData.prescriptionImage.substring is not a function")
    else if c.phone.StrArray? then
      Refuse(500, FailurePrefix + "customerPhone.substring is not a function")
    else if c.email.StrArray? then
      Refuse(500, FailurePrefix + "customerEmail.substring is not a function")
    else if !Truthy(c.name) then
      Refuse(400, "Customer name is required")
    else
      Accept(c)
  }

  /** `Array.isArray(tests) ? tests.join(', ') : (tests || 'General Checkup')`.
      The stored string is empty only for an array that joins to nothing. */
  function NormaliseTests(tests: Value): (t: string)
    ensures tests.StrArray? ==> t == Join(tests.items, ", ")
    ensures tests.Str? && tests.text != "" ==> t == tests.text
    ensures !Truthy(tests) ==> t == DefaultTests
    ensures t == "" <==> tests.StrArray? && Join(tests.items, ", ") == ""
  {
    match tests
    case StrArray(xs) => Join(xs, ", ")
    case Str(s) => if s != "" then s else DefaultTests
    case _ => DefaultTests
  }

  /** The customer row written first. */
  function NewCustomer(id: string, c: Contact): (row: Customer)
    ensures row.id == id
    ensures row.fullName == c.name && row.phone == c.phone && row.email == c.email
  {
    Customer(id, c.name, c.phone, c.email)
  }

  /** The appointment row written second, with its defaults. */
  function NewAppointment(id: string, customerId: string, req: BookingRequest, now: int): (a: Appointment)
    ensures a.id == id && a.customerId == customerId
    ensures a.status == Str("PENDING")
    ensures a.tests == NormaliseTests(req.tests)
    ensures a.collectionDate == req.collectionDate
    ensures Truthy(req.notes) ==> a.notes == req.notes
    ensures !Truthy(req.notes) ==> a.notes == Str("")
    ensures Truthy(req.address) ==> a.address == req.address
    ensures !Truthy(req.address) ==> a.address == Str("")
    ensures Truthy(req.timeSlot) ==> a.timeSlot == req.timeSlot
    ensures !Truthy(req.timeSlot) ==> a.timeSlot == Null
    ensures Truthy(req.prescriptionImage) ==> a.prescriptionImage == req.prescriptionImage
    ensures !Truthy(req.prescriptionImage) ==> a.prescriptionImage == Null
    ensures a.technician.None? && a.createdAt == now && a.updatedAt == now
  {
    Appointment(
      id, customerId, req.collectionDate,
      Or(req.timeSlot, Null),
      NormaliseTests(req.tests),
      Or(req.notes, Str("")),
      Str("PENDING"),
      Or(req.address, Str("")),
      Or(req.prescriptionImage, Null),
      None, now, now)
  }

  /** The 201 body for the rows just written. */
  function CreatedBody(a: Appointment, c: Customer): (b: Created)
    ensures b.success && b.bookingId == a.id && b.data.bookingId == a.id
    ensures b.appointment == a && b.customer == c && b.data.customerName == c.fullName
    ensures b.data.hasPrescription == Truthy(a.prescriptionImage)
  {
    Created(true, "Appointment created successfully", a, c, a.id,
      Summary(a.id, c.fullName, a.tests, a.collectionDate, a.status, Truthy(a.prescriptionImage)))
  }

  /** The handler. `customerId` and `appointmentId` are the ids the store
      generates for the two new rows; `customerWrite` and `appointmentWrite`
      say how each write ends; `now` is the store's clock. `dispatch` is the
      request handed to the background notification run, and `None` when no
      run is scheduled. */
  method Handle(
    db: Database, event: CreateEvent,
    customerId: string, appointmentId: string, now: int,
    customerWrite: WriteOutcome, appointmentWrite: WriteOutcome)
    returns (response: Response<Option<Created>>, dispatch: Option<BookingRequest>)
    requires db.Valid()
    requires customerId !in db.customers && appointmentId !in db.appointments
    modifies db
    ensures db.Valid()
    ensures event.httpMethod == "OPTIONS" ==>
      response == CreateResponse(200, None) && dispatch.None? && unchanged(db)
    ensures event.httpMethod != "OPTIONS" && event.httpMethod != "POST" ==>
      response == CreateErrorResponse(405, "Method not allowed") && dispatch.None? && unchanged(db)
    ensures event.httpMethod == "POST" && event.body.Unparsable? ==>
      response == CreateErrorResponse(500, FailurePrefix + event.body.message) &&
      dispatch.None? && unchanged(db)
    ensures event.httpMethod == "POST" && event.body.Parsed? && Screen(event.body.value).Refuse? ==>
      var v := Screen(event.body.value);
      response == CreateErrorResponse(v.statusCode, v.message) && dispatch.None? && unchanged(db)
    ensures event.httpMethod == "POST" && event.body.Parsed? && Screen(event.body.value).Accept? ==>
      var req := event.body.value;
      var customer := NewCustomer(customerId, MapContact(req));
      var appointment := NewAppointment(appointmentId, customerId, req, now);
      && (customerWrite.WriteFails? ==>
            response == CreateErrorResponse(500, FailurePrefix + customerWrite.message) &&
            dispatch.None? && unchanged(db))
      && (customerWrite.Written? && appointmentWrite.WriteFails? ==>
            response == CreateErrorResponse(500, FailurePrefix + appointmentWrite.message) &&
            dispatch.None? &&
            db.customers == old(db.customers)[customerId := customer] &&
            db.appointments == old(db.appointments))
      && (customerWrite.Written? && appointmentWrite.Written? ==>
            response == CreateResponse(201, Some(CreatedBody(appointment, customer))) &&
            dispatch == Some(req) &&
            db.customers == old(db.customers)[customerId := customer] &&
            db.appointments == old(db.appointments)[appointmentId := appointment])
  {
    dispatch := None;
    if event.httpMethod == "OPTIONS" {
      return CreateResponse(200, None), None;
    }
    if event.httpMethod != "POST" {
      return CreateErrorResponse(405, "Method not allowed"), None;
    }
    if event.body.Unparsable? {
      return CreateErrorResponse(500, FailurePrefix + event.body.message), None;
    }
    var req := event.body.value;
    var screening := Screen(req);
    if screening.Refuse? {
      return CreateErrorResponse(screening.statusCode, screening.message), None;
    }

    if customerWrite.WriteFails? {
      return CreateErrorResponse(500, FailurePrefix + customerWrite.message), None;
    }
    var customer := NewCustomer(customerId, screening.contact);
    db.customers := db.customers[customerId := customer];

    if appointmentWrite.WriteFails? {
      // the customer row stays: the two writes are not one transaction
      return CreateErrorResponse(500, FailurePrefix + appointmentWrite.message), None;
    }
    var appointment := NewAppointment(appointmentId, customer.id, req, now);
    db.appointments := db.appointments[appointmentId := appointment];

    response := CreateResponse(201, Some(CreatedBody(appointment, customer)));
    // the background dispatch receives the request body itself
    dispatch := Some(req);
  }
}
