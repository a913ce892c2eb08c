/** The parsed body of a booking submission. The same object is the input of
    appointment creation and the `messageData` of the notification
    dispatcher, so it carries both the form's field names (`fullName`,
    `phoneNumber`, `emailAddress`, `tests`) and the names the message
    templates read (`customerName`, `customerPhone`, `customerEmail`,
    `bookingId`, `selectedTests`). */
module BookingRequests {
  import opened JsValues

  datatype BookingRequest = BookingRequest(
    fullName: Value,
    customerName: Value,
    phoneNumber: Value,
    customerPhone: Value,
    emailAddress: Value,
    customerEmail: Value,
    bookingId: Value,
    tests: Value,
    selectedTests: Value,
    collectionDate: Value,
    timeSlot: Value,
    notes: Value,
    address: Value,
    prescriptionImage: Value)

  /** What `JSON.parse(event.body)` gives: the object, or the message of the
      error it throws. */
  datatype Parsed<T> = Parsed(value: T) | Unparsable(message: string)
}
