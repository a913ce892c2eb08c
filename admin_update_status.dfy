/** The admin status-update handler: after the method check and the
    required-field check it rewrites `status`, `notes` and `updatedAt` of one
    appointment row in place. It builds its own responses, with its own
    headers and an `error` field instead of the shared builders' shape. */
module AdminUpdateStatus {
  import opened JsValues
  import opened BookingRequests
  import opened Store

  const PreflightHeaders: map<string, string> := map[
    "Access-Control-Allow-Origin" := "*",
    "Access-Control-Allow-Headers" := "Content-Type",
    "Access-Control-Allow-Methods" := "POST, OPTIONS"]

  const JsonHeaders: map<string, string> := map[
    "Access-Control-Allow-Origin" := "*",
    "Content-Type" := "application/json"]

  const UpdateFailed := "Failed to update status"

  datatype UpdateRequest = UpdateRequest(appointmentId: Value, status: Value, notes: Value)

  datatype UpdateEvent = UpdateEvent(httpMethod: string, body: Parsed<UpdateRequest>)

  /** The customer fields the update's `include` selects. */
  datatype ContactView = ContactView(fullName: Value, phone: Value, email: Value)

  datatype ReplyBody =
    | NoBody
    | ErrorBody(error: string)
    | Updated(success: bool, message: string, appointment: Appointment, customer: ContactView)

  datatype Reply = Reply(statusCode: int, headers: map<string, string>, body: ReplyBody)

  /** `!appointmentId || !status` fails the required-field check. */
  predicate HasRequiredFields(req: UpdateRequest)
    ensures HasRequiredFields(req) ==>
      req.appointmentId !in {Undefined, Null, Str("")} && req.status !in {Undefined, Null, Str("")}
    ensures Truthy(req.appointmentId) && Truthy(req.status) ==> HasRequiredFields(req)
    ensures req.appointmentId.StrArray? && req.status.StrArray? ==> HasRequiredFields(req)
    ensures req.appointmentId.Str? && req.status.Str? ==>
      (HasRequiredFields(req) <==> req.appointmentId.text != "" && req.status.text != "")
  {
    Truthy(req.appointmentId) && Truthy(req.status)
  }

  /** The row after the update: `status` verbatim (no check against the known
      statuses), `notes || ''`, `updatedAt` now; every other field as it was. */
  function ApplyUpdate(a: Appointment, status: Value, notes: Value, now: int): (b: Appointment)
    ensures b.status == status && b.updatedAt == now
    ensures Truthy(notes) ==> b.notes == notes
    ensures !Truthy(notes) ==> b.notes == Str("")
    ensures b.(status := a.status, notes := a.notes, updatedAt := a.updatedAt) == a
  {
    a.(status := status, notes := Or(notes, Str("")), updatedAt := now)
  }

  /** The `customer` part of the success body. */
  function CustomerContact(c: Customer): ContactView {
    ContactView(c.fullName, c.phone, c.email)
  }

  /** The handler. `write` says how the store's update ends; `now` is its clock. */
  method Handle(db: Database, event: UpdateEvent, now: int, write: WriteOutcome) returns (reply: Reply)
    requires db.Valid()
    modifies db
    ensures db.Valid()
    ensures event.httpMethod == "OPTIONS" ==> reply == Reply(200, PreflightHeaders, NoBody) && unchanged(db)
    ensures event.httpMethod != "OPTIONS" && event.httpMethod != "POST" ==>
      reply == Reply(405, JsonHeaders, ErrorBody("Method not allowed")) && unchanged(db)
    ensures event.httpMethod == "POST" && event.body.Unparsable? ==>
      reply == Reply(500, JsonHeaders, ErrorBody(UpdateFailed)) && unchanged(db)
    ensures event.httpMethod == "POST" && event.body.Parsed? && event.body.value.appointmentId.StrArray? ==>
      reply == Reply(500, JsonHeaders, ErrorBody(UpdateFailed)) && unchanged(db)
    ensures event.httpMethod == "POST" && event.body.Parsed? && !event.body.value.appointmentId.StrArray? &&
            !HasRequiredFields(event.body.value) ==>
      reply == Reply(400, JsonHeaders, ErrorBody("appointmentId and status are required")) && unchanged(db)
    ensures event.httpMethod == "POST" && event.body.Parsed? && HasRequiredFields(event.body.value) &&
            event.body.value.appointmentId.Str? ==>
      var req := event.body.value;
      var id := req.appointmentId.text;
      if id in old(db.appointments) && write.Written? then
        var row := ApplyUpdate(old(db.appointments)[id], req.status, req.notes, now);
        && db.appointments == old(db.appointments)[id := row]
        && db.customers == old(db.customers)
        && reply == Reply(200, JsonHeaders,
             Updated(true, "Status updated successfully", row, CustomerContact(db.customers[row.customerId])))
      else
        reply == Reply(500, JsonHeaders, ErrorBody(UpdateFailed)) && unchanged(db)
  {
    if event.httpMethod == "OPTIONS" {
      return Reply(200, PreflightHeaders, NoBody);
    }
    if event.httpMethod != "POST" {
      return Reply(405, JsonHeaders, ErrorBody("Method not allowed"));
    }
    if event.body.Unparsable? {
      return Reply(500, JsonHeaders, ErrorBody(UpdateFailed));
    }
    var req := event.body.value;
    if req.appointmentId.StrArray? {
      // `appointmentId?.substring(0, 8)` in the log line throws for an array
      return Reply(500, JsonHeaders, ErrorBody(UpdateFailed));
    }
    if !HasRequiredFields(req) {
      return Reply(400, JsonHeaders, ErrorBody("appointmentId and status are required"));
    }
    var id := req.appointmentId.text;
    if id !in db.appointments || write.WriteFails? {
      // the store rejects an unknown id, or the write itself fails
      return Reply(500, JsonHeaders, ErrorBody(UpdateFailed));
    }
    var row := ApplyUpdate(db.appointments[id], req.status, req.notes, now);
    db.appointments := db.appointments[id := row];
    reply := Reply(200, JsonHeaders, Updated(true, "Status updated successfully", row, CustomerContact(db.customers[row.customerId])));
  }
}
