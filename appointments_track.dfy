/** The booking lookup handler: takes the last path segment as the id, tries
    an exact id match, then any appointment whose id starts with the
    lower-cased segment, and formats what it finds. */
module AppointmentsTrack {
  import opened Strings
  import opened Options
  import opened JsValues
  import opened Responses
  import opened Store
  import AppointmentsCreate

  datatype TrackEvent = TrackEvent(httpMethod: string, path: string)

  /** The 200 body's `data`. */
  datatype TrackView = TrackView(
    id: string,
    bookingId: string,
    customerName: Value,
    collectionDate: Value,
    timeSlot: Value,
    tests: seq<string>,
    status: Value,
    technician: Option<Technician>,
    address: Value,
    notes: Value,
    createdAt: int,
    updatedAt: int)

  /** `path.split('/').pop()` */
  function LastSegment(path: string): (segment: string)
    ensures '/' !in segment
  {
    var parts := Split(path, '/');
    parts[|parts| - 1]
  }

  /** The segment is the longest `/`-free suffix of the path: the path is
      the segment, or something ending in `/` followed by the segment. */
  lemma LastSegmentIsSuffix(path: string)
    ensures |LastSegment(path)| <= |path|
    ensures path[|path| - |LastSegment(path)|..] == LastSegment(path)
    ensures |LastSegment(path)| < |path| ==> path[|path| - |LastSegment(path)| - 1] == '/'
  {
    var parts := Split(path, '/');
    var segment := parts[|parts| - 1];
    assert segment == LastSegment(path);
    JoinOfSplit(path, '/');
    if |parts| == 1 {
      assert path == segment;
    } else {
      JoinSnoc(parts, "/");
      var front := Join(parts[..|parts| - 1], "/");
      assert path == front + "/" + segment;
      assert path[|front|] == '/';
      assert |path| - |segment| - 1 == |front|;
      assert path[|front| + 1..] == segment;
    }
  }

  /** `id.substring(0, 8).toUpperCase()` */
  function BookingId(id: string): (b: string)
    ensures |b| == if |id| < 8 then |id| else 8
    ensures forall i :: 0 <= i < |b| ==> b[i] == UpperChar(id[i])
  {
    ToUpper(Take(id, 8))
  }

  /** The booking id shown for an appointment whose id has no capital
      letters leads back to it: that id starts with the lower-cased booking id. */
  lemma BookingIdLeadsBack(id: string)
    requires forall i :: 0 <= i < |id| ==> !IsAsciiUpper(id[i])
    ensures StartsWith(id, ToLower(BookingId(id)))
  {
    var head := Take(id, 8);
    assert forall i :: 0 <= i < |head| ==> head[i] == id[i];
    LowerOfUpper(head);
  }

  /** `tests ? tests.split(',') : []` */
  function TestsArray(tests: string): (xs: seq<string>)
    ensures tests == "" ==> xs == []
    ensures tests != "" ==> Join(xs, ",") == tests && forall i :: 0 <= i < |xs| ==> ',' !in xs[i]
  {
    JoinOfSplit(tests, ',');
    if tests == "" then [] else Split(tests, ',')
  }

  /** A test list stored by the booking handler (joined with ", ") comes back
      with its first name exact and each later name behind one space; the one
      exceptions are the empty list and the list holding only the empty name,
      which are stored as the empty string and come back as no tests at all. */
  lemma TestsRoundTrip(xs: seq<string>)
    requires forall i :: 0 <= i < |xs| ==> ',' !in xs[i]
    ensures xs == [] || xs == [""] ==> TestsArray(AppointmentsCreate.NormaliseTests(StrArray(xs))) == []
    ensures xs != [] && xs != [""] ==>
      TestsArray(AppointmentsCreate.NormaliseTests(StrArray(xs))) == [xs[0]] + Prefixed(xs[1..], " ")
  {
    if xs != [] && xs != [""] {
      assert Join(xs, ", ") != "" by {
        if |xs| >= 2 {
          assert Join(xs, ", ")[|xs[0]|..|xs[0]| + 2] == ", ";
        } else {
          assert xs[0] != "";
        }
      }
      SplitOfCommaSpaceJoin(xs);
    }
  }

  /** The 200 body for a found appointment and its customer. */
  function View(a: Appointment, c: Customer): (v: TrackView)
    ensures v.id == a.id && v.bookingId == BookingId(a.id)
    ensures v.customerName == c.fullName
    ensures v.tests == TestsArray(a.tests)
    ensures v.technician == a.technician
  {
    TrackView(a.id, BookingId(a.id), c.fullName, a.collectionDate, a.timeSlot, TestsArray(a.tests),
      a.status, a.technician, a.address, a.notes, a.createdAt, a.updatedAt)
  }

  /** Appointment `k` answers the query `input`: an exact id match when there
      is one, otherwise any id starting with the lower-cased input. */
  ghost predicate Answers(appointments: map<string, Appointment>, input: string, k: string)
    ensures Answers(appointments, input, k) ==> k in appointments
    ensures input in appointments ==> (Answers(appointments, input, k) <==> k == input)
    ensures input !in appointments && k in appointments && StartsWith(k, ToLower(input)) ==>
      Answers(appointments, input, k)
  {
    if input in appointments then k == input
    else k in appointments && StartsWith(k, ToLower(input))
  }

  /** The lookup: `findUnique` by id, and only if that finds nothing,
      `findMany` with `startsWith` and `take: 1`. Which prefix match comes
      first is the store's choice. */
  method FindAppointment(db: Database, input: string) returns (found: Option<Appointment>)
    requires db.Valid()
    ensures found.Some? ==>
      Answers(db.appointments, input, found.value.id) && db.appointments[found.value.id] == found.value
    ensures found.None? <==>
      input !in db.appointments &&
      forall k :: k in db.appointments ==> !StartsWith(k, ToLower(input))
  {
    if input in db.appointments {
      return Some(db.appointments[input]);
    }
    var prefix := ToLower(input);
    var pending := db.appointments.Keys;
    while pending != {}
      invariant pending <= db.appointments.Keys
      invariant forall k :: k in db.appointments && k !in pending ==> !StartsWith(k, prefix)
      decreases pending
    {
      var k :| k in pending;
      if StartsWith(k, prefix) {
        return Some(db.appointments[k]);
      }
      pending := pending - {k};
    }
    return None;
  }

  /** The handler. `storeFails` says the store query throws. */
  method Handle(db: Database, event: TrackEvent, storeFails: bool)
    returns (response: Response<Option<TrackView>>)
    requires db.Valid()
    ensures event.httpMethod == "OPTIONS" ==> response == CreateResponse(200, None)
    ensures event.httpMethod != "OPTIONS" && event.httpMethod != "GET" ==>
      response == CreateErrorResponse(405, "Method not allowed")
    ensures event.httpMethod == "GET" && LastSegment(event.path) == "" ==>
      response == CreateErrorResponse(400, "Appointment ID required")
    ensures event.httpMethod == "GET" && LastSegment(event.path) != "" && storeFails ==>
      response == CreateErrorResponse(500, "Failed to track appointment")
    ensures event.httpMethod == "GET" && LastSegment(event.path) != "" && !storeFails ==>
      var input := LastSegment(event.path);
      && (response.statusCode == 404 <==> !exists k :: k in db.appointments && Answers(db.appointments, input, k))
      && (response.statusCode == 404 ==> response == CreateErrorResponse(404, "Appointment not found"))
      && (response.statusCode != 404 ==>
            response.statusCode == 200 &&
            exists k :: k in db.appointments && Answers(db.appointments, input, k) &&
              response == CreateResponse(200, Some(View(db.appointments[k], db.customers[db.appointments[k].customerId]))))
  {
    if event.httpMethod == "OPTIONS" {
      return CreateResponse(200, None);
    }
    if event.httpMethod != "GET" {
      return CreateErrorResponse(405, "Method not allowed");
    }
    var input := LastSegment(event.path);
    if input == "" {
      return CreateErrorResponse(400, "Appointment ID required");
    }
    if storeFails {
      return CreateErrorResponse(500, "Failed to track appointment");
    }
    var found := FindAppointment(db, input);
    if found.None? {
      return CreateErrorResponse(404, "Appointment not found");
    }
    var a := found.value;
    response := CreateResponse(200, Some(View(a, db.customers[a.customerId])));
  }
}
