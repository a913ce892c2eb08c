# PathLab Connect — a Dafny model of the booking back end

PathLab Connect takes bookings for lab tests collected at home. Customers
submit appointment requests, staff update them from an admin panel, and
each new booking sets off WhatsApp and email notifications. This project
models the back end's decision logic and its one piece of in-memory state.
It proves what each operation does to that state and what it answers.

- **Session store** (`auth_middleware.dfy`, module `Sessions`): the admin
  session table is a class `SessionStore` holding a `map<string, Session>`.
  Create, validate, destroy and the expiry sweep change it in place. Its
  invariant is that each entry is filed under its own `sess_` id and expires
  24 hours after it was created. The sweep is a loop that is proved to delete
  exactly the entries with `now > expiresAt` and to count them.
- **Response builders** (`response.dfy`, module `Responses`): the body is a
  record here, not JSON text.
- **Notification dispatcher** (`messaging.dfy`, module `Messaging`): the
  four template generators, reduced to the values they interpolate and their
  fallbacks; the two subject lines; the plain-text fallback that strips
  `<…>` runs; the success rules of the two gateways; and the three dispatch
  functions. Each send is recorded as an `Outbound` value, and its result is
  a parameter.
- **Booking intake** (`appointments_create.dfy`), **booking lookup**
  (`appointments_track.dfy`) and **status update**
  (`admin_update_status.dfy`): the three HTTP handlers. Each takes a
  `Database` (`store.dfy`). This class holds two tables, customers and
  appointments, keyed by row id. Its invariant is that every appointment's
  customer exists.
- Shared pieces: `js_values.dfy` models the JavaScript values a body field
  can hold (absent, `null`, a string, an array of strings), plus truthiness,
  `||` and `${}`. `booking_request.dfy` is the booking form body.
  `strings.dfy` has split/join, prefix, ASCII case mapping and decimal
  rendering, with their lemmas. `options.dfy` holds the `Option` type used
  for unset settings, failed lookups and `null` arguments.

The model has no clock, no random number source, no id generator and no
external service. These become parameters: the current time in milliseconds
(`now`), the random suffix of a session id, the ids the store gives new rows,
whether each store write succeeds, and what each gateway call returns.

Notes on what the code does:
- Both customer channels are always attempted, even when the phone or the
  email is missing.
- The admin WhatsApp message is always sent, to a default number when none is
  configured.
- The booking handler passes the new appointment's id as a second argument.
  The dispatcher takes only one argument, so that id is dropped. The
  `bookingId` shown in the notifications is the request body's own
  `bookingId` field.
- The lookup handler answers `OPTIONS` with 200 before it checks for `GET`.

## Model

| member | source | states |
|---|---|---|
| `Responses.CreateResponse` | netlify/functions/utils/response.js:1-14 | echoes the status code and the data; `success` holds exactly when the status is below 400; the headers are the three CORS/JSON headers, including `Content-Type: application/json` |
| `Responses.CreateErrorResponse` | netlify/functions/utils/response.js:16-29 | echoes the status code, carries the message, is never successful, and has the same three headers |
| `Sessions.SessionId` | netlify/functions/utils/auth-middleware.js:5 | a new id starts with `sess_`, followed by the creation millisecond in decimal, `_` and the random suffix |
| `Sessions.SessionIdInjective` | netlify/functions/utils/auth-middleware.js:5 | two ids are equal only if both the millisecond and the suffix are equal |
| `Sessions.Expired` | netlify/functions/utils/auth-middleware.js:33 | a session is still good at every instant up to and including its `expiresAt`, so the test is the strict `now > expiresAt` |
| `Sessions.ExpiredStaysExpired` | netlify/functions/utils/auth-middleware.js:60 | a session is good at its expiry instant and expired one millisecond later, and once expired it stays expired |
| `Sessions.NewSession` | netlify/functions/utils/auth-middleware.js:7-14 | the stored record has the given `userId`, `userData` defaulting to `{}`, `createdAt = lastAccessed = now`; it is still valid at `now + 86,400,000` ms and expired one millisecond later |
| `Sessions.Sweep` | netlify/functions/utils/auth-middleware.js:59-64 | the table left by the sweep has exactly the keys whose sessions are not expired, with their entries unchanged |
| `Sessions.SweepIdempotent` | netlify/functions/utils/auth-middleware.js:55-69 | after one sweep no entry is expired at the same instant, so a second sweep at that instant changes nothing |
| `Sessions.SweepCount` | netlify/functions/utils/auth-middleware.js:57-63 | the kept entries plus the expired keys make up the whole table |
| `Sessions.SessionStore.constructor` | netlify/functions/utils/auth-middleware.js:2 | the store starts empty and satisfies its invariant |
| `Sessions.SessionStore.CreateSession` | netlify/functions/utils/auth-middleware.js:4-18 | returns the `sess_` id and stores the new session under it; every other entry is unchanged; the invariant is kept |
| `Sessions.SessionStore.ValidateSession` | netlify/functions/utils/auth-middleware.js:20-44 | a missing or unknown id gives null and leaves the table alone; an entry with `now > expiresAt` is deleted (and only it) and gives null; otherwise only that entry's `lastAccessed` becomes `now`, and the updated entry is returned |
| `Sessions.SessionStore.DestroySession` | netlify/functions/utils/auth-middleware.js:46-53 | returns true exactly when the id was present; afterwards the id is absent and every other entry is unchanged |
| `Sessions.SessionStore.CleanupExpiredSessions` | netlify/functions/utils/auth-middleware.js:55-69 | the table becomes the sweep of the old table, and `cleaned` equals both the number of expired keys and the number of entries removed |
| `Messaging.BookingDetails` | netlify/functions/utils/messaging.js:140-164 | the templates show `bookingId`, `customerPhone`, `selectedTests`, `collectionDate`, `timeSlot` and `address`, each as `${}` renders it, so an absent id shows as `undefined` |
| `Messaging.GenerateCustomerWhatsAppMessage` | netlify/functions/utils/messaging.js:322-350 | the greeting name is the request's `customerName`, or `Valued Customer` when it is falsy; the details are the interpolated booking fields |
| `Messaging.GenerateCustomerEmailTemplate` | netlify/functions/utils/messaging.js:87-198 | same name fallback and details as the customer WhatsApp text |
| `Messaging.GenerateAdminWhatsAppMessage` | netlify/functions/utils/messaging.js:352-375 | the name falls back to `Customer`; the details are the interpolated booking fields |
| `Messaging.GenerateAdminEmailTemplate` | netlify/functions/utils/messaging.js:200-316 | the name falls back to `Customer`, a falsy email is shown as `Not provided`, and the details are the interpolated booking fields |
| `Messaging.CustomerSubject` | netlify/functions/utils/messaging.js:395 | the subject is the fixed "Booking Confirmed #" prefix followed by exactly the booking id |
| `Messaging.AdminSubject` | netlify/functions/utils/messaging.js:418 | the subject is the "New Booking Alert #" prefix, the booking id, then ` - Action Required`; the id can be read back between them |
| `Messaging.StripTags` | netlify/functions/utils/messaging.js:72 | the result is never longer than the input, uses only characters of the input, and a string with no `<` is unchanged |
| `Messaging.StripTagsIsTagFree` | netlify/functions/utils/messaging.js:72 | no `<` in the stripped text has a `>` after it |
| `Messaging.StripTagsKeepsTagFree` | netlify/functions/utils/messaging.js:72 | a string with no `<` followed by a `>` passes through unchanged |
| `Messaging.StripTagsKeepsPrefix` | netlify/functions/utils/messaging.js:72 | text in front of the first `<` is kept unchanged, and the rest is stripped as it would be on its own |
| `Messaging.StripTagsDropsFirstTag` | netlify/functions/utils/messaging.js:72 | a tag at the first `<` (up to the first `>` after it) is removed whole; the text in front of it is kept as it is, and stripping carries on after the tag |
| `Messaging.StripTagsIdempotent` | netlify/functions/utils/messaging.js:72 | stripping the stripped text changes nothing |
| `Messaging.EmailText` | netlify/functions/utils/messaging.js:72 | the text part is the given `textContent` when it is non-empty, otherwise the stripped, tag-free HTML |
| `Messaging.AdminPhone` | netlify/functions/utils/messaging.js:402 | the configured admin phone, or `+919876543210` when it is unset or empty |
| `Messaging.AdminEmail` | netlify/functions/utils/messaging.js:403 | the configured admin email, or `admin@pathlabconnect.com` when it is unset or empty |
| `Messaging.SendWhatsAppMessage` | netlify/functions/utils/messaging.js:18-55 | posts the message to the given phone; true exactly when the endpoint answers status 200; any other status or a thrown error gives false |
| `Messaging.SendEmail` | netlify/functions/utils/messaging.js:61-81 | hands the mail to the provider; true exactly when the provider call does not throw |
| `Messaging.SendCustomerNotifications` | netlify/functions/utils/messaging.js:381-399 | WhatsApp to `customerPhone`, then email to `customerEmail` with the customer subject, both unconditionally; each flag depends only on its own call |
| `Messaging.SendAdminNotifications` | netlify/functions/utils/messaging.js:401-422 | WhatsApp to the admin phone, then email to the admin address with the admin subject; each flag depends only on its own call |
| `Messaging.ProcessBookingNotifications` | netlify/functions/utils/messaging.js:428-464 | exactly four calls in the order customer WhatsApp, customer email, admin WhatsApp, admin email; `whatsapp`/`email`/`admin`/`adminEmail` each reflect only their own call; a null request sends nothing and gives four false flags |
| `AppointmentsCreate.MapContact` | netlify/functions/appointments-create.js:28-30 | name, phone and email take `fullName`/`phoneNumber`/`emailAddress` when truthy, and `customerName`/`customerPhone`/`customerEmail` otherwise |
| `AppointmentsCreate.Screen` | netlify/functions/appointments-create.js:21-42 | the request is accepted exactly when no logging line throws and the mapped name is truthy; an array-valued image, phone or email makes a logging line throw, which gives a 500 with the failure prefix even when the name is also falsy; with no such array, a falsy name gives exactly 400 `Customer name is required` |
| `AppointmentsCreate.NormaliseTests` | netlify/functions/appointments-create.js:66 | an array is joined with `, `; a non-empty string is kept; a falsy value becomes `General Checkup`; the result is empty only for an array that joins to the empty string |
| `AppointmentsCreate.NewCustomer` | netlify/functions/appointments-create.js:47-53 | the customer row holds the mapped name, phone and email under the store's new id |
| `AppointmentsCreate.NewAppointment` | netlify/functions/appointments-create.js:61-75 | status `PENDING`; `notes`/`address` default to `''`; `timeSlot`/`prescriptionImage` default to null; tests normalised; no technician; linked to the given customer id |
| `AppointmentsCreate.CreatedBody` | netlify/functions/appointments-create.js:99-112 | `bookingId` is the appointment's id; the summary's customer name is the customer row's name; `hasPrescription` is the truthiness of the stored image |
| `AppointmentsCreate.Handle` | netlify/functions/appointments-create.js:7-138 | OPTIONS gives 200 with null data; a method other than POST gives 405; parse errors and screening failures change nothing; a failed customer write changes nothing; a failed appointment write leaves the customer row; success adds the customer, then an appointment pointing to it, answers 201 and hands the request body to the dispatcher |
| `AppointmentsTrack.LastSegment` | netlify/functions/appointments-track.js:14 | the id contains no `/` |
| `AppointmentsTrack.LastSegmentIsSuffix` | netlify/functions/appointments-track.js:14 | the id is the part of the path after its last `/`, or the whole path when there is none |
| `AppointmentsTrack.BookingId` | netlify/functions/appointments-track.js:55 | the first 8 characters of the id (fewer if the id is shorter), upper-cased |
| `AppointmentsTrack.BookingIdLeadsBack` | netlify/functions/appointments-track.js:30-44 | for an id without capital letters, the prefix search for its upper-case booking id matches that id again |
| `AppointmentsTrack.TestsArray` | netlify/functions/appointments-track.js:51 | an empty string gives `[]`; otherwise the pieces contain no comma and joining them with `,` gives back the stored string |
| `AppointmentsTrack.TestsRoundTrip` | netlify/functions/appointments-track.js:51 | a comma-free test list stored by the booking handler comes back with its first test exact and each later test behind one leading space; the empty list and the list holding only the empty name are stored as `''` and come back as `[]` |
| `AppointmentsTrack.View` | netlify/functions/appointments-track.js:53-69 | the response carries the id, its booking id, the customer's name, the split tests and the technician (null when there is none) |
| `AppointmentsTrack.Answers` | netlify/functions/appointments-track.js:21-44 | only stored ids answer; when the input is itself a stored id, that id is the only answer; otherwise every id starting with the lower-cased input answers |
| `AppointmentsTrack.FindAppointment` | netlify/functions/appointments-track.js:21-44 | an exact id match is returned when there is one; only otherwise is a row whose id starts with the lower-cased input returned; nothing is found exactly when neither rule matches |
| `AppointmentsTrack.Handle` | netlify/functions/appointments-track.js:4-75 | OPTIONS gives 200; a method other than GET gives 405; an empty last segment gives 400; a store error gives 500; no match gives 404; otherwise 200 with the view of a row found by the exact-then-prefix rule |
| `AdminUpdateStatus.HasRequiredFields` | netlify/functions/admin-update-status.js:36 | the check passes exactly when both `appointmentId` and `status` are truthy: an absent, `null` or empty one fails it, and any non-empty string or array passes, in any combination |
| `AdminUpdateStatus.ApplyUpdate` | netlify/functions/admin-update-status.js:48-54 | `status` is set verbatim, `notes` to `notes \|\| ''` and `updatedAt` to now; every other field of the row is unchanged |
| `AdminUpdateStatus.Handle` | netlify/functions/admin-update-status.js:3-90 | OPTIONS gives 200 with the preflight headers; other non-POST methods give 405; a missing `appointmentId` or `status` gives 400 and changes nothing; an unknown id, a bad body or a failed write gives 500 `Failed to update status` and changes nothing; success replaces only that row and answers 200 with it and its customer's contact fields |
| `JsValues.Truthy` | netlify/functions/appointments-create.js:28-39 | `undefined`, `null` and `''` are falsy; every other string and every array, even `[]`, is truthy |
| `JsValues.Or` | netlify/functions/appointments-create.js:28-30 | `a \|\| b` is `a` when `a` is truthy and `b` otherwise; the result is truthy exactly when one of the two is |
| `JsValues.Interpolate` | netlify/functions/utils/messaging.js:140-164 | `${v}` renders a string as itself, `undefined` and `null` by name, and an array as its elements joined with `,` |
| `Strings.StartsWith` | netlify/functions/appointments-track.js:34 | the empty prefix and the string itself are prefixes; a prefix longer than the string never is |
| `Strings.StartsWithChars` | netlify/functions/appointments-track.js:34 | `startsWith` holds exactly when the prefix fits and matches the string character by character |
| `Strings.ToLower` | netlify/functions/appointments-track.js:34 | keeps the length; each ASCII capital becomes its lower-case letter, every other character is kept, and no capital is left |
| `Strings.ToUpper` | netlify/functions/appointments-track.js:55 | keeps the length; each ASCII lower-case letter becomes its capital, every other character is kept, and no lower-case letter is left |
| `Strings.Join` | netlify/functions/appointments-create.js:66 | `join` gives `''` for no elements, and otherwise starts with the first element |
| `Strings.JoinLength` | netlify/functions/appointments-create.js:66 | a join is as long as its elements together plus one separator between each two of them |
| `Strings.Take` | netlify/functions/appointments-track.js:55 | `substring(0, n)` is the first `n` characters, or the whole string when it is shorter |
| `Strings.Split` | netlify/functions/appointments-track.js:51 | `split` on one character gives at least one piece, and no piece contains the separator |
| `Strings.JoinOfSplit` | netlify/functions/appointments-track.js:51 | joining the pieces with the separator gives back the string |
| `Strings.SplitOfCommaSpaceJoin` | netlify/functions/appointments-create.js:66 | splitting a `, `-joined list of comma-free strings on `,` gives the first string exact and the others with one leading space |
| `Strings.Decimal` | netlify/functions/utils/auth-middleware.js:5 | the rendering of a millisecond count is a non-empty run of decimal digits |
| `Strings.DecimalRoundTrip` | netlify/functions/utils/auth-middleware.js:5 | reading the digits back gives the number that was rendered |
| `Strings.DecimalInjective` | netlify/functions/utils/auth-middleware.js:5 | different timestamps give different decimal renderings in the session id |

## Left out

- Outbound HTTP to the WhatsApp Graph endpoint and the Resend email client. These are foreign calls. Each call is recorded as an `Outbound` value, and its result (`HttpOutcome`, `ProviderOutcome`) is a parameter.
- The fixed wording, emoji, HTML and CSS of the four templates. Only the interpolated values and their fallbacks are modelled, so `StripTags` is stated on strings in general, not on the rendered HTML.
- The "time received" line of the two admin templates. It is wall-clock time formatted for the `en-IN` locale.
- `Date.now()`, `new Date()` and `Math.random()`. They become the `now` and `suffix` parameters. `createSession` reads the clock more than once, and so does `validateSession` (once for the expiry test, once for `lastAccessed`). The model uses one instant per call.
- Sessions.SessionStore.CleanupExpiredSessions: returns the number of sessions it removed. The source only logs that number and returns nothing.
- The hourly `setInterval` that runs the sweep, and the background `setImmediate` that runs the dispatcher. The booking handler returns the request it would hand to the dispatcher.
- `JSON.parse` and `JSON.stringify`. Bodies are records, and a body that does not parse carries the parser's message. A body that parses to a JSON primitive is not modelled.
- Request fields that are numbers, booleans or nested objects. Fields are absent, `null`, strings or arrays of strings.
- The Prisma store. Row ids, unique ids (a precondition of the booking handler) and write failures come from the caller. Prisma's checks of column types are not modelled, and neither is the parsing of `collectionDate` into a `Date`.
- AppointmentsTrack.Handle: a failure of the store query is one flag covering both queries. The model does not say which query failed.
- Strings.ToLower, Strings.ToUpper: only the ASCII letters change case. JavaScript's full Unicode case mapping is not modelled.
- Strings.Decimal: renders any non-negative integer in plain decimal. JavaScript switches to exponent notation at 10^21, far beyond any millisecond timestamp.
- netlify/functions/admin-dashboard.js. Its counting, ordering and `take: 10` are done by the database, and its day and month boundaries use local-timezone `Date` arithmetic.
- netlify/functions/admin-appointments.js. Its only decision, 401 on an invalid session, is `SessionStore.ValidateSession`. The rest copies fields.
- netlify/functions/admin-login.js and netlify/functions/admin-logout.js, which return constant responses, and server.js, which sets up Express.
- All `console.log` and `console.error` output. Logging lines that throw are modelled, because they decide the response: `.substring` on an array-valued prescription image, phone or email at booking, and on an array-valued `appointmentId` at status update.
