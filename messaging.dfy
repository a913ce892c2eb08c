/** The booking notification dispatcher. Four messages are built from the
    booking request (`messageData`) and sent one after another: WhatsApp and
    email to the customer, then WhatsApp and email to the administrator. Each
    send reports its own success flag. The WhatsApp Graph endpoint and the
    email provider are outside the model: each call is recorded as an
    `Outbound` value and its result is supplied by the caller. */
module Messaging {
  import opened Strings
  import opened Options
  import opened JsValues
  import opened BookingRequests

  const CustomerFallbackName := "Valued Customer"
  const AdminFallbackName := "Customer"
  const MissingEmailText := "Not provided"
  const DefaultAdminPhone := "+919876543210"
  const DefaultAdminEmail := "admin@pathlabconnect.com"
  const CustomerSubjectPrefix := "\U{1F9EA} PathLab Connect - Booking Confirmed #"
  const AdminSubjectPrefix := "\U{1F6A8} New Booking Alert #"
  const AdminSubjectSuffix := " - Action Required"

  // ---------------------------------------------------------------------
  // Templates: only the interpolated fields are modelled; the surrounding
  // wording, emoji and HTML/CSS are fixed text.
  // ---------------------------------------------------------------------

  /** The booking fields every template shows, as `${...}` renders them. */
  datatype Details = Details(
    bookingId: string,
    phone: string,
    tests: string,
    collectionDate: string,
    timeSlot: string,
    address: string)

  datatype Rendered =
    | CustomerWhatsAppText(name: string, details: Details)
    | CustomerEmailHtml(name: string, details: Details)
    | AdminWhatsAppText(name: string, details: Details)
    | AdminEmailHtml(name: string, email: string, details: Details)

  /** The booking fields the four templates show: the id, phone and tests
      under their notification names (`customerPhone`, `selectedTests`), not
      the booking form's alternatives. */
  function BookingDetails(d: BookingRequest): (r: Details)
    ensures r.bookingId == Interpolate(d.bookingId) && r.phone == Interpolate(d.customerPhone)
    ensures r.tests == Interpolate(d.selectedTests) && r.collectionDate == Interpolate(d.collectionDate)
    ensures r.timeSlot == Interpolate(d.timeSlot) && r.address == Interpolate(d.address)
    ensures d.bookingId.Undefined? ==> r.bookingId == "undefined"
  {
    Details(
      Interpolate(d.bookingId),
      Interpolate(d.customerPhone),
      Interpolate(d.selectedTests),
      Interpolate(d.collectionDate),
      Interpolate(d.timeSlot),
      Interpolate(d.address))
  }

  /** `generateCustomerWhatsAppMessage(messageData)` */
  function GenerateCustomerWhatsAppMessage(d: BookingRequest): (m: Rendered)
    ensures m.CustomerWhatsAppText? && m.details == BookingDetails(d)
    ensures Truthy(d.customerName) ==> m.name == Interpolate(d.customerName)
    ensures !Truthy(d.customerName) ==> m.name == CustomerFallbackName
  {
    CustomerWhatsAppText(Interpolate(Or(d.customerName, Str(CustomerFallbackName))), BookingDetails(d))
  }

  /** `generateCustomerEmailTemplate(messageData)` */
  function GenerateCustomerEmailTemplate(d: BookingRequest): (m: Rendered)
    ensures m.CustomerEmailHtml? && m.details == BookingDetails(d)
    ensures Truthy(d.customerName) ==> m.name == Interpolate(d.customerName)
    ensures !Truthy(d.customerName) ==> m.name == CustomerFallbackName
  {
    CustomerEmailHtml(Interpolate(Or(d.customerName, Str(CustomerFallbackName))), BookingDetails(d))
  }

  /** `generateAdminWhatsAppMessage(messageData)` */
  function GenerateAdminWhatsAppMessage(d: BookingRequest): (m: Rendered)
    ensures m.AdminWhatsAppText? && m.details == BookingDetails(d)
    ensures Truthy(d.customerName) ==> m.name == Interpolate(d.customerName)
    ensures !Truthy(d.customerName) ==> m.name == AdminFallbackName
  {
    AdminWhatsAppText(Interpolate(Or(d.customerName, Str(AdminFallbackName))), BookingDetails(d))
  }

  /** `generateAdminEmailTemplate(messageData)` */
  function GenerateAdminEmailTemplate(d: BookingRequest): (m: Rendered)
    ensures m.AdminEmailHtml? && m.details == BookingDetails(d)
    ensures Truthy(d.customerName) ==> m.name == Interpolate(d.customerName)
    ensures !Truthy(d.customerName) ==> m.name == AdminFallbackName
    ensures Truthy(d.customerEmail) ==> m.email == Interpolate(d.customerEmail)
    ensures !Truthy(d.customerEmail) ==> m.email == MissingEmailText
  {
    AdminEmailHtml(
      Interpolate(Or(d.customerName, Str(AdminFallbackName))),
      Interpolate(Or(d.customerEmail, Str(MissingEmailText))),
      BookingDetails(d))
  }

  /** The customer email's subject line; the booking id can be read back off it. */
  function CustomerSubject(d: BookingRequest): (subject: string)
    ensures StartsWith(subject, CustomerSubjectPrefix)
    ensures subject[|CustomerSubjectPrefix|..] == Interpolate(d.bookingId)
  {
    CustomerSubjectPrefix + Interpolate(d.bookingId)
  }

  /** The admin email's subject line; the booking id sits between the fixed
      prefix and suffix. */
  function AdminSubject(d: BookingRequest): (subject: string)
    ensures StartsWith(subject, AdminSubjectPrefix)
    ensures |subject| == |AdminSubjectPrefix| + |Interpolate(d.bookingId)| + |AdminSubjectSuffix|
    ensures subject[|AdminSubjectPrefix|..|subject| - |AdminSubjectSuffix|] == Interpolate(d.bookingId)
    ensures subject[|subject| - |AdminSubjectSuffix|..] == AdminSubjectSuffix
  {
    AdminSubjectPrefix + Interpolate(d.bookingId) + AdminSubjectSuffix
  }

  // ---------------------------------------------------------------------
  // Plain-text fallback of an email: `html.replace(/<[^>]*>/g, '')`.
  // ---------------------------------------------------------------------

  /** Removes, left to right, every run from a `<` to the first `>` after it;
      a `<` with no `>` after it is kept. */
  function StripTags(s: string): (r: string)
    ensures |r| <= |s|
    ensures forall c :: c in r ==> c in s
    ensures '<' !in s ==> r == s
    decreases |s|
  {
    if s == [] then []
    else if s[0] == '<' && '>' in s[1..] then StripTags(s[IndexOf(s[1..], '>') + 2..])
    else [s[0]] + StripTags(s[1..])
  }

  /** No `<` is followed, anywhere later, by a `>`: the string holds no tag. */
  predicate TagFree(s: string) {
    forall i, j :: 0 <= i < j < |s| && s[i] == '<' ==> s[j] != '>'
  }

  /** What the stripping leaves holds no tag. */
  lemma {:induction false} StripTagsIsTagFree(s: string)
    ensures TagFree(StripTags(s))
    decreases |s|
  {
    if s == [] {
    } else if s[0] == '<' && '>' in s[1..] {
      StripTagsIsTagFree(s[IndexOf(s[1..], '>') + 2..]);
    } else {
      StripTagsIsTagFree(s[1..]);
      var rest := StripTags(s[1..]);
      if s[0] == '<' {
        assert '>' !in rest;
      }
      var r := [s[0]] + rest;
      forall i, j | 0 <= i < j < |r| && r[i] == '<' ensures r[j] != '>' {
        assert r[j] == rest[j - 1];
        if i > 0 {
          assert rest[i - 1] == '<';
        }
      }
    }
  }

  /** A tag-free string is left as it is. */
  lemma {:induction false} StripTagsKeepsTagFree(s: string)
    requires TagFree(s)
    ensures StripTags(s) == s
    decreases |s|
  {
    if s != [] {
      if s[0] == '<' {
        assert '>' !in s[1..] by {
          forall j | 0 <= j < |s[1..]| ensures s[1..][j] != '>' {
            assert s[1..][j] == s[j + 1];
          }
        }
      }
      assert TagFree(s[1..]) by {
        forall i, j | 0 <= i < j < |s[1..]| && s[1..][i] == '<' ensures s[1..][j] != '>' {
          assert s[1..][i] == s[i + 1] && s[1..][j] == s[j + 1];
        }
      }
      StripTagsKeepsTagFree(s[1..]);
      assert [s[0]] + s[1..] == s;
    }
  }

  /** A string opening with a tag loses the whole tag, up to the first `>`. */
  lemma StripTagsAtTag(t: string, v: string)
    requires '>' !in t
    ensures StripTags(['<'] + t + ['>'] + v) == StripTags(v)
  {
    var s := ['<'] + t + ['>'] + v;
    var rest := s[1..];
    assert rest == t + ['>'] + v;
    assert rest[|t|] == '>';
    assert forall j :: 0 <= j < |t| ==> rest[j] == t[j];
    assert IndexOf(rest, '>') == |t|;
    assert s[|t| + 2..] == v;
  }

  /** A character other than `<` at the front is kept. */
  lemma StripTagsOrdinary(c: char, w: string)
    requires c != '<'
    ensures StripTags([c] + w) == [c] + StripTags(w)
  {
    assert ([c] + w)[1..] == w;
  }

  /** Text in front of the first `<` is kept as it is. */
  lemma {:induction false} StripTagsKeepsPrefix(u: string, w: string)
    requires '<' !in u
    ensures StripTags(u + w) == u + StripTags(w)
    decreases |u|
  {
    if u == [] {
      assert u + w == w;
    } else {
      var c, rest := u[0], u[1..];
      assert '<' !in rest by {
        assert forall x :: x in rest ==> x in u;
      }
      calc {
        StripTags(u + w);
        { assert u + w == [c] + (rest + w); }
        StripTags([c] + (rest + w));
        { StripTagsOrdinary(c, rest + w); }
        [c] + StripTags(rest + w);
        { StripTagsKeepsPrefix(rest, w); }
        [c] + (rest + StripTags(w));
        { assert [c] + rest == u; }
        u + StripTags(w);
      }
    }
  }

  /** A tag at the first `<` is removed whole and the text in front of it is
      kept as it is; the stripping then carries on after the tag's `>`. */
  lemma StripTagsDropsFirstTag(u: string, t: string, v: string)
    requires '<' !in u && '>' !in t
    ensures StripTags(u + ['<'] + t + ['>'] + v) == u + StripTags(v)
  {
    var tagged := ['<'] + t + ['>'] + v;
    assert u + ['<'] + t + ['>'] + v == u + tagged;
    StripTagsKeepsPrefix(u, tagged);
    StripTagsAtTag(t, v);
  }

  /** Stripping twice strips nothing more. */
  lemma StripTagsIdempotent(s: string)
    ensures StripTags(StripTags(s)) == StripTags(s)
  {
    StripTagsIsTagFree(s);
    StripTagsKeepsTagFree(StripTags(s));
  }

  /** The `text` part handed to the provider: `textContent || stripped html`. */
  function EmailText(html: string, textContent: Option<string>): (text: string)
    ensures textContent.Some? && textContent.value != "" ==> text == textContent.value
    ensures (textContent.None? || textContent.value == "") ==> text == StripTags(html) && TagFree(text)
  {
    StripTagsIsTagFree(html);
    OrDefault(textContent, StripTags(html))
  }

  // ---------------------------------------------------------------------
  // Gateways and dispatch.
  // ---------------------------------------------------------------------

  /** How the WhatsApp HTTP request ended: with a response status, or by
      throwing (network error, or a status the HTTP client rejects). */
  datatype HttpOutcome = Responded(status: int) | Threw

  /** How the email provider call ended: it returned, or it threw. */
  datatype ProviderOutcome = Returned | Raised

  /** One call made to a gateway. */
  datatype Outbound =
    | WhatsAppPost(to: Value, message: Rendered)
    | EmailSend(to: Value, subject: string, html: Rendered)

  /** The environment settings the dispatcher reads. */
  datatype Env = Env(adminPhone: Option<string>, adminEmail: Option<string>)

  datatype CustomerResults = CustomerResults(whatsapp: bool, email: bool)
  datatype AdminResults = AdminResults(admin: bool, adminEmail: bool)
  datatype NotificationResults = NotificationResults(whatsapp: bool, email: bool, admin: bool, adminEmail: bool)

  /** The gateways' answers to the four calls, in the order they are made. */
  datatype GatewayOutcomes = GatewayOutcomes(
    customerWhatsApp: HttpOutcome,
    customerEmail: ProviderOutcome,
    adminWhatsApp: HttpOutcome,
    adminEmail: ProviderOutcome)

  /** `process.env.ADMIN_PHONE || '+919876543210'` */
  function AdminPhone(env: Env): (phone: string)
    ensures env.adminPhone.Some? && env.adminPhone.value != "" ==> phone == env.adminPhone.value
    ensures env.adminPhone.None? || env.adminPhone.value == "" ==> phone == DefaultAdminPhone
  {
    OrDefault(env.adminPhone, DefaultAdminPhone)
  }

  /** `process.env.ADMIN_EMAIL || 'admin@pathlabconnect.com'` */
  function AdminEmail(env: Env): (email: string)
    ensures env.adminEmail.Some? && env.adminEmail.value != "" ==> email == env.adminEmail.value
    ensures env.adminEmail.None? || env.adminEmail.value == "" ==> email == DefaultAdminEmail
  {
    OrDefault(env.adminEmail, DefaultAdminEmail)
  }

  /** `sendWhatsAppMessage(recipientPhone, message)`: posts the message and
      succeeds exactly when the endpoint answers with status 200. */
  method SendWhatsAppMessage(recipientPhone: Value, message: Rendered, outcome: HttpOutcome)
    returns (ok: bool, call: Outbound)
    ensures call == WhatsAppPost(recipientPhone, message)
    ensures outcome.Threw? ==> !ok
    ensures outcome.Responded? ==> (ok <==> outcome.status == 200)
  {
    call := WhatsAppPost(recipientPhone, message);
    match outcome {
      case Threw => ok := false;
      case Responded(status) =>
        ok := status == 200;
    }
  }

  /** `sendEmail(recipientEmail, subject, html)`: hands the mail to the
      provider and succeeds exactly when that call does not throw. */
  method SendEmail(recipientEmail: Value, subject: string, html: Rendered, outcome: ProviderOutcome)
    returns (ok: bool, call: Outbound)
    ensures call == EmailSend(recipientEmail, subject, html)
    ensures ok <==> outcome.Returned?
  {
    call := EmailSend(recipientEmail, subject, html);
    match outcome {
      case Raised => ok := false;
      case Returned => ok := true;
    }
  }

  /** `sendCustomerNotifications(messageData)`: WhatsApp then email, both
      addressed from the request as it stands, each flag set by its own call. */
  method SendCustomerNotifications(d: BookingRequest, whatsAppOutcome: HttpOutcome, emailOutcome: ProviderOutcome)
    returns (results: CustomerResults, calls: seq<Outbound>)
    ensures calls == [
      WhatsAppPost(d.customerPhone, GenerateCustomerWhatsAppMessage(d)),
      EmailSend(d.customerEmail, CustomerSubject(d), GenerateCustomerEmailTemplate(d))]
    ensures results.whatsapp <==> whatsAppOutcome == Responded(200)
    ensures results.email <==> emailOutcome.Returned?
  {
    results := CustomerResults(false, false);
    var whatsappMessage := GenerateCustomerWhatsAppMessage(d);
    var sent, call := SendWhatsAppMessage(d.customerPhone, whatsappMessage, whatsAppOutcome);
    results := results.(whatsapp := sent);
    calls := [call];

    var emailHtml := GenerateCustomerEmailTemplate(d);
    var subject := CustomerSubject(d);
    sent, call := SendEmail(d.customerEmail, subject, emailHtml, emailOutcome);
    results := results.(email := sent);
    calls := calls + [call];
  }

  /** `sendAdminNotifications(messageData)`: WhatsApp then email to the
      configured (or default) admin destinations. */
  method SendAdminNotifications(d: BookingRequest, env: Env, whatsAppOutcome: HttpOutcome, emailOutcome: ProviderOutcome)
    returns (results: AdminResults, calls: seq<Outbound>)
    ensures calls == [
      WhatsAppPost(Str(AdminPhone(env)), GenerateAdminWhatsAppMessage(d)),
      EmailSend(Str(AdminEmail(env)), AdminSubject(d), GenerateAdminEmailTemplate(d))]
    ensures results.admin <==> whatsAppOutcome == Responded(200)
    ensures results.adminEmail <==> emailOutcome.Returned?
  {
    var adminPhone := AdminPhone(env);
    var adminEmail := AdminEmail(env);
    results := AdminResults(false, false);

    var message := GenerateAdminWhatsAppMessage(d);
    var sent, call := SendWhatsAppMessage(Str(adminPhone), message, whatsAppOutcome);
    results := results.(admin := sent);
    calls := [call];

    var html := GenerateAdminEmailTemplate(d);
    var subject := AdminSubject(d);
    sent, call := SendEmail(Str(adminEmail), subject, html, emailOutcome);
    results := results.(adminEmail := sent);
    calls := calls + [call];
  }

  /** `processBookingNotifications(messageData)`: all four channels are tried
      in order and each flag reflects only its own call. A `null`
      `messageData` (`None`) makes the first template throw before anything is
      sent, and the catch answers with four false flags. */
  method ProcessBookingNotifications(messageData: Option<BookingRequest>, env: Env, outcomes: GatewayOutcomes)
    returns (results: NotificationResults, calls: seq<Outbound>)
    ensures messageData.None? ==> results == NotificationResults(false, false, false, false) && calls == []
    ensures messageData.Some? ==>
      var d := messageData.value;
      && calls == [
           WhatsAppPost(d.customerPhone, GenerateCustomerWhatsAppMessage(d)),
           EmailSend(d.customerEmail, CustomerSubject(d), GenerateCustomerEmailTemplate(d)),
           WhatsAppPost(Str(AdminPhone(env)), GenerateAdminWhatsAppMessage(d)),
           EmailSend(Str(AdminEmail(env)), AdminSubject(d), GenerateAdminEmailTemplate(d))]
      && (results.whatsapp <==> outcomes.customerWhatsApp == Responded(200))
      && (results.email <==> outcomes.customerEmail.Returned?)
      && (results.admin <==> outcomes.adminWhatsApp == Responded(200))
      && (results.adminEmail <==> outcomes.adminEmail.Returned?)
  {
    if messageData.None? {
      // property access on null throws inside the try block
      return NotificationResults(false, false, false, false), [];
    }
    var d := messageData.value;
    var customerResults, customerCalls := SendCustomerNotifications(d, outcomes.customerWhatsApp, outcomes.customerEmail);
    var adminResults, adminCalls := SendAdminNotifications(d, env, outcomes.adminWhatsApp, outcomes.adminEmail);
    results := NotificationResults(
      customerResults.whatsapp,
      customerResults.email,
      adminResults.admin,
      adminResults.adminEmail);
    calls := customerCalls + adminCalls;
  }
}
