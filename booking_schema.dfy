/**
 * The request schema a booking submission must satisfy before anything else happens:
 * per-field rules, then one cross-field rule (`toDate` not before `fromDate`).
 *
 * The schema library's semantics are modelled as follows. Every field is checked, in
 * declaration order, and every failing rule contributes an issue; a field of the wrong
 * type (or a missing required one) contributes only its type issue and stops the
 * cross-field rule from running, while a field that fails one of its checks does not.
 * Parsing a date and the library's e-mail check are parameters (`Parsers`).
 */
module BookingSchema {
  import opened Wrappers
  import opened Text

  /** A JSON value in the request body, as far as the schema can tell them apart. */
  datatype Value = Absent | Str(s: string) | Num(n: real) | Other(kind: string)

  /** The request body. */
  datatype Body = Body(
    name: Value,
    email: Value,
    phone: Value,
    eventType: Value,
    guests: Value,
    fromDate: Value,
    toDate: Value,
    checkIn: Value,
    checkOut: Value,
    message: Value)

  datatype Issue = Issue(path: string, message: string)

  /** The data of a request that passed the schema. */
  datatype Request = Request(
    name: string,
    email: string,
    phone: string,
    eventType: string,
    guests: int,
    fromDate: string,
    toDate: string,
    checkIn: string,
    checkOut: string,
    message: Option<string>)

  /** `Date.parse` (as a day number; `None` for NaN) and the library's e-mail check. */
  datatype Parsers = Parsers(parseDate: string -> Option<int>, isEmail: string -> bool)

  const RangeMessage := "To date cannot be before from date"

  function KindOf(v: Value): string {
    match v
    case Absent => "undefined"
    case Str(_) => "string"
    case Num(_) => "number"
    case Other(k) => k
  }

  /** The issue for a value of the wrong type: "Required" when it is missing. */
  function TypeIssue(path: string, expected: string, v: Value): Issue {
    if v.Absent? then Issue(path, "Required")
    else Issue(path, "Expected " + expected + ", received " + KindOf(v))
  }

  predicate IsInteger(n: real) {
    n.Floor as real == n
  }

  /** `z.string().min(1, message)`. */
  function NonEmptyText(path: string, v: Value, message: string): seq<Issue> {
    if !v.Str? then [TypeIssue(path, "string", v)]
    else if |v.s| >= 1 then []
    else [Issue(path, message)]
  }

  function EmailIssues(v: Value, p: Parsers): seq<Issue> {
    if !v.Str? then [TypeIssue("email", "string", v)]
    else if p.isEmail(v.s) then []
    else [Issue("email", "Invalid email address")]
  }

  /** `z.string().length(10, …).regex(/^\d+$/, …)`: both checks run. */
  function PhoneIssues(v: Value): seq<Issue> {
    if !v.Str? then [TypeIssue("phone", "string", v)]
    else
      (if |v.s| == 10 then [] else [Issue("phone", "Phone number must be exactly 10 digits")])
      + (if |v.s| > 0 && AllDigits(v.s) then [] else [Issue("phone", "Phone must contain only numbers")])
  }

  /** `z.number().int().positive(…)`: both checks run. */
  function GuestsIssues(v: Value): seq<Issue> {
    if !v.Num? then [TypeIssue("guests", "number", v)]
    else
      (if IsInteger(v.n) then [] else [Issue("guests", "Expected integer, received float")])
      + (if v.n > 0.0 then [] else [Issue("guests", "Guests must be a positive integer")])
  }

  /** `z.string().refine(date => !isNaN(Date.parse(date)), …)`. */
  function DateIssues(path: string, v: Value, p: Parsers, message: string): seq<Issue> {
    if !v.Str? then [TypeIssue(path, "string", v)]
    else if p.parseDate(v.s).Some? then []
    else [Issue(path, message)]
  }

  /** `z.string().optional()`. */
  function MessageIssues(v: Value): seq<Issue> {
    if v.Absent? || v.Str? then [] else [TypeIssue("message", "string", v)]
  }

  /** The issues of the ten fields, in declaration order. */
  function FieldIssues(b: Body, p: Parsers): seq<Issue> {
    NonEmptyText("name", b.name, "Name is required")
    + EmailIssues(b.email, p)
    + PhoneIssues(b.phone)
    + NonEmptyText("eventType", b.eventType, "Event type is required")
    + GuestsIssues(b.guests)
    + DateIssues("fromDate", b.fromDate, p, "Invalid from date")
    + DateIssues("toDate", b.toDate, p, "Invalid to date")
    + NonEmptyText("checkIn", b.checkIn, "Check-in time is required")
    + NonEmptyText("checkOut", b.checkOut, "Check-out time is required")
    + MessageIssues(b.message)
  }

  /** Every field has the type the schema asks for (the message may be missing). */
  predicate WellTyped(b: Body) {
    b.name.Str? && b.email.Str? && b.phone.Str? && b.eventType.Str? && b.guests.Num?
    && b.fromDate.Str? && b.toDate.Str? && b.checkIn.Str? && b.checkOut.Str?
    && (b.message.Absent? || b.message.Str?)
  }

  /** `new Date(to) >= new Date(from)`: false when either date does not parse. */
  predicate ToNotBeforeFrom(b: Body, p: Parsers)
    requires WellTyped(b)
  {
    var from := p.parseDate(b.fromDate.s);
    var to := p.parseDate(b.toDate.s);
    from.Some? && to.Some? && to.value >= from.value
  }

  /** The object-level refinement, which runs only when every field is well typed. */
  function RangeIssues(b: Body, p: Parsers): seq<Issue> {
    if WellTyped(b) && !ToNotBeforeFrom(b, p) then [Issue("toDate", RangeMessage)] else []
  }

  /** The rules a body must satisfy, stated field by field. */
  predicate Admissible(b: Body, p: Parsers) {
    && b.name.Str? && |b.name.s| > 0
    && b.email.Str? && p.isEmail(b.email.s)
    && b.phone.Str? && |b.phone.s| == 10 && AllDigits(b.phone.s)
    && b.eventType.Str? && |b.eventType.s| > 0
    && b.guests.Num? && IsInteger(b.guests.n) && b.guests.n > 0.0
    && b.fromDate.Str? && p.parseDate(b.fromDate.s).Some?
    && b.toDate.Str? && p.parseDate(b.toDate.s).Some?
    && p.parseDate(b.toDate.s).value >= p.parseDate(b.fromDate.s).value
    && b.checkIn.Str? && |b.checkIn.s| > 0
    && b.checkOut.Str? && |b.checkOut.s| > 0
    && (b.message.Absent? || b.message.Str?)
  }

  /** A field of the wrong type always yields an issue. */
  lemma IllTypedHasIssues(b: Body, p: Parsers)
    requires !WellTyped(b)
    ensures FieldIssues(b, p) != []
  {
  }

  /** `bookingSchema.safeParse(body)`: the body passes exactly when it satisfies every
      rule, and then its fields are handed on unchanged; otherwise the issues are
      reported, at least one of them. */
  function SafeParse(b: Body, p: Parsers): (r: Result<Request, seq<Issue>>)
    ensures r.Ok? <==> Admissible(b, p)
    ensures r.Err? ==> r.error != []
    ensures r.Ok? ==>
      && Str(r.value.name) == b.name && Str(r.value.email) == b.email
      && Str(r.value.phone) == b.phone && Str(r.value.eventType) == b.eventType
      && Num(r.value.guests as real) == b.guests
      && Str(r.value.fromDate) == b.fromDate && Str(r.value.toDate) == b.toDate
      && Str(r.value.checkIn) == b.checkIn && Str(r.value.checkOut) == b.checkOut
      && (if b.message.Absent? then r.value.message.None? else r.value.message == Some(b.message.s))
  {
    var issues := FieldIssues(b, p) + RangeIssues(b, p);
    if issues != [] then Err(issues)
    else
      assert WellTyped(b) by {
        if !WellTyped(b) { IllTypedHasIssues(b, p); }
      }
      Ok(Request(
        b.name.s, b.email.s, b.phone.s, b.eventType.s, b.guests.n.Floor,
        b.fromDate.s, b.toDate.s, b.checkIn.s, b.checkOut.s,
        if b.message.Absent? then None else Some(b.message.s)))
  }

  /** A well-typed body whose dates both parse but run backwards is rejected, and the
      rejection names `toDate` with the range message. */
  lemma ReversedRangeRejected(b: Body, p: Parsers)
    requires WellTyped(b)
    requires p.parseDate(b.fromDate.s).Some? && p.parseDate(b.toDate.s).Some?
    requires p.parseDate(b.toDate.s).value < p.parseDate(b.fromDate.s).value
    ensures SafeParse(b, p).Err?
    ensures Issue("toDate", RangeMessage) in SafeParse(b, p).error
  {
  }

  /** The range issue is raised exactly when every field is well typed and the dates do
      not run forwards; a body with a field of the wrong type never gets it. */
  lemma RangeIssueExactly(b: Body, p: Parsers)
    ensures Issue("toDate", RangeMessage) in FieldIssues(b, p) + RangeIssues(b, p)
            <==> WellTyped(b) && !ToNotBeforeFrom(b, p)
  {
    RangeIssueNotAFieldIssue(b, p);
  }

  /** No per-field rule ever produces the range issue. */
  lemma RangeIssueNotAFieldIssue(b: Body, p: Parsers)
    ensures Issue("toDate", RangeMessage) !in FieldIssues(b, p)
  {
    var x := Issue("toDate", RangeMessage);
    assert x !in NonEmptyText("name", b.name, "Name is required") by {
      TypeIssueIsNotRange("name", "string", b.name);
    }
    assert x !in EmailIssues(b.email, p) by {
      TypeIssueIsNotRange("email", "string", b.email);
    }
    assert x !in PhoneIssues(b.phone) by {
      TypeIssueIsNotRange("phone", "string", b.phone);
    }
    assert x !in NonEmptyText("eventType", b.eventType, "Event type is required") by {
      TypeIssueIsNotRange("eventType", "string", b.eventType);
    }
    assert x !in GuestsIssues(b.guests) by {
      TypeIssueIsNotRange("guests", "number", b.guests);
    }
    assert x !in DateIssues("fromDate", b.fromDate, p, "Invalid from date") by {
      TypeIssueIsNotRange("fromDate", "string", b.fromDate);
    }
    assert x !in DateIssues("toDate", b.toDate, p, "Invalid to date") by {
      TypeIssueIsNotRange("toDate", "string", b.toDate);
    }
    assert x !in NonEmptyText("checkIn", b.checkIn, "Check-in time is required") by {
      TypeIssueIsNotRange("checkIn", "string", b.checkIn);
    }
    assert x !in NonEmptyText("checkOut", b.checkOut, "Check-out time is required") by {
      TypeIssueIsNotRange("checkOut", "string", b.checkOut);
    }
    assert x !in MessageIssues(b.message) by {
      TypeIssueIsNotRange("message", "string", b.message);
    }
  }

  lemma TypeIssueIsNotRange(path: string, expected: string, v: Value)
    ensures TypeIssue(path, expected, v).message != RangeMessage
  {
    if !v.Absent? {
      assert TypeIssue(path, expected, v).message[0] != RangeMessage[0];
    }
  }
}
