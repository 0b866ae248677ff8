/**
 * The stored booking record: its fields, which of them the document schema requires,
 * the `status` enumeration and the two defaults (status and creation time) that the
 * schema fills in when a record is created.
 *
 * Calendar dates are whole day numbers; `createdAt` and the clock are milliseconds.
 */
module BookingModel {
  import opened Wrappers

  /** The schema's `status` enumeration. */
  datatype Status = Confirmed | Rejected

  function StatusName(s: Status): string {
    match s
    case Confirmed => "confirmed"
    case Rejected => "rejected"
  }

  /** The enumeration check: a status string is accepted exactly when it names one of
      the two values, and then it names the value it is read as. */
  function ParseStatus(text: string): (r: Option<Status>)
    ensures r.Some? <==> text == "confirmed" || text == "rejected"
    ensures r.Some? ==> StatusName(r.value) == text
  {
    if text == "confirmed" then Some(Confirmed)
    else if text == "rejected" then Some(Rejected)
    else None
  }

  /** Every status reads back as itself. */
  lemma StatusRoundTrip(s: Status)
    ensures ParseStatus(StatusName(s)) == Some(s)
  {
  }

  const DefaultStatus: Status := Confirmed

  /** A stored booking. Optional schema fields are `Option`s. */
  datatype Booking = Booking(
    name: string,
    email: string,
    phone: string,
    eventType: Option<string>,
    guests: Option<int>,
    fromDate: int,
    toDate: int,
    checkIn: string,
    checkOut: string,
    message: Option<string>,
    ip: Option<string>,
    status: Status,
    createdAt: int)

  /** The object handed to the model's `create`: any field may be left out, and the
      status is still the caller's text. */
  datatype Fields = Fields(
    name: Option<string>,
    email: Option<string>,
    phone: Option<string>,
    eventType: Option<string>,
    guests: Option<int>,
    fromDate: Option<int>,
    toDate: Option<int>,
    checkIn: Option<string>,
    checkOut: Option<string>,
    message: Option<string>,
    ip: Option<string>,
    status: Option<string>,
    createdAt: Option<int>)

  /** A required string field is present and not empty. */
  predicate RequiredText(v: Option<string>) {
    v.Some? && v.value != []
  }

  /** The paths whose validation fails, in schema order. */
  function FailingPaths(f: Fields): (paths: seq<string>)
    ensures paths == [] <==>
      RequiredText(f.name) && RequiredText(f.email) && RequiredText(f.phone)
      && f.fromDate.Some? && f.toDate.Some?
      && RequiredText(f.checkIn) && RequiredText(f.checkOut)
      && (f.status.None? || ParseStatus(f.status.value).Some?)
    ensures "status" in paths <==> f.status.Some? && ParseStatus(f.status.value).None?
  {
    (if RequiredText(f.name) then [] else ["name"])
    + (if RequiredText(f.email) then [] else ["email"])
    + (if RequiredText(f.phone) then [] else ["phone"])
    + (if f.fromDate.Some? then [] else ["fromDate"])
    + (if f.toDate.Some? then [] else ["toDate"])
    + (if RequiredText(f.checkIn) then [] else ["checkIn"])
    + (if RequiredText(f.checkOut) then [] else ["checkOut"])
    + (if f.status.None? || ParseStatus(f.status.value).Some? then [] else ["status"])
  }

  /** Creating a record: it is refused, naming the failing paths, when a required field
      is missing or empty or the status is outside the enumeration; otherwise every
      given field is stored, an absent status becomes "confirmed" and an absent
      creation time becomes `now`. */
  function Create(f: Fields, now: int): (r: Result<Booking, seq<string>>)
    ensures r.Ok? <==> FailingPaths(f) == []
    ensures r.Err? ==> r.error == FailingPaths(f) && r.error != []
    ensures r.Ok? ==> r.value.status == (if f.status.None? then DefaultStatus else ParseStatus(f.status.value).value)
    ensures r.Ok? ==> StatusName(r.value.status) in {"confirmed", "rejected"}
    ensures r.Ok? ==> r.value.createdAt == f.createdAt.GetOr(now)
    ensures r.Ok? ==>
      && Some(r.value.name) == f.name && Some(r.value.email) == f.email
      && Some(r.value.phone) == f.phone && r.value.eventType == f.eventType
      && r.value.guests == f.guests && Some(r.value.fromDate) == f.fromDate
      && Some(r.value.toDate) == f.toDate && Some(r.value.checkIn) == f.checkIn
      && Some(r.value.checkOut) == f.checkOut && r.value.message == f.message
      && r.value.ip == f.ip
  {
    var paths := FailingPaths(f);
    if paths != [] then Err(paths)
    else
      Ok(Booking(
        f.name.value, f.email.value, f.phone.value, f.eventType, f.guests,
        f.fromDate.value, f.toDate.value, f.checkIn.value, f.checkOut.value,
        f.message, f.ip,
        if f.status.None? then DefaultStatus else ParseStatus(f.status.value).value,
        f.createdAt.GetOr(now)))
  }
}
