/**
 * The booking controller: admission of a new booking (validate, rate-limit by e-mail,
 * reject overlapping dates, insert) and the public projection of blocked dates.
 *
 * The store is a sequence of records held by a `BookingStore` object; requests are
 * handled one at a time. `Admit` is the specification of one admission, and
 * `BookingStore.CreateBooking` carries it out step by step with early returns, querying
 * the store with `FindRecent` and `FindOverlap`. The clock (`now`, in milliseconds), the
 * submitter's address and the outcome of the notification e-mail are parameters.
 */
module BookingController {
  import opened Wrappers
  import opened Text
  import opened BookingModel
  import opened BookingSchema

  /** Twenty-four hours in milliseconds. */
  const DayMs: int := 24 * 60 * 60 * 1000

  const RateLimitMessage := "You can submit only once every 24 hours."
  const ConflictMessage := "These dates are already booked. Please choose different dates."
  const SavedMessage := "Booking saved & email sent successfully"
  const InternalMessage := "Internal Server Error"

  /** An HTTP status code, the response's message and, on success, the stored record. */
  datatype Response = Response(code: int, message: string, data: Option<Booking>)

  /** The 400 message: the issues' messages joined by ", ". It opens with the first
      issue's message, is exactly that message when there is one issue, and has room
      for a separator between each pair of issues. */
  function ValidationMessage(issues: seq<Issue>): (m: string)
    ensures issues != [] ==> issues[0].message <= m
    ensures |issues| == 1 ==> m == issues[0].message
    ensures |m| >= 2 * (|issues| - 1)
  {
    Join(Messages(issues), ", ")
  }

  /** The issues' messages, in order. */
  function Messages(issues: seq<Issue>): (ms: seq<string>)
    ensures |ms| == |issues|
    ensures forall i :: 0 <= i < |issues| ==> ms[i] == issues[i].message
  {
    seq(|issues|, i requires 0 <= i < |issues| => issues[i].message)
  }

  /** One more issue adds ", " and its message at the end of the 400 message, so the
      messages appear in the issues' order, separated by ", ". */
  lemma ValidationMessageAppend(issues: seq<Issue>, x: Issue)
    requires issues != []
    ensures ValidationMessage(issues + [x]) == ValidationMessage(issues) + ", " + x.message
  {
    assert Messages(issues + [x]) == Messages(issues) + [x.message];
    JoinAppend(Messages(issues), x.message, ", ");
  }

  /** A record by `email` created no more than 24 hours before `now` (the bound is
      inclusive). */
  predicate RecentFrom(b: Booking, email: string, now: int) {
    b.email == email && b.createdAt >= now - DayMs
  }

  predicate RateLimited(store: seq<Booking>, email: string, now: int) {
    exists i :: 0 <= i < |store| && RecentFrom(store[i], email, now)
  }

  /** A confirmed record whose days meet the requested days `from..to` (both ends
      inclusive). A rejected record never conflicts. */
  predicate Overlaps(b: Booking, from: int, to: int) {
    b.status == Confirmed && b.fromDate <= to && b.toDate >= from
  }

  predicate HasConflict(store: seq<Booking>, from: int, to: int) {
    exists i :: 0 <= i < |store| && Overlaps(store[i], from, to)
  }

  /** No two confirmed records of the store share a day. */
  predicate NoConfirmedOverlap(store: seq<Booking>) {
    forall i, j :: 0 <= i < |store| && 0 <= j < |store| && i != j && store[i].status == Confirmed
      ==> !Overlaps(store[j], store[i].fromDate, store[i].toDate)
  }

  /** The object the controller hands to the model's `create`. */
  function Draft(req: Request, ip: Option<string>, from: int, to: int): Fields {
    Fields(
      Some(req.name), Some(ToLower(req.email)), Some(req.phone), Some(req.eventType),
      Some(req.guests), Some(from), Some(to), Some(req.checkIn), Some(req.checkOut),
      req.message, ip, Some("confirmed"), None)
  }

  /** The record an admitted request must produce: the submitted fields, the
      lower-cased e-mail, the submitter's address, status confirmed, created now. */
  function AdmittedRecord(req: Request, ip: Option<string>, from: int, to: int, now: int): Booking {
    Booking(
      req.name, ToLower(req.email), req.phone, Some(req.eventType), Some(req.guests),
      from, to, req.checkIn, req.checkOut, req.message, ip, Confirmed, now)
  }

  /** The response and the store after one submission. */
  datatype Outcome = Outcome(response: Response, store: seq<Booking>)

  /** One admission, first failure wins: 400 for a body the schema rejects, 429 when
      the lower-cased e-mail has a record at most 24 hours old, 409 when a confirmed
      record overlaps the requested days, and otherwise exactly one new confirmed
      record is appended. The store is left alone by 400, 429 and 409. When the
      notification e-mail fails (`delivered` false) the answer is 500, yet the record
      stays stored. */
  function Admit(store: seq<Booking>, body: Body, ip: Option<string>, now: int, delivered: bool, p: Parsers): (o: Outcome)
    ensures o.response.code in {400, 409, 429} ==> o.store == store
    ensures o.store == store || (|o.store| == |store| + 1 && o.store[..|store|] == store)
    ensures (o.response.code == 400) == SafeParse(body, p).Err?
    ensures SafeParse(body, p).Err? ==> o.response.message == ValidationMessage(SafeParse(body, p).error)
    ensures SafeParse(body, p).Ok? ==>
      (o.response.code == 429 <==> RateLimited(store, ToLower(SafeParse(body, p).value.email), now))
    ensures SafeParse(body, p).Ok? ==>
      var req := SafeParse(body, p).value;
      !RateLimited(store, ToLower(req.email), now) ==>
        (o.response.code == 409 <==>
          HasConflict(store, p.parseDate(req.fromDate).value, p.parseDate(req.toDate).value))
    ensures SafeParse(body, p).Ok? ==>
      var req := SafeParse(body, p).value;
      var from := p.parseDate(req.fromDate).value;
      var to := p.parseDate(req.toDate).value;
      !RateLimited(store, ToLower(req.email), now) && !HasConflict(store, from, to) ==>
        if req.email != [] then
          && o.store == store + [AdmittedRecord(req, ip, from, to, now)]
          && o.response.code == (if delivered then 201 else 500)
          && (delivered ==> o.response.data == Some(AdmittedRecord(req, ip, from, to, now)))
        else
          o.store == store && o.response.code == 500
  {
    match SafeParse(body, p)
    case Err(issues) => Outcome(Response(400, ValidationMessage(issues), None), store)
    case Ok(req) =>
      if RateLimited(store, ToLower(req.email), now) then
        Outcome(Response(429, RateLimitMessage, None), store)
      else
        var from := p.parseDate(req.fromDate).value;
        var to := p.parseDate(req.toDate).value;
        if HasConflict(store, from, to) then
          Outcome(Response(409, ConflictMessage, None), store)
        else
          match Create(Draft(req, ip, from, to), now)
          case Err(_) => Outcome(Response(500, InternalMessage, None), store)
          case Ok(booking) =>
            if delivered then Outcome(Response(201, SavedMessage, Some(booking)), store + [booking])
            else Outcome(Response(500, InternalMessage, None), store + [booking])
  }

  /** `Booking.findOne({ email, createdAt: { $gte: now - 24h } })`. */
  method FindRecent(store: seq<Booking>, email: string, now: int) returns (found: Option<Booking>)
    ensures found.Some? ==> found.value in store && RecentFrom(found.value, email, now)
    ensures found.None? ==> !RateLimited(store, email, now)
  {
    var i := 0;
    while i < |store|
      invariant 0 <= i <= |store|
      invariant forall k :: 0 <= k < i ==> !RecentFrom(store[k], email, now)
    {
      if RecentFrom(store[i], email, now) {
        return Some(store[i]);
      }
      i := i + 1;
    }
    return None;
  }

  /** `Booking.findOne({ status: "confirmed", fromDate: { $lte: to }, toDate: { $gte: from } })`. */
  method FindOverlap(store: seq<Booking>, from: int, to: int) returns (found: Option<Booking>)
    ensures found.Some? ==> found.value in store && Overlaps(found.value, from, to)
    ensures found.None? ==> !HasConflict(store, from, to)
  {
    var i := 0;
    while i < |store|
      invariant 0 <= i <= |store|
      invariant forall k :: 0 <= k < i ==> !Overlaps(store[k], from, to)
    {
      if Overlaps(store[i], from, to) {
        return Some(store[i]);
      }
      i := i + 1;
    }
    return None;
  }

  /** The collection of booking records. */
  class BookingStore {
    var bookings: seq<Booking>

    constructor ()
      ensures bookings == []
    {
      bookings := [];
    }

    /** `createBooking`: the response and the new store are those `Admit` specifies, and
        a store without overlapping confirmed bookings stays that way. */
    method CreateBooking(body: Body, ip: Option<string>, now: int, delivered: bool, p: Parsers)
      returns (response: Response)
      modifies this
      ensures response == Admit(old(bookings), body, ip, now, delivered, p).response
      ensures bookings == Admit(old(bookings), body, ip, now, delivered, p).store
      ensures NoConfirmedOverlap(old(bookings)) ==> NoConfirmedOverlap(bookings)
    {
      if NoConfirmedOverlap(bookings) {
        AdmitKeepsNoOverlap(bookings, body, ip, now, delivered, p);
      }
      var validation := SafeParse(body, p);
      if validation.Err? {
        return Response(400, ValidationMessage(validation.error), None);
      }
      var req := validation.value;
      var email := ToLower(req.email);
      var recent := FindRecent(bookings, email, now);
      if recent.Some? {
        return Response(429, RateLimitMessage, None);
      }
      var from := p.parseDate(req.fromDate).value;
      var to := p.parseDate(req.toDate).value;
      var overlapping := FindOverlap(bookings, from, to);
      if overlapping.Some? {
        return Response(409, ConflictMessage, None);
      }
      var created := Create(Draft(req, ip, from, to), now);
      if created.Err? {
        return Response(500, InternalMessage, None);
      }
      bookings := bookings + [created.value];
      if !delivered {
        return Response(500, InternalMessage, None);
      }
      return Response(201, SavedMessage, Some(created.value));
    }
  }

  /** A store without overlapping confirmed bookings keeps that property through any
      admission, because the new confirmed range was checked against every confirmed
      one. */
  lemma AdmitKeepsNoOverlap(store: seq<Booking>, body: Body, ip: Option<string>, now: int, delivered: bool, p: Parsers)
    requires NoConfirmedOverlap(store)
    ensures NoConfirmedOverlap(Admit(store, body, ip, now, delivered, p).store)
  {
    var o := Admit(store, body, ip, now, delivered, p);
    if o.store != store {
      var req := SafeParse(body, p).value;
      var from := p.parseDate(req.fromDate).value;
      var to := p.parseDate(req.toDate).value;
      var n := |store|;
      assert o.store == store + [AdmittedRecord(req, ip, from, to, now)];
      forall i, j | 0 <= i < |o.store| && 0 <= j < |o.store| && i != j && o.store[i].status == Confirmed
        ensures !Overlaps(o.store[j], o.store[i].fromDate, o.store[i].toDate)
      {
        if i == n {
          assert !Overlaps(store[j], from, to);
        } else if j == n {
          assert !Overlaps(store[i], from, to);
        }
      }
    }
  }

  /** A submission: the body, the submitter's address, the clock, and whether the
      notification e-mail went out. */
  datatype Submission = Submission(body: Body, ip: Option<string>, now: int, delivered: bool)

  /** The store after handling `subs` one after another. */
  function Replay(store: seq<Booking>, subs: seq<Submission>, p: Parsers): seq<Booking>
    decreases |subs|
  {
    if subs == [] then store
    else
      var s := subs[0];
      Replay(Admit(store, s.body, s.ip, s.now, s.delivered, p).store, subs[1..], p)
  }

  /** However many submissions are handled, no two confirmed bookings overlap. */
  lemma {:induction false} ReplayKeepsNoOverlap(store: seq<Booking>, subs: seq<Submission>, p: Parsers)
    requires NoConfirmedOverlap(store)
    ensures NoConfirmedOverlap(Replay(store, subs, p))
    decreases |subs|
  {
    if subs != [] {
      var s := subs[0];
      AdmitKeepsNoOverlap(store, s.body, s.ip, s.now, s.delivered, p);
      ReplayKeepsNoOverlap(Admit(store, s.body, s.ip, s.now, s.delivered, p).store, subs[1..], p);
    }
  }

  /** Records are only ever appended: the records already stored stay, in place and
      unchanged, through any number of submissions. */
  lemma {:induction false} ReplayOnlyAppends(store: seq<Booking>, subs: seq<Submission>, p: Parsers)
    ensures |Replay(store, subs, p)| >= |store|
    ensures Replay(store, subs, p)[..|store|] == store
    decreases |subs|
  {
    if subs != [] {
      var s := subs[0];
      var next := Admit(store, s.body, s.ip, s.now, s.delivered, p).store;
      ReplayOnlyAppends(next, subs[1..], p);
      assert next[..|store|] == store;
      assert Replay(store, subs, p)[..|store|] == Replay(next, subs[1..], p)[..|next|][..|store|];
    }
  }

  /** Once a request has been admitted, any later request that passes the schema with
      the same e-mail (up to case) within 24 hours of it is refused with 429, whatever
      dates it asks for. */
  lemma SecondWithinADayIsRateLimited(
    store: seq<Booking>, first: Submission, second: Submission, p: Parsers)
    requires SafeParse(first.body, p).Ok? && SafeParse(second.body, p).Ok?
    requires |Admit(store, first.body, first.ip, first.now, first.delivered, p).store| > |store|
    requires ToLower(SafeParse(second.body, p).value.email) == ToLower(SafeParse(first.body, p).value.email)
    requires first.now >= second.now - DayMs
    ensures
      var after := Admit(store, first.body, first.ip, first.now, first.delivered, p).store;
      Admit(after, second.body, second.ip, second.now, second.delivered, p).response.code == 429
  {
    var after := Admit(store, first.body, first.ip, first.now, first.delivered, p).store;
    var req := SafeParse(first.body, p).value;
    assert !RateLimited(store, ToLower(req.email), first.now);
    assert after[|store|].email == ToLower(req.email) && after[|store|].createdAt == first.now;
    assert RecentFrom(after[|store|], ToLower(SafeParse(second.body, p).value.email), second.now);
  }

  // ---------------------------------------------------------------------------------
  // getBlockedDates

  /** The days a record occupies, first and last. */
  datatype DayRange = DayRange(from: int, to: int)

  function Span(b: Booking): DayRange {
    DayRange(b.fromDate, b.toDate)
  }

  /** `find({ status: "confirmed" }, { fromDate: 1, toDate: 1 })` before sorting: the
      ranges of the confirmed records, in store order. */
  function ConfirmedRanges(store: seq<Booking>): (r: seq<DayRange>)
    ensures |r| <= |store|
    ensures forall d :: d in r <==> exists i :: 0 <= i < |store| && store[i].status == Confirmed && Span(store[i]) == d
  {
    if store == [] then []
    else
      var rest := ConfirmedRanges(store[1..]);
      forall d | d in rest
        ensures exists i :: 1 <= i < |store| && store[i].status == Confirmed && Span(store[i]) == d
      {
        var i :| 0 <= i < |store[1..]| && store[1..][i].status == Confirmed && Span(store[1..][i]) == d;
        assert store[i + 1] == store[1..][i];
      }
      forall i | 1 <= i < |store| && store[i].status == Confirmed
        ensures Span(store[i]) in rest
      {
        assert store[1..][i - 1] == store[i];
      }
      (if store[0].status == Confirmed then [Span(store[0])] else []) + rest
  }

  /** Appending a record adds its range to the confirmed ranges exactly when it is
      confirmed: one entry per confirmed booking and none for the others. */
  lemma {:induction false} ConfirmedRangesAppend(store: seq<Booking>, b: Booking)
    ensures ConfirmedRanges(store + [b]) == ConfirmedRanges(store) + (if b.status == Confirmed then [Span(b)] else [])
  {
    if store == [] {
      assert store + [b] == [b];
    } else {
      var head := if store[0].status == Confirmed then [Span(store[0])] else [];
      var tail := if b.status == Confirmed then [Span(b)] else [];
      assert (store + [b])[0] == store[0];
      assert (store + [b])[1..] == store[1..] + [b];
      assert ConfirmedRanges(store + [b]) == head + ConfirmedRanges(store[1..] + [b]);
      ConfirmedRangesAppend(store[1..], b);
      assert ConfirmedRanges(store) == head + ConfirmedRanges(store[1..]);
      assert head + (ConfirmedRanges(store[1..]) + tail) == (head + ConfirmedRanges(store[1..])) + tail;
    }
  }

  predicate SortedByFrom(rs: seq<DayRange>) {
    forall i, j :: 0 <= i < j < |rs| ==> rs[i].from <= rs[j].from
  }

  /** Inserts `x` into a sequence sorted by first day, keeping it sorted. */
  function InsertByFrom(x: DayRange, rs: seq<DayRange>): (r: seq<DayRange>)
    requires SortedByFrom(rs)
    ensures SortedByFrom(r)
    ensures multiset(r) == multiset(rs) + multiset{x}
    ensures r[0] == x || (rs != [] && r[0] == rs[0])
  {
    if rs == [] || x.from <= rs[0].from then
      SortedCons(x, rs);
      [x] + rs
    else
      var rest := InsertByFrom(x, rs[1..]);
      assert rs == [rs[0]] + rs[1..];
      assert rs[0].from <= rest[0].from;
      SortedCons(rs[0], rest);
      [rs[0]] + rest
  }

  /** A range no later than the head of a sorted list can go in front of it. */
  lemma SortedCons(a: DayRange, s: seq<DayRange>)
    requires SortedByFrom(s)
    requires s == [] || a.from <= s[0].from
    ensures SortedByFrom([a] + s)
  {
    var r := [a] + s;
    forall i, j | 0 <= i < j < |r|
      ensures r[i].from <= r[j].from
    {
      if i == 0 {
        assert r[j] == s[j - 1];
      } else {
        assert r[i] == s[i - 1] && r[j] == s[j - 1];
      }
    }
  }

  /** `.sort({ fromDate: 1 })`: the same ranges, sorted by first day. */
  function SortByFrom(rs: seq<DayRange>): (r: seq<DayRange>)
    ensures SortedByFrom(r)
    ensures multiset(r) == multiset(rs)
  {
    if rs == [] then []
    else
      assert rs == [rs[0]] + rs[1..];
      InsertByFrom(rs[0], SortByFrom(rs[1..]))
  }

  /** The blocked ranges as day numbers: exactly the confirmed records' ranges, each as
      often as it occurs, sorted by first day. */
  function BlockedDays(store: seq<Booking>): (r: seq<DayRange>)
    ensures SortedByFrom(r)
    ensures multiset(r) == multiset(ConfirmedRanges(store))
  {
    SortByFrom(ConfirmedRanges(store))
  }

  /** A blocked range as the client receives it, both days rendered as `YYYY-MM-DD`. */
  datatype BlockedRange = BlockedRange(fromDate: string, toDate: string)

  /** `getBlockedDates`: the blocked ranges in order, each day rendered by `render`
      (which stands for `toISOString().split('T')[0]`). */
  function GetBlockedDates(store: seq<Booking>, render: int -> string): (r: seq<BlockedRange>)
    ensures |r| == |ConfirmedRanges(store)|
    ensures forall i :: 0 <= i < |r| ==>
      r[i] == BlockedRange(render(BlockedDays(store)[i].from), render(BlockedDays(store)[i].to))
  {
    var days := BlockedDays(store);
    assert |days| == |multiset(days)| == |ConfirmedRanges(store)|;
    seq(|days|, i requires 0 <= i < |days| => BlockedRange(render(days[i].from), render(days[i].to)))
  }

  /** A successful admission adds exactly the new booking's range to the blocked days,
      and nothing else. */
  lemma AdmitBlocksNewRange(store: seq<Booking>, body: Body, ip: Option<string>, now: int, delivered: bool, p: Parsers)
    requires |Admit(store, body, ip, now, delivered, p).store| > |store|
    ensures
      var req := SafeParse(body, p).value;
      multiset(BlockedDays(Admit(store, body, ip, now, delivered, p).store))
        == multiset(BlockedDays(store))
           + multiset{DayRange(p.parseDate(req.fromDate).value, p.parseDate(req.toDate).value)}
  {
    var req := SafeParse(body, p).value;
    var from := p.parseDate(req.fromDate).value;
    var to := p.parseDate(req.toDate).value;
    ConfirmedRangesAppend(store, AdmittedRecord(req, ip, from, to, now));
  }
}
