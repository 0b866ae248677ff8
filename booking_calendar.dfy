/**
 * The booking form of the client: which calendar days are blocked (from the ranges
 * the server publishes), the class name a blocked day is drawn with, the form's own
 * field validation, the phone input's sanitiser, and the gate that lets a submission
 * through only when validation found nothing.
 *
 * Dates and times are day and minute numbers; `parseISO` and `format` are parameters.
 */
module BookingCalendar {
  import opened Wrappers
  import opened Text
  import opened JsNumber
  import opened BookingModel
  import opened BookingSchema
  import opened BookingController

  // ---------------------------------------------------------------------------------
  // Blocked days

  /** The range contains `day`, both ends included, once both of its dates parse. */
  predicate Covers(r: BlockedRange, day: int, parseIso: string -> Option<int>) {
    var from := parseIso(r.fromDate);
    var to := parseIso(r.toDate);
    from.Some? && to.Some? && from.value <= day <= to.value
  }

  /** `ranges.some(range => …)`. */
  function AnyCovers(ranges: seq<BlockedRange>, day: int, parseIso: string -> Option<int>): (b: bool)
    ensures b <==> exists i :: 0 <= i < |ranges| && Covers(ranges[i], day, parseIso)
  {
    if ranges == [] then false
    else
      assert forall i :: 1 <= i < |ranges| ==> ranges[i] == ranges[1..][i - 1];
      Covers(ranges[0], day, parseIso) || AnyCovers(ranges[1..], day, parseIso)
  }

  /** `isDateBlocked(date)`: never for a missing date or when there are no ranges;
      otherwise exactly when some range contains the day. */
  function IsDateBlocked(date: Option<int>, ranges: seq<BlockedRange>, parseIso: string -> Option<int>): (b: bool)
    ensures date.None? || ranges == [] ==> !b
    ensures date.Some? ==> (b <==> exists i :: 0 <= i < |ranges| && Covers(ranges[i], date.value, parseIso))
  {
    date.Some? && AnyCovers(ranges, date.value, parseIso)
  }

  const BlockedClass := "blocked-date"

  /** `getDayClassName(date)`: "blocked-date" exactly for a blocked date, null otherwise. */
  function DayClassName(date: Option<int>, ranges: seq<BlockedRange>, parseIso: string -> Option<int>): (c: Option<string>)
    ensures c == Some(BlockedClass) <==> IsDateBlocked(date, ranges, parseIso)
    ensures c.None? <==> !IsDateBlocked(date, ranges, parseIso)
  {
    if IsDateBlocked(date, ranges, parseIso) then Some(BlockedClass) else None
  }

  /** A confirmed booking occupies `day`. */
  predicate Occupied(store: seq<Booking>, day: int) {
    exists i :: 0 <= i < |store| && store[i].status == Confirmed && store[i].fromDate <= day <= store[i].toDate
  }

  /** With the ranges the server publishes, and `parseISO` reading back what the server
      rendered, the client blocks a day exactly when some confirmed booking occupies
      it. */
  lemma ClientBlocksExactlyConfirmedDays(
    store: seq<Booking>, render: int -> string, parseIso: string -> Option<int>, day: int)
    requires forall d :: parseIso(render(d)) == Some(d)
    ensures IsDateBlocked(Some(day), GetBlockedDates(store, render), parseIso) <==> Occupied(store, day)
  {
    if IsDateBlocked(Some(day), GetBlockedDates(store, render), parseIso) {
      BlockedDayIsOccupied(store, render, parseIso, day);
    }
    if Occupied(store, day) {
      OccupiedDayIsBlocked(store, render, parseIso, day);
    }
  }

  lemma BlockedDayIsOccupied(
    store: seq<Booking>, render: int -> string, parseIso: string -> Option<int>, day: int)
    requires forall d :: parseIso(render(d)) == Some(d)
    requires IsDateBlocked(Some(day), GetBlockedDates(store, render), parseIso)
    ensures Occupied(store, day)
  {
    var ranges := GetBlockedDates(store, render);
    var days := BlockedDays(store);
    var k :| 0 <= k < |ranges| && Covers(ranges[k], day, parseIso);
    assert |days| == |ranges| by {
      assert |days| == |multiset(days)| == |multiset(ConfirmedRanges(store))|;
    }
    var from: int, to: int := days[k].from, days[k].to;
    assert ranges[k] == BlockedRange(render(from), render(to));
    assert parseIso(render(from)) == Some(from) && parseIso(render(to)) == Some(to);
    assert from <= day <= to;
    assert days[k] in multiset(ConfirmedRanges(store));
    assert days[k] in ConfirmedRanges(store);
    var i :| 0 <= i < |store| && store[i].status == Confirmed && Span(store[i]) == days[k];
  }

  lemma OccupiedDayIsBlocked(
    store: seq<Booking>, render: int -> string, parseIso: string -> Option<int>, day: int)
    requires forall d :: parseIso(render(d)) == Some(d)
    requires Occupied(store, day)
    ensures IsDateBlocked(Some(day), GetBlockedDates(store, render), parseIso)
  {
    var ranges := GetBlockedDates(store, render);
    var days := BlockedDays(store);
    var i :| 0 <= i < |store| && store[i].status == Confirmed && store[i].fromDate <= day <= store[i].toDate;
    assert Span(store[i]) in ConfirmedRanges(store);
    assert Span(store[i]) in multiset(days);
    var k :| 0 <= k < |days| && days[k] == Span(store[i]);
    assert |days| == |ranges| by {
      assert |days| == |multiset(days)| == |multiset(ConfirmedRanges(store))|;
    }
    var from: int, to: int := days[k].from, days[k].to;
    assert ranges[k] == BlockedRange(render(from), render(to));
    assert parseIso(render(from)) == Some(from) && parseIso(render(to)) == Some(to);
    assert Covers(ranges[k], day, parseIso);
  }

  // ---------------------------------------------------------------------------------
  // Form validation

  /** The form's state; dates are day numbers and times minute numbers, `None` while
      nothing is picked. */
  datatype FormData = FormData(
    name: string,
    email: string,
    phone: string,
    eventType: string,
    guests: string,
    fromDate: Option<int>,
    toDate: Option<int>,
    checkIn: Option<int>,
    checkOut: Option<int>,
    message: string)

  const EmptyForm := FormData("", "", "", "", "", None, None, None, None, "")

  const ToBeforeFromMessage := "To Date cannot be before From Date"

  /** One or more characters, none of them white space or `@`. */
  predicate PlainPart(s: string) {
    |s| > 0 && forall k :: 0 <= k < |s| ==> !IsSpace(s[k]) && s[k] != '@'
  }

  /** The pattern `/^[^\s@]+@[^\s@]+\.[^\s@]+$/`: an address it matches has at least
      five characters and starts with neither white space nor `@`. */
  predicate EmailShape(s: string)
    ensures EmailShape(s) ==> |s| >= 5 && !IsSpace(s[0]) && s[0] != '@'
  {
    exists at, dot | 0 < at < dot < |s| - 1 ::
      s[at] == '@' && s[dot] == '.'
      && PlainPart(s[..at]) && PlainPart(s[at + 1..dot]) && PlainPart(s[dot + 1..])
  }

  /** An address of the form's shape has no white space and exactly one `@`. */
  lemma EmailShapeOneAt(s: string)
    requires EmailShape(s)
    ensures forall k :: 0 <= k < |s| ==> !IsSpace(s[k])
    ensures forall k, l :: 0 <= k < |s| && 0 <= l < |s| && s[k] == '@' && s[l] == '@' ==> k == l
  {
    var at, dot :| 0 < at < dot < |s| - 1 && s[at] == '@' && s[dot] == '.'
      && PlainPart(s[..at]) && PlainPart(s[at + 1..dot]) && PlainPart(s[dot + 1..]);
    forall k | 0 <= k < |s| && k != at
      ensures !IsSpace(s[k]) && s[k] != '@'
    {
      PlainOutsideAt(s, at, dot, k);
    }
  }

  /** Every character of a matched address other than its `@` comes from one of the
      three plain parts. */
  lemma PlainOutsideAt(s: string, at: int, dot: int, k: int)
    requires 0 < at < dot < |s| - 1 && s[dot] == '.'
    requires PlainPart(s[..at]) && PlainPart(s[at + 1..dot]) && PlainPart(s[dot + 1..])
    requires 0 <= k < |s| && k != at
    ensures !IsSpace(s[k]) && s[k] != '@'
  {
    if k < at {
      assert s[k] == s[..at][k];
    } else if k < dot {
      assert s[k] == s[at + 1..dot][k - at - 1];
    } else if k > dot {
      assert s[k] == s[dot + 1..][k - dot - 1];
    }
  }

  /** `/^\d{10}$/`. */
  predicate PhoneShape(s: string) {
    |s| == PhoneLength && AllDigits(s)
  }

  /** `!guests || isNaN(guests) || parseInt(guests) <= 0`, the guest rule as written
      (NaN compares false). Empty text is rejected, and a count written with decimal
      digits only is rejected exactly when its value is zero. */
  function GuestsRejected(g: string): (rejected: bool)
    ensures g == [] ==> rejected
    ensures IsDigits(g) ==> (rejected <==> ValueOf(g, 10) == 0)
  {
    DigitStringConverts(g);
    g == [] || IsNaNText(g) || (ParseInt(g).Some? && ParseInt(g).value <= 0)
  }

  /** The text ".5e1" is a number to `isNaN` (it is 5) but has no leading digit for
      `parseInt`, so the guest rule as written lets it through, the request carries
      the guest count as JSON null, and the server's schema refuses it. */
  lemma DecimalGuestCountSlipsThrough(f: FormData, p: Parsers, formatDay: int -> string, formatTime: int -> string)
    requires f.guests == ".5e1"
    requires f.fromDate.Some? && f.toDate.Some? && f.checkIn.Some? && f.checkOut.Some?
    ensures !GuestsRejected(f.guests)
    ensures GuestsValue(ParseInt(f.guests)) == Other("null")
    ensures SafeParse(Payload(f, formatDay, formatTime), p).Err?
  {
    var s := f.guests;
    PointFiveEOneIsNumeric(s);
    PointFiveEOneHasNoLeadingDigit(s);
    assert !Admissible(Payload(f, formatDay, formatTime), p);
  }

  lemma PointFiveEOneIsNumeric(s: string)
    requires s == ".5e1"
    ensures !IsNaNText(s)
  {
    TrimKeepsUnspacedEnds(s);
    PointFiveEOneIsDecimal(s);
    UnsignedIsNumeric(s);
  }

  lemma PointFiveEOneIsDecimal(s: string)
    requires s == ".5e1"
    ensures UnsignedDecimal(s)
  {
    assert ExponentStart(s) == 2 by {
      assert ExponentStart(s[2..]) == 0;
      assert s[1..][1..] == s[2..];
      assert ExponentStart(s[1..]) == 1;
    }
    assert Mantissa(s[..2]) by {
      assert RadixPrefix(s[..2], 10) == 0;
      assert s[..2][1..] == "5";
    }
    assert SignedDigits(s[3..]) by {
      assert s[3..] == "1";
    }
    assert |s| != |"Infinity"|;
  }

  lemma PointFiveEOneHasNoLeadingDigit(s: string)
    requires s == ".5e1"
    ensures ParseInt(s).None?
  {
    assert TrimStart(s) == s;
    assert RadixPrefix(s, 10) == 0;
  }

  /** The guest rule as evidently intended: it also rejects text that `parseInt` turns
      into NaN, so a count it accepts travels as a positive number. It agrees with the
      rule as written on counts written with digits only. */
  function GuestsInvalid(g: string): (invalid: bool)
    ensures GuestsRejected(g) ==> invalid
    ensures !invalid ==> ParseInt(g).Some? && ParseInt(g).value > 0
    ensures IsDigits(g) ==> (invalid <==> ValueOf(g, 10) == 0)
  {
    DigitStringConverts(g);
    GuestsRejected(g) || ParseInt(g).None?
  }

  /** Every rule of the form holds, the guest rule as written. */
  predicate FormOk(f: FormData) {
    && Trim(f.name) != []
    && EmailShape(f.email)
    && PhoneShape(f.phone)
    && f.eventType != []
    && !GuestsRejected(f.guests)
    && f.fromDate.Some? && f.toDate.Some? && f.fromDate.value <= f.toDate.value
    && f.checkIn.Some? && f.checkOut.Some?
  }

  /** The fields the form can report an error for. */
  datatype Field = Name | Email | Phone | EventType | Guests | FromDate | ToDate | CheckIn | CheckOut

  /** The outcome of each of the form's rules: `true` where the rule fails. */
  datatype Faults = Faults(
    name: bool, email: bool, phone: bool, eventType: bool, guests: bool,
    fromDate: bool, toDate: bool, reversed: bool, checkIn: bool, checkOut: bool)

  predicate NoFault(c: Faults) {
    !c.name && !c.email && !c.phone && !c.eventType && !c.guests
    && !c.fromDate && !c.toDate && !c.reversed && !c.checkIn && !c.checkOut
  }

  function FaultsOf(f: FormData): Faults {
    Faults(
      Trim(f.name) == [], !EmailShape(f.email), !PhoneShape(f.phone), f.eventType == [],
      GuestsRejected(f.guests), f.fromDate.None?, f.toDate.None?,
      f.fromDate.Some? && f.toDate.Some? && f.fromDate.value > f.toDate.value,
      f.checkIn.None?, f.checkOut.None?)
  }

  const AllFields := {Name, Email, Phone, EventType, Guests, FromDate, ToDate, CheckIn, CheckOut}

  /** Whether the form reports an error for `k`: `toDate` both when it is missing and
      when the dates run backwards. */
  predicate Fails(c: Faults, k: Field) {
    match k
    case Name => c.name
    case Email => c.email
    case Phone => c.phone
    case EventType => c.eventType
    case Guests => c.guests
    case FromDate => c.fromDate
    case ToDate => c.toDate || c.reversed
    case CheckIn => c.checkIn
    case CheckOut => c.checkOut
  }

  /** The message for `k`; the range message, checked after the missing-date one,
      replaces it. */
  function Message(c: Faults, k: Field): string {
    match k
    case Name => "Name is required"
    case Email => "Valid email required"
    case Phone => "Enter a valid 10-digit phone number"
    case EventType => "Select an event type"
    case Guests => "Enter a valid number of guests"
    case FromDate => "From date required"
    case ToDate => if c.reversed then ToBeforeFromMessage else "To date required"
    case CheckIn => "Check-in time required"
    case CheckOut => "Check-out time required"
  }

  /** The error messages of the failing rules: nothing is reported exactly when nothing
      fails, and the range message is on `toDate` exactly when the dates run
      backwards. */
  function Errors(c: Faults): (e: map<Field, string>)
    ensures forall k :: k in e <==> Fails(c, k)
    ensures e == map[] <==> NoFault(c)
    ensures (ToDate in e && e[ToDate] == ToBeforeFromMessage) <==> c.reversed
  {
    var e := map k | k in AllFields && Fails(c, k) :: Message(c, k);
    assert e == map[] <==> NoFault(c) by {
      if NoFault(c) {
        assert e.Keys == {};
      } else {
        var k :| k in AllFields && Fails(c, k);
        assert k in e;
      }
    }
    e
  }

  /** `validate()`: no error at all exactly when every rule holds, and the range error
      is on `toDate` exactly when both dates are picked and run backwards. */
  function Validate(f: FormData): (e: map<Field, string>)
    ensures e == map[] <==> FormOk(f)
    ensures (ToDate in e && e[ToDate] == ToBeforeFromMessage)
      <==> (f.fromDate.Some? && f.toDate.Some? && f.fromDate.value > f.toDate.value)
  {
    FaultsOfFormOk(f);
    Errors(FaultsOf(f))
  }

  lemma FaultsOfFormOk(f: FormData)
    ensures NoFault(FaultsOf(f)) <==> FormOk(f)
    ensures FaultsOf(f).reversed <==> f.fromDate.Some? && f.toDate.Some? && f.fromDate.value > f.toDate.value
  {
  }

  /** The rules' outcomes with the corrected guest rule in place of the one as
      written. */
  function IntendedFaultsOf(f: FormData): Faults {
    FaultsOf(f).(guests := GuestsInvalid(f.guests))
  }

  /** `validate()` as evidently intended, with the corrected guest rule: it reports
      the errors `validate()` reports and a guest error exactly when the corrected rule
      fails, and on a form `validate()` passes it adds an error exactly when `parseInt`
      turns the count into NaN. */
  function ValidateIntended(f: FormData): (e: map<Field, string>)
    ensures e == map[] <==> FormOk(f) && !GuestsInvalid(f.guests)
    ensures forall k :: k in e <==> k in Validate(f) || (k == Guests && GuestsInvalid(f.guests))
    ensures Validate(f) == map[] ==> (e == map[] <==> ParseInt(f.guests).Some?)
  {
    IntendedNoFault(f);
    IntendedErrors(f);
    Errors(IntendedFaultsOf(f))
  }

  /** On a guest count written with digits only, the corrected validation reports the
      same errors, with the same messages, as `validate()`. */
  lemma IntendedAgreesOnDigits(f: FormData)
    requires IsDigits(f.guests)
    ensures ValidateIntended(f) == Validate(f)
  {
    IntendedNoFault(f);
  }

  /** The corrected rules all hold exactly when the rules as written hold and the
      corrected guest rule does too; on counts written with digits only, the two sets of
      outcomes are the same. */
  lemma IntendedNoFault(f: FormData)
    ensures NoFault(IntendedFaultsOf(f)) <==> FormOk(f) && !GuestsInvalid(f.guests)
    ensures IsDigits(f.guests) ==> IntendedFaultsOf(f) == FaultsOf(f)
  {
    FaultsOfFormOk(f);
  }

  /** Field by field, the corrected rules fail where the rules as written fail, and on
      the guest count where the corrected guest rule fails. */
  lemma IntendedErrors(f: FormData)
    ensures forall k :: k in Errors(IntendedFaultsOf(f)) <==>
      k in Validate(f) || (k == Guests && GuestsInvalid(f.guests))
  {
    forall k
      ensures k in Errors(IntendedFaultsOf(f)) <==>
        k in Validate(f) || (k == Guests && GuestsInvalid(f.guests))
    {
      IntendedFails(f, k);
      assert k in Validate(f) <==> Fails(FaultsOf(f), k);
    }
  }

  lemma IntendedFails(f: FormData, k: Field)
    ensures Fails(IntendedFaultsOf(f), k) <==> Fails(FaultsOf(f), k) || (k == Guests && GuestsInvalid(f.guests))
  {
  }

  /** The guest count as JSON: the number, or null for NaN. */
  function GuestsValue(n: Option<int>): Value {
    match n
    case Some(v) => Num(v as real)
    case None => Other("null")
  }

  /** The body the form sends: the form's fields, the guest count through `parseInt`
      (NaN travels as JSON null), dates through `formatDay` ("yyyy-MM-dd") and times
      through `formatTime` ("HH:mm"). */
  function Payload(f: FormData, formatDay: int -> string, formatTime: int -> string): (b: Body)
    requires f.fromDate.Some? && f.toDate.Some? && f.checkIn.Some? && f.checkOut.Some?
    ensures b.name == Str(f.name) && b.email == Str(f.email) && b.phone == Str(f.phone)
    ensures b.eventType == Str(f.eventType) && b.message == Str(f.message)
    ensures ParseInt(f.guests).Some? ==> b.guests == Num(ParseInt(f.guests).value as real)
    ensures ParseInt(f.guests).None? ==> b.guests == Other("null")
    ensures b.fromDate == Str(formatDay(f.fromDate.value)) && b.toDate == Str(formatDay(f.toDate.value))
    ensures b.checkIn == Str(formatTime(f.checkIn.value)) && b.checkOut == Str(formatTime(f.checkOut.value))
  {
    PayloadWith(f, ParseInt(f.guests), formatDay, formatTime)
  }

  /** The body with the guest count already converted. */
  function PayloadWith(f: FormData, guests: Option<int>, formatDay: int -> string, formatTime: int -> string): Body
    requires f.fromDate.Some? && f.toDate.Some? && f.checkIn.Some? && f.checkOut.Some?
  {
    Body(
      Str(f.name), Str(f.email), Str(f.phone), Str(f.eventType),
      GuestsValue(guests),
      Str(formatDay(f.fromDate.value)), Str(formatDay(f.toDate.value)),
      Str(formatTime(f.checkIn.value)), Str(formatTime(f.checkOut.value)),
      Str(f.message))
  }

  /** A form that passes validation with the corrected guest rule sends a body that
      satisfies every rule of the server's schema, provided the schema's e-mail check
      agrees with the form's, `Date.parse` reads back what `format` wrote, and times
      render to something. */
  lemma ValidFormIsAdmissible(f: FormData, p: Parsers, formatDay: int -> string, formatTime: int -> string)
    requires ValidateIntended(f) == map[]
    requires p.isEmail(f.email)
    requires forall d :: p.parseDate(formatDay(d)) == Some(d)
    requires forall t :: formatTime(t) != []
    ensures Admissible(Payload(f, formatDay, formatTime), p)
  {
    assert FormOk(f) && !GuestsInvalid(f.guests);
    assert |Trim(f.name)| <= |f.name|;
    assert !GuestsInvalid(f.guests);
    var n := ParseInt(f.guests).value;
    PayloadAdmissible(f, n, p, formatDay, formatTime);
  }

  /** The field-by-field facts behind `ValidFormIsAdmissible`. */
  lemma PayloadAdmissible(f: FormData, n: int, p: Parsers, formatDay: int -> string, formatTime: int -> string)
    requires f.name != [] && PhoneShape(f.phone) && f.eventType != []
    requires f.fromDate.Some? && f.toDate.Some? && f.fromDate.value <= f.toDate.value
    requires f.checkIn.Some? && f.checkOut.Some?
    requires p.isEmail(f.email)
    requires forall d :: p.parseDate(formatDay(d)) == Some(d)
    requires forall t :: formatTime(t) != []
    requires n > 0
    ensures Admissible(PayloadWith(f, Some(n), formatDay, formatTime), p)
  {
    var checkIn: int, checkOut: int := f.checkIn.value, f.checkOut.value;
    var inTime, outTime := formatTime(checkIn), formatTime(checkOut);
    assert inTime != [] && outTime != [];
    var from: int, to: int := f.fromDate.value, f.toDate.value;
    assert p.parseDate(formatDay(from)) == Some(from);
    assert p.parseDate(formatDay(to)) == Some(to);
    var b := PayloadWith(f, Some(n), formatDay, formatTime);
    assert b == Body(
      Str(f.name), Str(f.email), Str(f.phone), Str(f.eventType), Num(n as real),
      Str(formatDay(from)), Str(formatDay(to)), Str(inTime), Str(outTime), Str(f.message));
    assert IsInteger(n as real);
  }

  /** Under the same conditions the server's schema accepts what the form sends. */
  lemma ValidFormPassesSchema(f: FormData, p: Parsers, formatDay: int -> string, formatTime: int -> string)
    requires ValidateIntended(f) == map[]
    requires p.isEmail(f.email)
    requires forall d :: p.parseDate(formatDay(d)) == Some(d)
    requires forall t :: formatTime(t) != []
    ensures SafeParse(Payload(f, formatDay, formatTime), p).Ok?
  {
    ValidFormIsAdmissible(f, p, formatDay, formatTime);
  }

  /** With `validate()` as written, under the same conditions, what the form sends is
      admissible exactly when `parseInt` reads a number from the guest count. */
  lemma PassedFormAdmissibleIff(f: FormData, p: Parsers, formatDay: int -> string, formatTime: int -> string)
    requires Validate(f) == map[]
    requires p.isEmail(f.email)
    requires forall d :: p.parseDate(formatDay(d)) == Some(d)
    requires forall t :: formatTime(t) != []
    ensures Admissible(Payload(f, formatDay, formatTime), p) <==> ParseInt(f.guests).Some?
  {
    if ParseInt(f.guests).Some? {
      ValidFormIsAdmissible(f, p, formatDay, formatTime);
    } else {
      assert Payload(f, formatDay, formatTime).guests == Other("null");
    }
  }

  /** A form whose other fields are all valid and whose guest count is ".5e1" passes
      `validate()` as written, so `handleSubmit` sends it, and the server refuses
      it. */
  lemma DecimalGuestFormIsSent(f: FormData, p: Parsers, formatDay: int -> string, formatTime: int -> string)
    requires f.guests == ".5e1"
    requires Trim(f.name) != [] && EmailShape(f.email) && PhoneShape(f.phone) && f.eventType != []
    requires f.fromDate.Some? && f.toDate.Some? && f.fromDate.value <= f.toDate.value
    requires f.checkIn.Some? && f.checkOut.Some?
    ensures Validate(f) == map[]
    ensures ValidateIntended(f).Keys == {Guests}
    ensures SafeParse(Payload(f, formatDay, formatTime), p).Err?
  {
    DecimalGuestCountSlipsThrough(f, p, formatDay, formatTime);
    PointFiveEOneHasNoLeadingDigit(f.guests);
    assert FormOk(f);
    OnlyGuestsFail(f);
  }

  /** A form that passes `validate()` but fails the corrected guest rule gets exactly
      the guest error from the corrected validation. */
  lemma OnlyGuestsFail(f: FormData)
    requires FormOk(f) && GuestsInvalid(f.guests)
    ensures Validate(f) == map[]
    ensures ValidateIntended(f).Keys == {Guests}
  {
    assert Validate(f) == map[];
    OnlyGuestsKey(ValidateIntended(f), Validate(f));
  }

  lemma OnlyGuestsKey(e: map<Field, string>, v: map<Field, string>)
    requires v == map[]
    requires forall k :: k in e <==> k in v || k == Guests
    ensures e.Keys == {Guests}
  {
    assert forall k :: k in e.Keys <==> k in {Guests};
  }

  /** The form's state. */
  class BookingForm {
    var formData: FormData
    var errors: map<Field, string>

    constructor ()
      ensures formData == EmptyForm && errors == map[]
    {
      formData := EmptyForm;
      errors := map[];
    }

    /** The phone input's change handler: only the sanitised value is kept. */
    method OnPhoneInput(value: string)
      modifies this
      ensures formData == old(formData).(phone := SanitizePhone(value))
      ensures errors == old(errors)
    {
      formData := formData.(phone := SanitizePhone(value));
    }

    /** `handleSubmit` up to the request: with any error the errors are shown and
        nothing is sent; with none the payload is built from the form. */
    method HandleSubmit(formatDay: int -> string, formatTime: int -> string) returns (sent: Option<Body>)
      modifies this
      ensures formData == old(formData)
      ensures Validate(old(formData)) != map[] ==> sent.None? && errors == Validate(old(formData))
      ensures Validate(old(formData)) == map[] ==>
        errors == old(errors) && sent == Some(Payload(formData, formatDay, formatTime))
    {
      var newErrors := Validate(formData);
      if |newErrors| > 0 {
        errors := newErrors;
        return None;
      }
      PassedFormIsComplete(formData);
      return Some(Payload(formData, formatDay, formatTime));
    }
  }

  /** A form `validate()` reports no error for has both dates and both times. */
  lemma PassedFormIsComplete(f: FormData)
    requires |Validate(f)| == 0
    ensures Validate(f) == map[]
    ensures f.fromDate.Some? && f.toDate.Some? && f.checkIn.Some? && f.checkOut.Some?
  {
  }
}
