# Lakshmi Function Hall bookings, modelled in Dafny

This project models the booking core of a small venue-booking web application.

The server side covers:

- **Request validation.** A `z.object` schema checks the submitted body.
- **The stored record.** This is the mongoose `Booking` document, with its required fields, a `status` enumeration and default values.
- **`createBooking`.** A valid request is admitted unless one of two things holds:
  - the same (lower-cased) e-mail already has a booking created within the last 24 hours;
  - a confirmed booking overlaps the requested days.

  An admitted request is stored as a confirmed record.
- **`getBlockedDates`.** It publishes the day ranges of the confirmed bookings, sorted by first day.

The client side covers:

- **Booking form.** It decides which calendar days are blocked from the published ranges and styles them. It also validates its own fields, sanitises the phone input, and submits only when validation found nothing.
- **Welcome pop-up.** It checks name then phone, and remembers a registration for the session.
- **Home-page carousel.** It moves between four images with wrap-around.

Modules:

- `Wrappers`: `Option` and `Result`.
- `Text`: JavaScript `trim`, `toLowerCase` and the phone sanitiser.
- `JsNumber`: `isNaN` and `parseInt` on strings.
- `BookingModel`: the stored record.
- `BookingSchema`: the request schema.
- `BookingController`: admission and blocked dates.
- `BookingCalendar`: the booking form.
- `PopupForm`: the welcome pop-up.
- `Home`: the carousel.

Modelling choices:

- Calendar dates are whole day numbers. The clock and `createdAt` are milliseconds.
- Library functions the code calls but does not define are parameters:
  - `Date.parse`;
  - the schema library's e-mail check;
  - `date-fns` `parseISO` and `format`;
  - `toISOString` for rendering a day.
- The outcome of the notification e-mail is a boolean parameter.
- `BookingStore.CreateBooking` performs one admission step by step on the store's `bookings` sequence. Its contract ties the response and the new store to the pure specification `Admit`. The other properties are proved about `Admit`:
  - no two confirmed bookings ever overlap;
  - records are only ever appended;
  - a second submission within a day is refused;
  - the blocked ranges grow by exactly the admitted range.
- The end-to-end lemma `ClientBlocksExactlyConfirmedDays` connects the client to the server. The client marks a day blocked exactly when a confirmed booking occupies it, provided the client's date parser reads back what the server renders.

Facts about the code that the model follows:

- Bookings are stored as confirmed when created. The `status` enumeration holds only "confirmed" and "rejected", and the server code has no step that confirms or rejects a booking.
- The rate limit is keyed on the lower-cased e-mail alone. The submitter's address is stored but not consulted, and no request skips the limit.
- A conflict is a confirmed booking whose whole-day range meets the requested days. Check-in and check-out times play no part in it.
- When the notification e-mail fails, the caller gets 500, and the record stays stored.

## Model

| member | source | states |
|---|---|---|
| Text.TrimStart | lakshmi_FH/src/components/BookingCalendar.jsx:85 | the result is a suffix of the input, everything removed is white space, and the result does not start with white space |
| Text.TrimEnd | lakshmi_FH/src/components/PopupForm.jsx:34 | the result is a prefix of the input, everything removed is white space, and the result does not end with white space |
| Text.Trim | lakshmi_FH/src/components/BookingCalendar.jsx:85 | `trim()` is a middle slice of its input with only white space before and after it, and neither starts nor ends with white space, so exactly the outer white space is removed |
| Text.TrimEmptyIffAllSpace | lakshmi_FH/src/components/PopupForm.jsx:34 | a trimmed name is empty exactly when the name is all white space (both directions) |
| Text.KeepDigits | lakshmi_FH/src/components/BookingCalendar.jsx:170 | `replace(/\D/g, "")` keeps every digit, as often as it occurs, and nothing else; the order is stated by Text.KeepDigitsAppend |
| Text.KeepDigitsOne | lakshmi_FH/src/components/BookingCalendar.jsx:170 | on one character, `replace(/\D/g, "")` keeps a digit and drops anything else |
| Text.KeepDigitsAppend | lakshmi_FH/src/components/BookingCalendar.jsx:170 | the digits of a concatenation are the digits of each part, in order, so the digits are kept in the order they were typed |
| Text.KeepDigitsOfDigits | lakshmi_FH/src/components/BookingCalendar.jsx:170 | removing non-digits from a digit string changes nothing |
| Text.SanitizePhone | lakshmi_FH/src/components/BookingCalendar.jsx:170 | the sanitised phone is only digits, at most 10 of them, a prefix of the digits typed, and all of them when there are at most 10 (the same expression is at PopupForm.jsx:125) |
| Text.SanitizePhoneIdempotent | lakshmi_FH/src/components/PopupForm.jsx:125 | sanitising twice equals sanitising once |
| Text.SanitizePhoneFixedPoints | lakshmi_FH/src/components/PopupForm.jsx:125 | the sanitiser leaves a value unchanged exactly when it is at most 10 digits |
| Text.ToLower | controllers/bookingController.js:37 | same length; every upper-case letter becomes the same letter in lower case; every other character is unchanged |
| Text.ToLowerIdempotent | controllers/bookingController.js:71 | lower-casing an e-mail that is already lower-cased changes nothing |
| Text.ToLowerEqualIff | controllers/bookingController.js:37 | two e-mails get the same rate-limit key exactly when they differ only in the case of their letters (both directions) |
| Text.Join | controllers/bookingController.js:14 | `join` starts with the first part, and its length is the parts' lengths plus one separator between each pair of neighbouring parts |
| Text.JoinAppend | controllers/bookingController.js:14 | joining one more part appends the separator and that part, so the parts appear in order with one separator between neighbours |
| JsNumber.RadixPrefix | lakshmi_FH/src/components/BookingCalendar.jsx:89 | `parseInt` reads the longest run of digits: every character in the run is a digit and the next one is not |
| JsNumber.LeadingValue | lakshmi_FH/src/components/BookingCalendar.jsx:89 | `parseInt` yields a number exactly when the text after the sign and prefix starts with a digit, and that number is never negative |
| JsNumber.ParseUnsigned | lakshmi_FH/src/components/BookingCalendar.jsx:89 | after the sign, the value is never negative, and there is one whenever the text starts with a decimal digit that does not open a hex prefix |
| JsNumber.ParseInt | lakshmi_FH/src/components/BookingCalendar.jsx:89 | `parseInt` of blank text is NaN; a negative result needs a leading minus; text that starts with a decimal digit (not a hex prefix) gives a number that is not negative |
| JsNumber.ParseIntReadsLeadingDigits | lakshmi_FH/src/components/BookingCalendar.jsx:89 | `parseInt` gives the value of the leading run of decimal digits and ignores the rest: "12abc" is 12 and "1.9" is 1 |
| JsNumber.IsNaNText | lakshmi_FH/src/components/BookingCalendar.jsx:89 | `isNaN` is false for blank text, which converts to 0, and for decimal digits surrounded by white space |
| JsNumber.DigitStringIsNumeric | lakshmi_FH/src/components/BookingCalendar.jsx:89 | `isNaN` is false for a non-empty string of decimal digits |
| JsNumber.DigitStringParses | lakshmi_FH/src/components/BookingCalendar.jsx:89 | `parseInt` of a non-empty string of decimal digits is the number the digits write |
| JsNumber.DigitStringConverts | lakshmi_FH/src/components/BookingCalendar.jsx:89 | for a string of decimal digits, `isNaN` is false and `parseInt` gives the number the digits write |
| BookingModel.ParseStatus | models/Booking.js:18-22 | a status is accepted exactly when it is "confirmed" or "rejected", and it reads back as the same text |
| BookingModel.StatusRoundTrip | models/Booking.js:20 | every enumeration value round-trips through its text |
| BookingModel.FailingPaths | models/Booking.js:4-22 | no path fails exactly when every required field is present and non-empty and the status is in the enumeration; "status" fails exactly for a status outside it |
| BookingModel.Create | models/Booking.js:3-28 | creation fails exactly when a path fails, and reports those paths; otherwise every field is copied, the status defaults to "confirmed" and `createdAt` defaults to now |
| BookingSchema.IllTypedHasIssues | validations/bookingSchema.js:3-13 | a field of the wrong type (or a missing required one) always produces an issue |
| BookingSchema.SafeParse | validations/bookingSchema.js:3-21 | the body passes exactly when every field rule and the range rule hold, and then its fields are passed on unchanged; a rejection has at least one issue |
| BookingSchema.ReversedRangeRejected | validations/bookingSchema.js:14-21 | well-typed dates that parse but run backwards are rejected with the range issue on `toDate` |
| BookingSchema.RangeIssueNotAFieldIssue | validations/bookingSchema.js:3-13 | no rule of a single field reports the range message on `toDate`: that message comes only from the cross-field refinement |
| BookingSchema.RangeIssueExactly | validations/bookingSchema.js:14-21 | the range issue is raised exactly when every field is well typed and the dates do not run forwards |
| BookingController.Admit | controllers/bookingController.js:9-118 | outcomes, first failure wins: 400 for a rejected body, with the issues' messages joined by ", "; 429 exactly when the lower-cased e-mail has a record at most 24 hours old; 409 exactly when a confirmed booking overlaps; otherwise exactly one confirmed record is appended, with 201 when the e-mail went out and 500 when it did not; 400, 409 and 429 leave the store alone |
| BookingController.ValidationMessage | controllers/bookingController.js:14 | the 400 message opens with the first issue's message, is exactly that message when there is one issue, and has room for a separator between each pair of issues |
| BookingController.ValidationMessageAppend | controllers/bookingController.js:14 | one more issue appends ", " and its message, so the messages appear in the issues' order, separated by ", " |
| BookingController.FindRecent | controllers/bookingController.js:35-39 | a record found has the e-mail and is at most 24 hours old; finding none means no such record exists |
| BookingController.FindOverlap | controllers/bookingController.js:55-59 | a record found is confirmed and meets the requested days; finding none means no confirmed record does |
| BookingController.BookingStore.CreateBooking | controllers/bookingController.js:9-118 | the response and the new store are those `Admit` specifies, and a store without overlapping confirmed bookings keeps that property |
| BookingController.AdmitKeepsNoOverlap | controllers/bookingController.js:53-82 | one admission never creates two confirmed bookings that share a day |
| BookingController.ReplayKeepsNoOverlap | controllers/bookingController.js:53-82 | after any sequence of submissions, no two confirmed bookings share a day |
| BookingController.ReplayOnlyAppends | controllers/bookingController.js:68-82 | records already stored stay, unchanged and in place, through any number of submissions |
| BookingController.SecondWithinADayIsRateLimited | controllers/bookingController.js:34-46 | after an admission, a second valid request with the same e-mail (up to case) at most 24 hours later is refused with 429, whatever its dates |
| BookingController.ConfirmedRanges | controllers/bookingController.js:126-128 | the ranges listed are exactly those of the confirmed records |
| BookingController.ConfirmedRangesAppend | controllers/bookingController.js:126-128 | appending a record adds its range exactly when it is confirmed |
| BookingController.InsertByFrom | controllers/bookingController.js:129 | inserting into a list sorted by first day keeps it sorted and adds exactly that range |
| BookingController.SortByFrom | controllers/bookingController.js:129 | the sorted list is sorted by first day and is a permutation of its input |
| BookingController.BlockedDays | controllers/bookingController.js:126-129 | the blocked ranges are a sorted permutation of the confirmed records' ranges |
| BookingController.GetBlockedDates | controllers/bookingController.js:123-141 | one published range per confirmed booking, in sorted order, both days rendered |
| BookingController.AdmitBlocksNewRange | controllers/bookingController.js:69-82 | a successful admission adds exactly the new booking's range to the blocked ranges |
| BookingCalendar.AnyCovers | lakshmi_FH/src/components/BookingCalendar.jsx:45-56 | `.some` holds exactly when some range, both of whose dates parse, contains the day with both ends included |
| BookingCalendar.IsDateBlocked | lakshmi_FH/src/components/BookingCalendar.jsx:42-62 | a missing date, or an empty range list, is never blocked; otherwise a date is blocked exactly when some range contains it |
| BookingCalendar.DayClassName | lakshmi_FH/src/components/BookingCalendar.jsx:65-70 | "blocked-date" exactly for a blocked date, and null otherwise |
| BookingCalendar.ClientBlocksExactlyConfirmedDays | lakshmi_FH/src/components/BookingCalendar.jsx:42-62 | with the ranges the server publishes, and a parser that reads back what the server renders, a day is blocked exactly when a confirmed booking occupies it |
| BookingCalendar.BlockedDayIsOccupied | lakshmi_FH/src/components/BookingCalendar.jsx:45-56 | the "blocked implies occupied" direction of the lemma above |
| BookingCalendar.OccupiedDayIsBlocked | lakshmi_FH/src/components/BookingCalendar.jsx:45-56 | the "occupied implies blocked" direction of the lemma above |
| BookingCalendar.EmailShape | lakshmi_FH/src/components/BookingCalendar.jsx:86 | an address the pattern matches has at least five characters and starts with neither white space nor `@` |
| BookingCalendar.EmailShapeOneAt | lakshmi_FH/src/components/BookingCalendar.jsx:86 | an address that matches the form's pattern has no white space and exactly one `@` |
| BookingCalendar.GuestsRejected | lakshmi_FH/src/components/BookingCalendar.jsx:89 | the guest rule as written rejects empty text, and rejects a count written in decimal digits exactly when its value is zero |
| BookingCalendar.DecimalGuestCountSlipsThrough | lakshmi_FH/src/components/BookingCalendar.jsx:89 | the guest rule as written accepts ".5e1", whose guest count then travels as JSON null and is refused by the server's schema |
| BookingCalendar.GuestsInvalid | lakshmi_FH/src/components/BookingCalendar.jsx:89 | the corrected guest rule rejects whatever the rule as written rejects, and a count it accepts has a positive `parseInt` value; on decimal digits the two rules agree |
| BookingCalendar.Errors | lakshmi_FH/src/components/BookingCalendar.jsx:84-97 | no message exactly when no rule fails; the range message sits on `toDate` exactly when the dates run backwards, replacing the missing-date message |
| BookingCalendar.Validate | lakshmi_FH/src/components/BookingCalendar.jsx:83-98 | `validate()` as written: the error map is empty exactly when every rule holds, with the guest rule as written; the range error appears exactly when both dates are present and run backwards |
| BookingCalendar.ValidateIntended | lakshmi_FH/src/components/BookingCalendar.jsx:83-98 | `validate()` with the corrected guest rule: empty exactly when every corrected rule holds; its errors are those of `validate()` plus the guest error exactly when the corrected rule fails; after `validate()` passes it adds an error exactly when `parseInt` gives NaN |
| BookingCalendar.IntendedAgreesOnDigits | lakshmi_FH/src/components/BookingCalendar.jsx:89 | on a guest count written with digits only, the corrected validation reports the same errors and messages as `validate()` |
| BookingCalendar.OnlyGuestsFail | lakshmi_FH/src/components/BookingCalendar.jsx:89 | a form that passes `validate()` but fails the corrected guest rule gets exactly the guest error from the corrected validation |
| BookingCalendar.DecimalGuestFormIsSent | lakshmi_FH/src/components/BookingCalendar.jsx:83-119 | a form with valid other fields and the guest count ".5e1" passes `validate()` as written, so `handleSubmit` sends it, and the server's schema refuses it; the corrected validation reports only the guest error |
| BookingCalendar.Payload | lakshmi_FH/src/components/BookingCalendar.jsx:110-117 | the form's text fields travel unchanged; the guest count is `parseInt`'s number, or null for NaN; dates and times are formatted |
| BookingCalendar.PayloadAdmissible | lakshmi_FH/src/components/BookingCalendar.jsx:110-117 | the field-by-field facts behind the next row |
| BookingCalendar.ValidFormIsAdmissible | lakshmi_FH/src/components/BookingCalendar.jsx:110-117 | a payload from a form that passes the corrected validation satisfies every server schema rule, given the conditions listed under "Left out" |
| BookingCalendar.ValidFormPassesSchema | lakshmi_FH/src/components/BookingCalendar.jsx:103-119 | under the same conditions, the server's schema accepts what such a form sends |
| BookingCalendar.PassedFormAdmissibleIff | lakshmi_FH/src/components/BookingCalendar.jsx:89-117 | for a form that passes `validate()` as written, under the same conditions, the payload is admissible exactly when `parseInt` reads a number from the guest count |
| BookingCalendar.BookingForm.constructor | lakshmi_FH/src/components/BookingCalendar.jsx:12-15 | the form starts empty, with no errors |
| BookingCalendar.BookingForm.OnPhoneInput | lakshmi_FH/src/components/BookingCalendar.jsx:169-170 | the phone field becomes the sanitised input; nothing else changes |
| BookingCalendar.BookingForm.HandleSubmit | lakshmi_FH/src/components/BookingCalendar.jsx:100-117 | gated on `validate()` as written: with any error, the errors are shown and nothing is sent; with none, the payload built from the form is sent (guests ".5e1" included); the form data is unchanged either way |
| PopupForm.SubmitError | lakshmi_FH/src/components/PopupForm.jsx:34-42 | the name error exactly when the trimmed name is empty, whatever the phone; otherwise the phone error exactly when the phone is not 10 characters long; otherwise none |
| PopupForm.SanitizedPhoneAccepted | lakshmi_FH/src/components/PopupForm.jsx:39-42 | after the phone sanitiser, a submission with a name passes exactly when at least ten digits were typed |
| PopupForm.Popup.constructor | lakshmi_FH/src/components/PopupForm.jsx:7-13 | the pop-up starts hidden with empty fields |
| PopupForm.Popup.OnRouteChange | lakshmi_FH/src/components/PopupForm.jsx:17-29 | the pop-up is offered exactly when the session is not registered |
| PopupForm.Popup.OnNameInput | lakshmi_FH/src/components/PopupForm.jsx:114 | the name field takes the input; nothing else changes |
| PopupForm.Popup.OnPhoneInput | lakshmi_FH/src/components/PopupForm.jsx:124-126 | the phone field becomes the sanitised input, so it holds at most 10 digits |
| PopupForm.Popup.HandleSubmit | lakshmi_FH/src/components/PopupForm.jsx:31-56 | a failing guard only sets its message; passing both sets the registered flag, clears the error and shows the thank-you pop-up, and the phone is then 10 digits |
| PopupForm.Popup.AfterSuccess | lakshmi_FH/src/components/PopupForm.jsx:50-55 | both pop-ups close and the fields empty; the registration stays |
| PopupForm.Popup.Close | lakshmi_FH/src/components/PopupForm.jsx:83-94 | dismissing hides the pop-up and changes nothing else |
| PopupForm.RegisteredStaysHidden | lakshmi_FH/src/components/PopupForm.jsx:17-28 | once registered, a route change never offers the pop-up again |
| Home.JsRemainder | lakshmi_FH/src/pages/Home.jsx:18 | JavaScript `%` takes the dividend's sign, is smaller than the divisor in size, and differs from the dividend by a multiple of the divisor |
| Home.NextSlide | lakshmi_FH/src/pages/Home.jsx:17-18 | from any non-negative index the result is an image index, one on, wrapping from the last image to the first |
| Home.PrevSlide | lakshmi_FH/src/pages/Home.jsx:20-21 | from an image index the result is an image index, one back, wrapping from the first image to the last |
| Home.SlidesInverse | lakshmi_FH/src/pages/Home.jsx:17-21 | next then previous, and previous then next, return to the same image |
| Home.RunIsNetRotation | lakshmi_FH/src/pages/Home.jsx:13-21 | after any clicks the index is the start plus the net number of forward clicks, modulo 4, and so always names an image |
| Home.FullCycle | lakshmi_FH/src/pages/Home.jsx:17-18 | pressing "next" four times returns to the starting image |

## Left out

- The notification e-mail (`sendEmail`) is a boolean parameter saying whether it went out. Its content and delivery are not modelled.
- Error logging to a file, and all console logging, are not modelled.
- HTTP and framework wiring are not modelled: routing, the `success` flag and the JSON envelope, CORS, and the database connection. Responses carry only a status code, a message and the stored record.
- The MongoDB query engine is replaced by predicates over the stored sequence. Records are handled one request at a time, so the race between the overlap query and the insert is not represented.
- Store-assigned ids are not modelled.
- `Date.parse`, `new Date`, `toISOString`, and the `date-fns` functions `parseISO`, `format` and `setHours` are parameters or are absorbed into whole day numbers. Time zones, and the time-of-day part of a date string, are not modelled.
- The schema library's e-mail check is a parameter. Its messages follow its version-3 wording.
- `isWithinInterval` is modelled on well-formed intervals. A range that runs backwards, or an unparseable date, simply contains no day, where the library may throw.
- BookingController.Admit: the branch where record creation fails because the e-mail is empty is stated only as "500 with the store unchanged", because the schema's e-mail check normally excludes it.
- Text.ToLower: only ASCII letters are lower-cased, not the full Unicode case mapping.
- BookingController.SortByFrom: ranges with equal first days keep their stored order, while the database leaves their order unspecified. The contract states only "sorted permutation", which holds either way.
- BookingCalendar.ValidFormIsAdmissible and BookingCalendar.ValidFormPassesSchema carry three extra assumptions:
  - the schema's e-mail check accepts the address;
  - `Date.parse` reads back what `format` wrote;
  - times render to non-empty text.
  They are stated for a form that passes BookingCalendar.ValidateIntended, the corrected validation. For `validate()` as written, BookingCalendar.PassedFormAdmissibleIff states what holds instead.
- BookingSchema.SafeParse: a JSON number in a request body is its exact decimal value, not the IEEE-754 double that `JSON.parse` yields. Rounding and overflow are not modelled. `1e400` becomes Infinity in JavaScript, which zod's `.int()` refuses; here it is an integer and is accepted. `2.0000000000000001` rounds to 2, which zod accepts; here it is refused as a non-integer. `1e-400` rounds to 0, which zod refuses only as not positive; here it is also a non-integer.
- JsNumber.ParseInt: the value is the exact integer its digits write. JavaScript rounds it to the nearest double above 2^53 ("9007199254740993" gives 9007199254740992), and gives Infinity from about 309 digits on. Neither the rounding nor the Infinity is modelled.
- JsNumber.ParseIntReadsLeadingDigits: states the exact value of the leading digits, so it carries the same gap as JsNumber.ParseInt above 2^53.
- JsNumber.DigitStringParses: "the number the digits write" is exact, with the same gap as JsNumber.ParseInt above 2^53.
- JsNumber.DigitStringConverts: its `parseInt` half has the same gap as JsNumber.ParseInt above 2^53. Its `isNaN` half holds for any length, since a long digit string converts to Infinity, which is not NaN.
- BookingCalendar.Payload: the guest count travels as the exact `parseInt` value, so a count above 2^53 is not rounded on its way to the server.
- Lengths are counted in characters, while JavaScript's `.length` counts UTF-16 code units. A character outside the Basic Multilingual Plane, such as an emoji, counts once here and twice in JavaScript. This affects the schema's `length(10)` on the phone and the pop-up's `phone.length` check. For five emoji typed into a raw request's phone field, the schema reports one issue (not only digits), while the model reports two (also the wrong length), so the 400 message differs. The form's sanitisers keep only ASCII digits, so the form never sends such a phone.
- The booking form's generic change handlers (`handleChange`, `handleDateChange`) are not modelled. Neither are the submission's network call, the success message, the form reset, the timed navigation, or the server-error display.
- The pop-up's timers (800 ms before showing, 2000 ms after success) are modelled as the effects they have once they fire. Session storage is the `registered` field.
- Animation, styling and navigation are not modelled, and neither are the other pages, the admin dashboard or the admin login.

## Findings

| source | as written | input that shows it | evidently intended | confidence | as-written member | corrected member |
|---|---|---|---|---|---|---|
| lakshmi_FH/src/components/BookingCalendar.jsx:89 | the guest rule rejects empty text, text `isNaN` calls NaN, and a `parseInt` value of 0 or less; a `parseInt` result of NaN compares false and passes | ".5e1" typed into the guest field (a valid HTML number equal to 5, meeting `min="1"`): `isNaN` is false, `parseInt` is NaN, so `validate` passes, the payload carries `guests: null` and the server answers 400 "Expected number, received null" | a count passes only when `parseInt` gives a positive number | not executed; reasoned from the code and the HTML number grammar | BookingCalendar.DecimalGuestFormIsSent | BookingCalendar.GuestsInvalid |
