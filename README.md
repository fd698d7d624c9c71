# Appointment booking: calendar, wizards and selection lists

A Dafny model of the booking core of the Drupal `appointment` module.

- **Calendar.** `fullcalendar.js` and `fullcalendar-update.js` turn agency and advisor working hours into calendar events.
  - Each advisor has weekly "Advisor Indisponible" blocks where their hours fall short of the agency's.
  - In the update script, the existing bookings appear as blocks too, except the one being edited.
  - A `selectAllow` check lets through a selection that stays within one day and within a business-hours rule.
- **Add wizard.** `AppointmentAddForm.php` is a seven-step wizard kept in a private temp store (a `step` and a `values` map).
  - Steps 1–3 choose an agency, an appointment type and an advisor.
  - Step 4 picks the slot and step 5 takes the customer details.
  - Step 6 confirms and saves a pending appointment. Step 7 shows success and resets the wizard.
  - `formatWorkingHours` converts the stored office hours (`830`, `1700`) into calendar rules (`"08:30"`).
- **Edit wizard.** In `AppointmentEditForm.php`, opening an appointment's link mails a six-character code.
  - After the code is entered, the customer fields are edited and written back to the record.
- **Selection lists.** `appointment.js` makes the agency, type and advisor lists single-select toggles backed by a hidden input.

Model layout:

| module | models |
|---|---|
| `Wrappers` | `Option` |
| `Decimal` | decimal digit strings: `String(n)`, `Number(s)` on digits, `str_pad` to the left |
| `PhpValues` | PHP scalars, `empty()`, string conversion, form-value maps keyed by the wizards' field names |
| `TimeOfDay` | `timeToMinutes` / `minutesToTime` (identical in both scripts) |
| `Calendar` | the business-hours rules, the weekly unavailability blocks and the `selectAllow` containment test shared by both scripts |
| `FullCalendarLegacy` | `fullcalendar.js` |
| `FullCalendarUpdate` | `fullcalendar-update.js` |
| `WorkingHours` | the add form's `formatWorkingHours` |
| `Validation` | the customer-information checks common to both wizards |
| `Records` | the appointment records: fields, statuses, load/create/update |
| `AddWizard` | the add form |
| `EditWizard` | the edit form |
| `Selection` | `appointment.js` |

Modelling choices:

- **Time.** Times of day are minutes since midnight.
  - A JavaScript `Date` of the calendar is an `Instant(day, minute)`, where `day` counts days from 1 January 1970.
  - `getDay()` is taken as `(day + 4) % 7`.
  - `new Date(toDateString() + ' ' + hh:mm)` compared with a `Date` becomes a comparison of minutes with `timeToMinutes(hh:mm)`.
  - When the time does not parse, JavaScript gets an invalid date and every comparison is false. Here `None` makes `NotBefore` / `NotAfter` false.
- **JavaScript `Number`.** `Number` is modelled on strings of decimal digits, with `""` read as 0. Every other string is `NaN`, modelled as `None`: `NaN` arithmetic and comparisons are false.
- **Form values.**
  - The wizards' form values are PHP scalars: `Null`, `Str`, `Int` or `Bool`.
  - The value maps are keyed by an enumeration of the field names the wizards use (`selected_agency`, …, `verification_code`).
  - A missing key reads as `Null`, as PHP's `$values['x']` does.
- **Outside services are inputs.**
  - The email validator's verdict is the `emailValid` flag.
  - The random code is a `Code6` argument.
  - Whether an entity save succeeds is the `saveOk` flag.
  - The title lookup of step 6 is `Option<string>`: `None` models `label()` on a missing term, which aborts the request.
  - A verification mail is returned as a `Mail` value.
- **Storage.** Stored appointments are a map from identifiers to records, with identifiers handed out in increasing order.

Three places where the code does something other than what its comments, labels or the sibling form suggest; the model follows the code:

- `fullcalendar-update.js` lets a selection through when an agency rule **or an advisor rule** contains it. Its comments (lines 55 and 64) speak of "the agency's working hours", but the `businessHours` it tests (lines 28-31) concatenates the agency's and the advisor's lists, so a time inside an advisor's hours is allowed even outside every agency rule. `FullCalendarUpdate.AdvisorHoursAlsoAllow` shows such a selection.
- In the edit form, the "Edit" button of the appointment details (`modifier_date`, `AppointmentEditForm.php` lines 304-309) runs `modifierDate`, which sets step 3, the customer step (line 504), just as `modifierProfile` does (line 496). The add form's `modifierDate` goes back to the calendar step 4 (`AppointmentAddForm.php` line 724).
- The add form's step-6 "Submit" button (`AppointmentAddForm.php` lines 412-416) declares no `#validate`, unlike the Next button (line 468), and the form defines no `validateForm` of its own. So step 6 runs `submitForm` without `validateStep`, never reports errors, and is modelled by calling `SubmitForm` directly.

## Model

| member | source | states |
|---|---|---|
| TimeOfDay.JsNumber | appointment/js/fullcalendar-update.js:172 | `Number` of a string is a number exactly when the string is all decimal digits. |
| TimeOfDay.ClockValue | appointment/js/fullcalendar-update.js:171-174 | `timeToMinutes("hh:mm")` is hours × 60 + minutes for any digit strings. |
| TimeOfDay.MinutesRoundTrip | appointment/js/fullcalendar-update.js:171-183 | For every minute count, `timeToMinutes(minutesToTime(m)) == m`. |
| TimeOfDay.MinutesToTimeIsClock | appointment/js/fullcalendar-update.js:179-183 | Below 100 hours, `minutesToTime` yields `hh:mm` with two-digit hours and minutes below 60. |
| TimeOfDay.ClockRoundTrip | appointment/js/fullcalendar-update.js:171-183 | Every `hh:mm` string with minutes below 60 parses, and formats back to itself. |
| TimeOfDay.TimeToMinutes | appointment/js/fullcalendar-update.js:171-174 | `timeToMinutes`: split at the colons, `Number` of the first two parts, hours × 60 + minutes; `None` stands for `NaN`. Stated by `ClockValue` and `MinutesRoundTrip`. |
| TimeOfDay.MinutesToTime | appointment/js/fullcalendar-update.js:179-183 | `minutesToTime`: hours and minutes each padded to two digits around a colon. Stated by `MinutesToTimeIsClock` and `MinutesRoundTrip`. |
| Calendar.FirstRuleForSpec | appointment/js/fullcalendar-update.js:112-113 | `find` gives no rule iff no rule lists the day; otherwise it gives the first rule that lists it. |
| Calendar.FirstRuleFor | appointment/js/fullcalendar-update.js:112-113 | `find` of the first rule whose `daysOfWeek` includes the day. Stated by `FirstRuleForSpec` and `LaterRulesIgnored`. |
| Calendar.DayBlocks | appointment/js/fullcalendar-update.js:118-142 | The pushes of one covered day: the morning gap when the advisor starts later, then the evening gap when the advisor ends earlier. Stated by `PushDayBlocks`, `DayGaps` and `CoveredDayHasNoBlock`. |
| Calendar.BlocksForDay | appointment/js/fullcalendar-update.js:112-142 | One iteration of the day loop: nothing when either `find` fails, else that day's gaps. Stated by `PushDay`, `NoRuleNoBlock` and `DayGaps`. |
| Calendar.RecurringBlocks | appointment/js/fullcalendar-update.js:111-143 | The blocks of days 1..7 in order. Stated by `PushRecurringBlocks`, `RecurringBlocksWellFormed`, `AtMostTwoPerDay` and `BlocksBeforeLastDay`. |
| Calendar.PushRecurringBlocks | appointment/js/fullcalendar-update.js:111-143 | The day loop pushes exactly the day-by-day blocks of the specification function. |
| Calendar.PushDay | appointment/js/fullcalendar-update.js:112-115 | One iteration pushes exactly that day's blocks, and nothing when either side has no rule for the day. |
| Calendar.PushDayBlocks | appointment/js/fullcalendar-update.js:118-142 | The pushes of one day append exactly its morning and evening gaps. |
| Calendar.DayGaps | appointment/js/fullcalendar-update.js:115-142 | On a day both lists cover, the blocks are the morning gap from the agency start to a later advisor start, then the evening gap from an earlier advisor end to the agency end; there are no others. |
| Calendar.CoveredDayHasNoBlock | appointment/js/fullcalendar-update.js:124-142 | When the advisor's hours cover the agency's, the day gets no block. |
| Calendar.NoRuleNoBlock | appointment/js/fullcalendar-update.js:115 | A day that the agency or the advisor does not list gets no block. |
| Calendar.BlocksBeforeLastDay | appointment/js/fullcalendar-update.js:111-115 | When no agency rule lists day 7, every block falls on days 1..6. |
| Calendar.LaterRulesIgnored | appointment/js/fullcalendar-update.js:112-113 | Rules appended after the first rule for a day do not change that day's blocks. |
| Calendar.RecurringBlocksWellFormed | appointment/js/fullcalendar-update.js:125-141 | Every block is weekly, on one day in 1..7, titled "Advisor Indisponible", with start before end. |
| Calendar.AtMostTwoPerDay | appointment/js/fullcalendar-update.js:111-143 | No day gets more than two blocks. |
| Calendar.TaggedConcat | appointment/js/fullcalendar-update.js:111-143 | Selecting a day's blocks distributes over concatenation of event lists. |
| Calendar.Weekday | appointment/js/fullcalendar-update.js:66 | `getDay()` is a weekday number in 0..6. |
| Calendar.SomeRuleContains | appointment/js/fullcalendar-update.js:65-70 | `some` holds iff some rule lists the start's weekday, starts no later than the start and ends no earlier than the end. |
| Calendar.SelectAllow | appointment/js/fullcalendar-update.js:59-72 | The shared `selectAllow` test: the same day, and some rule containing the selection. Stated for each script by `FullCalendarLegacy.SelectAllowSpec` and `FullCalendarUpdate.SelectAllowSpec`. |
| FullCalendarLegacy.GenerateUnavailableEvents | appointment/js/fullcalendar.js:92-133 | Empty when either hours list is missing; otherwise exactly the weekly blocks. |
| FullCalendarLegacy.BusinessHoursOf | appointment/js/fullcalendar.js:19-21 | The highlighted hours are the agency's rules, or none when they are missing. |
| FullCalendarLegacy.SelectAllow | appointment/js/fullcalendar.js:45-64 | `selectAllow` over the agency's hours. Stated by `SelectAllowSpec`. |
| FullCalendarLegacy.SelectAllowSpec | appointment/js/fullcalendar.js:45-64 | A selection is allowed iff it stays within one day and an agency rule contains it. |
| FullCalendarUpdate.GenerateUnavailableEvents | appointment/js/fullcalendar-update.js:105-166 | Empty when either hours list is missing; otherwise the weekly blocks followed by the blocks of the bookings. |
| FullCalendarUpdate.PushBookingBlocks | appointment/js/fullcalendar-update.js:145-163 | The booking loop appends the blocks of the bookings to the events already pushed. |
| FullCalendarUpdate.BookingBlocks | appointment/js/fullcalendar-update.js:145-163 | The blocks of the bookings, skipping those whose dates equal the default dates. Stated by `BookingBlocksContents`, `BookingBlocksSingle`, `NoEditBlocksAll` and `EditedBookingNotBlocked`. |
| FullCalendarUpdate.BookingBlocksConcat | appointment/js/fullcalendar-update.js:146-162 | The booking blocks of two booking lists are the blocks of the first followed by the blocks of the second. |
| FullCalendarUpdate.BookingBlocksSingle | appointment/js/fullcalendar-update.js:148-161 | The booking being edited yields nothing; any other booking yields its white block. |
| FullCalendarUpdate.BookingBlocksContents | appointment/js/fullcalendar-update.js:145-163 | Every block is the block of a booking other than the edited one, each such booking has its block, and there are no more blocks than bookings. |
| FullCalendarUpdate.NoEditBlocksAll | appointment/js/fullcalendar-update.js:148-150 | Without default dates, every booking gets its block, in order. |
| FullCalendarUpdate.EditedBookingNotBlocked | appointment/js/fullcalendar-update.js:148-152 | The edited booking's block is never pushed, and no pushed block has the edited start and end, however many bookings share those dates. |
| FullCalendarUpdate.BusinessHoursOf | appointment/js/fullcalendar-update.js:28-31 | A rule is among the highlighted hours iff it is in the agency's list or in the advisor's list, a missing list counting as empty. |
| FullCalendarUpdate.SelectAllow | appointment/js/fullcalendar-update.js:54-73 | `selectAllow` over the agency's and the advisor's hours together. Stated by `SelectAllowSpec` and `SelectAllowExtendsLegacy`. |
| FullCalendarUpdate.SelectAllowSpec | appointment/js/fullcalendar-update.js:54-73 | A selection is allowed iff it stays within one day and an agency rule or an advisor rule contains it. |
| FullCalendarUpdate.ContainsInConcat | appointment/js/fullcalendar-update.js:28-31 | Some rule of the concatenated hours contains a selection iff some agency rule or some advisor rule does. |
| FullCalendarUpdate.SelectAllowExtendsLegacy | appointment/js/fullcalendar-update.js:54-73 | Every selection the older script allows, the newer one allows too. |
| FullCalendarUpdate.AdvisorHoursAlsoAllow | appointment/js/fullcalendar-update.js:28-31 | A selection inside advisor hours is allowed by the newer script and refused by the older one when the agency has no rules. |
| WorkingHours.FormatTime | appointment/src/Form/appointment/AppointmentAddForm.php:442-447 | `$formatTime`: pad the string form to four characters with `0`, then the first two characters, a colon and the next two. Its meaning is stated by `FormatTimeDigits` and `FormattedTimeMinutes`. |
| WorkingHours.FormatTimeDigits | appointment/src/Form/appointment/AppointmentAddForm.php:442-447 | An integer `hhmm` below 10000 formats as five characters: two digits reading `hhmm / 100`, a colon, and two digits reading `hhmm % 100`. |
| WorkingHours.DayOf | appointment/src/Form/appointment/AppointmentAddForm.php:450 | The weekday of entry `delta` is `(delta + 8) % 7`; `DaysInRange` states that it lies in 0..6. |
| WorkingHours.FormatWorkingHours | appointment/src/Form/appointment/AppointmentAddForm.php:436-457 | The loop builds exactly the rule list of the specification function. |
| WorkingHours.KeptDeltasSpec | appointment/src/Form/appointment/AppointmentAddForm.php:439-440 | The kept entries are listed in increasing order: the indices whose start and end are both non-empty. |
| WorkingHours.FormattedIsKeptInOrder | appointment/src/Form/appointment/AppointmentAddForm.php:439-455 | The rules are, one by one and in order, the formatted kept entries. |
| WorkingHours.DaysInRange | appointment/src/Form/appointment/AppointmentAddForm.php:450 | Every rule lists exactly one weekday, in 0..6. |
| WorkingHours.EmptyHoursDropped | appointment/src/Form/appointment/AppointmentAddForm.php:440 | An entry with an empty start or end adds no rule; since PHP's `empty(0)` holds, this includes an hour of `0` (midnight). |
| WorkingHours.FormatHalfPastEight | appointment/src/Form/appointment/AppointmentAddForm.php:443 | `830` formats as `"08:30"`. |
| WorkingHours.FormatFivePm | appointment/src/Form/appointment/AppointmentAddForm.php:443-446 | `1700` formats as `"17:00"`. |
| WorkingHours.FormattedTimeMinutes | appointment/src/Form/appointment/AppointmentAddForm.php:442-447 | A stored `hhmm` below 10000 with minutes below 60 formats to a time that the calendar reads as hh × 60 + mm. |
| WorkingHours.BlocksOnMondayToSaturday | appointment/src/Form/appointment/AppointmentAddForm.php:450 | Over formatted hours, every block falls on day 1..6: Sunday is 0, and the calendar loop probes 1..7. |
| Validation.PhonePatternSpec | appointment/src/Form/appointment/AppointmentAddForm.php:693 | `/^[0-9]+$/` matches iff the string is one or more digits, optionally followed by one final newline. |
| Validation.PhonePatternExamples | appointment/src/Form/appointment/AppointmentAddForm.php:693 | Concrete phone strings accepted and refused by the pattern. |
| Validation.PhonePatternMatches | appointment/src/Form/appointment/AppointmentAddForm.php:693 | `preg_match('/^[0-9]+$/', …)`: digits only, with one final newline tolerated. Stated by `PhonePatternSpec`. |
| Validation.CustomerErrors | appointment/src/Form/appointment/AppointmentAddForm.php:672-696 | Each customer error is reported iff its condition holds; an invalid email or phone is reported only when the field is non-empty. |
| Validation.CustomerErrorsFields | appointment/src/Form/appointment/AppointmentAddForm.php:672-696 | The customer checks report only errors on the four customer fields, at most one per field, in the order first name, last name, email, phone. |
| Validation.CustomerErrorsNone | appointment/src/Form/appointment/AppointmentEditForm.php:370-395 | No customer error iff all four fields are non-empty, the email is valid and the phone matches the pattern. |
| PhpValues.PhpStringSpec | appointment/src/Form/appointment/AppointmentAddForm.php:443 | A string converts to itself, and a non-negative integer to its decimal digits, which parse back to it. |
| PhpValues.Empty | appointment/src/Form/appointment/AppointmentAddForm.php:643 | PHP `empty()`: null, `""`, `"0"`, `0` and `false` are empty. Used by every check of the wizards; `EmptyHoursDropped` states its effect on the office hours. |
| PhpValues.PhpString | appointment/src/Form/appointment/AppointmentAddForm.php:443 | PHP's string conversion of a scalar. Stated by `PhpStringSpec`. |
| PhpValues.Lookup | appointment/src/Form/appointment/AppointmentAddForm.php:585 | A key that is not present reads as null. |
| Records.WithCustomer | appointment/src/Form/appointment/AppointmentEditForm.php:430-433 | The four customer fields are replaced; every other field is kept. |
| Records.IdOf | appointment/src/Form/appointment/AppointmentEditForm.php:83 | A value denotes an identifier iff it is numeric, and an integer denotes itself. |
| Records.AppointmentStore.Load | appointment/src/Form/appointment/AppointmentEditForm.php:85-91 | Loading finds a record iff the value is numeric and its identifier is stored. |
| Records.AppointmentStore.Create | appointment/src/Form/appointment/AppointmentAddForm.php:592-606 | Saving a new record stores it under a fresh identifier and changes nothing else. |
| Records.AppointmentStore.Update | appointment/src/Form/appointment/AppointmentEditForm.php:430-434 | Saving a loaded record replaces it under its identifier. |
| AddWizard.StepOf | appointment/src/Form/appointment/AppointmentAddForm.php:545-580 | Every key that a step's submit writes belongs to that step's key list. |
| AddWizard.Submitted | appointment/src/Form/appointment/AppointmentAddForm.php:546-580 | After the submit of steps 1..5, exactly that step's keys hold the submitted values; every other key is kept. |
| AddWizard.StepKeysDisjoint | appointment/src/Form/appointment/AppointmentAddForm.php:546-580 | No key is written by two steps. |
| AddWizard.ValidateStep | appointment/src/Form/appointment/AppointmentAddForm.php:636-698 | Steps 1..3 fail iff their selection is empty, and then report exactly the agency, type or advisor error. Step 4 passes iff both dates are present, and otherwise reports only a missing start, or else only a missing end. Step 5 runs the customer checks; other steps accept. Every error is set on a field the step submits. |
| AddWizard.ValidateStepAccepts | appointment/src/Form/appointment/AppointmentAddForm.php:636-698 | `validateStep` passes iff every field the step submits, except the terms checkbox, is non-empty and, at step 5, the email is valid and the phone matches the pattern. |
| AddWizard.NewAppointment | appointment/src/Form/appointment/AppointmentAddForm.php:592-604 | The new record carries the title, the ten draft values and status pending. |
| AddWizard.AddForm.BuildForm | appointment/src/Form/appointment/AppointmentAddForm.php:59-62 | Shows the stored step (1 when absent); showing step 7 deletes the step; the values are kept. |
| AddWizard.AddForm.SubmitEffect | appointment/src/Form/appointment/AppointmentAddForm.php:541-621 | The new state after `submitForm`, as stated in the `SubmitForm` row; `Next`, `FillDraft` and `CompleteBooking` rely on it. |
| AddWizard.AddForm.SubmitForm | appointment/src/Form/appointment/AppointmentAddForm.php:541-621 | Steps 1..5 store the step's keys and advance. Step 6 adds one pending record, deletes the values and moves to 7, unless title or save fails, in which case nothing changes. Other steps change nothing. |
| AddWizard.AddForm.SubmitPrevious | appointment/src/Form/appointment/AppointmentAddForm.php:703-708 | The step becomes the stored step minus one, with an absent step read as 0. |
| AddWizard.AddForm.ModifierProfile | appointment/src/Form/appointment/AppointmentAddForm.php:713-717 | Back to step 5; the values are kept. |
| AddWizard.AddForm.ModifierDate | appointment/src/Form/appointment/AppointmentAddForm.php:722-726 | Back to step 4; the values are kept. |
| AddWizard.AddForm.Next | appointment/src/Form/appointment/AppointmentAddForm.php:463-472 | The errors are those of `validateStep`; with errors nothing changes, and without them the submit takes effect. |
| AddWizard.FillDraft | appointment/src/Form/appointment/AppointmentAddForm.php:546-580 | After valid steps 1..5 the wizard is at step 6, with a draft that yields exactly the customer's record. |
| AddWizard.CompleteBooking | appointment/src/Form/appointment/AppointmentAddForm.php:582-617 | A complete booking leaves exactly one pending record with the submitted values, shows step 7 and restarts at step 1. |
| EditWizard.EditForm.BuildForm | appointment/src/Form/appointment/AppointmentEditForm.php:78-118 | Invalid iff a numeric argument names no record. The first build stores the identifier and the code, mails the code to the record's email and moves to step 2. Showing step 5 clears the step and the values. |
| EditWizard.EditForm.ValidateForm | appointment/src/Form/appointment/AppointmentEditForm.php:353-397 | Step 2 passes iff the entered code is exactly the stored one, reports a missing code iff none was entered, and an incorrect code iff one was entered that differs from the stored one (or none is stored); step 3 runs the customer checks. |
| EditWizard.EditForm.SubmitEffect | appointment/src/Form/appointment/AppointmentEditForm.php:402-449 | The new state after `submitForm`, as stated in the `SubmitForm` row; `Next`, `SaveCustomer` and `CompleteEdit` rely on it. |
| EditWizard.EditForm.SubmitForm | appointment/src/Form/appointment/AppointmentEditForm.php:402-449 | Step 2 goes to step 3. Step 3 stores the four customer fields and goes to 4. Step 4 writes them to the record and goes to 5 when the mails go out, stays at 4 with the record saved when the mail service throws, and changes nothing when the record or the save fails. The code is kept. |
| EditWizard.EditForm.ResendVerificationCode | appointment/src/Form/appointment/AppointmentEditForm.php:477-490 | Mails the stored code to the current record's email; no mail without a record. |
| EditWizard.EditForm.ModifierProfile | appointment/src/Form/appointment/AppointmentEditForm.php:495-498 | Back to step 3; the values and code are kept. |
| EditWizard.EditForm.ModifierDate | appointment/src/Form/appointment/AppointmentEditForm.php:503-506 | Back to step 3 as well; the values and code are kept. |
| EditWizard.EditForm.Next | appointment/src/Form/appointment/AppointmentEditForm.php:353-449 | The errors are those of `validateForm`; with errors nothing changes, and without them the submit takes effect. |
| EditWizard.OpenAndVerify | appointment/src/Form/appointment/AppointmentEditForm.php:102-118 | Opening a stored record mails its code to the record's email; entering that code passes and reaches step 3. |
| EditWizard.SaveCustomer | appointment/src/Form/appointment/AppointmentEditForm.php:412-440 | Valid customer input followed by the final submit replaces exactly the four customer fields of the record, and reaches step 5. |
| EditWizard.CompleteEdit | appointment/src/Form/appointment/AppointmentEditForm.php:336-344 | A whole edit mails the code, updates only the customer fields and clears the wizard's step and values. |
| Selection.ToggleKeepsConsistent | appointment/js/appointment.js:19-40 | With unique non-empty ids, a click keeps "selected iff its id is the hidden value". |
| Selection.ToggleFlags | appointment/js/appointment.js:19-40 | The item flags after a click: the clicked item cleared (the others untouched) when its id is the hidden value, otherwise only the clicked item set. Stated by `ToggleKeepsConsistent` and `ClickTwiceClears`. |
| Selection.ClickTwiceClears | appointment/js/appointment.js:25-38 | From an empty selection, the first click selects the item and the second click deselects everything again. |
| Selection.SelectionList.Toggle | appointment/js/appointment.js:19-40 | A click on the selected item clears it and the value. Any other click selects exactly that item and stores its id. A missing input stays missing. |
| Selection.SelectionList.Click | appointment/js/appointment.js:7-40 | An attached item toggles once, and an unattached item does nothing. With a hidden input, consistency survives the click. |
| Selection.SelectionList.Attach | appointment/js/appointment.js:7-48 | Each item of the context is marked once and gets exactly one listener; newly marked items whose id equals the hidden value become selected. |

## Left out

- Calendar rendering is left out: FullCalendar options such as the view, toolbar and slot range, event content HTML and `initialDate`. These are display settings with no logic.
- The `select` callback writing the chosen dates into the form is left out, as is `calendar.select` of the default dates: both are DOM writes.
- The `setTimeout` retry while FullCalendar loads, and the `try`/`catch` that shows an error box, are left out: timing and error display.
- `Calendar.SelectAllow`: selection dates are `(day, minute)` instants, so the same-day check compares day numbers rather than date, month and year, and time zones and daylight-saving changes are not modelled. A rule time whose minutes are 60 or more (`"08:75"`, from an office-hours value such as 875) gives JavaScript an invalid date, so every comparison is false and the selection is refused; here it reads as hours × 60 + minutes (555), so such a rule can still contain a selection.
- `TimeOfDay.JsNumber`: strings with signs, spaces, decimals or exponents are `NaN` here, which is stronger than JavaScript's `Number`. Rule times with more than one colon ignore the extra parts, as destructuring does.
- The `buildForm` of both forms is modelled only for its step, values and code bookkeeping. The render arrays, the entity loading for the option lists, the mapping and attaching of `working_hours` and `existing_appointments`, and `extractDateTime` are left out: they are presentation and queries on other entities.
- `AddWizard.AddForm.SubmitForm`: the step-6 title (type label + " RDV le " + date) is an `Option<string>` input, because computing it needs the taxonomy and `DateTime`. The success redirect is not modelled.
- `Validation.CustomerErrors`: the email validator is the `emailValid` input. Drupal's own `#required` check is done by the framework, not this code, and is left out (see the two `Next` lines below).
- `AddWizard.AddForm.Next`: the framework's `#required` check of the step-5 elements (the four customer fields and `accept_terms`, `AppointmentAddForm.php` lines 298-326) is left out. Drupal runs it before `validateStep` and trims text first, so a whitespace-only name or a missing terms tick is refused there, while here only `empty()` is tested: `Next` submits such input, and `FillDraft`/`CompleteBooking` store it.
- `EditWizard.EditForm.Next`: likewise, the framework's `#required` check of `verification_code` and the four customer fields (`AppointmentEditForm.php` lines 145 and 203-231) is left out, whitespace-only text included, so `SaveCustomer`/`CompleteEdit` can write a blank-looking name that Drupal would refuse.
- `WorkingHours.FormatTimeDigits`: only integer hours below 10000 are described, the values the office-hours field stores. For string values and longer numbers `FormatTime` keeps the first four padded characters, and no lemma states more about them.
- `EditWizard.EditForm.SubmitForm`: the contents of the confirmation mails sent after the save are left out; only their outcome is the `mailOk` input. The mail service catches `\Exception` only: when the appointment's agency, advisor or type has been deleted, calling `label()` or `getAccountName()` on null throws an `Error` that neither that catch nor the form's catches, so the record stays saved while the step stays at 4 (`mailOk` false). The mail service itself (`AppointmentEmailService.php`) is not part of this model.
- `EditWizard.EditForm.BuildForm`: a non-numeric argument is treated as "no appointment", so the route's entity upcasting is left out. `Random::name` is the `code` input, and the mail is returned rather than sent.
- `Records.IsNumeric`: only integers and non-empty digit strings are numeric. PHP also accepts signs, decimals and exponents in strings.
- The messenger and logger calls, AJAX callbacks, `getFormId`, `create`, and the constructors' dependency injection are left out: framework plumbing.
- `Selection.SelectionList`: the three lists (agency, type, advisor) share one model. Every item is assumed to carry its `data-*-id` attribute.
- `Selection.SelectionList.Click`: processOnce guarantees at most one listener per item, so a click runs the toggle once; the repeated-listener case cannot arise and is not modelled.
