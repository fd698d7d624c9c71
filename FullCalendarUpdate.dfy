/** The current calendar script, appointment/js/fullcalendar-update.js: weekly
    "advisor unavailable" blocks, one block per existing booking except the one being
    edited, and slot selection against agency and advisor business hours together. */
module FullCalendarUpdate {

  import opened Wrappers
  import opened Decimal
  import opened TimeOfDay
  import opened Calendar
  import FullCalendarLegacy

  /** An entry of `settings.appointment.existing_appointments`. */
  datatype ExistingAppointment = ExistingAppointment(start: string, end: string, title: string)

  const BookingColor := "white"

  /** The booking whose dates equal the form's default dates is the one being edited;
      an absent default never equals a string. */
  predicate IsEdited(booking: ExistingAppointment, defaultStart: Option<string>, defaultEnd: Option<string>) {
    defaultStart == Some(booking.start) && defaultEnd == Some(booking.end)
  }

  /** The block pushed for a booking. */
  function BookingEvent(booking: ExistingAppointment): Event {
    OneOff(booking.start, booking.end, booking.title, BookingColor, BlockColor, BlockColor)
  }

  /** The blocks the booking loop pushes, in order. */
  function BookingBlocks(bookings: seq<ExistingAppointment>, defaultStart: Option<string>, defaultEnd: Option<string>)
    : seq<Event>
  {
    if bookings == [] then []
    else
      var last := bookings[|bookings| - 1];
      BookingBlocks(bookings[..|bookings| - 1], defaultStart, defaultEnd)
      + (if IsEdited(last, defaultStart, defaultEnd) then [] else [BookingEvent(last)])
  }

  /** `generateUnavailableEvents` of the update script: the weekly blocks, then the bookings. */
  method GenerateUnavailableEvents(agencyHours: Option<seq<BusinessHours>>, advisorHours: Option<seq<BusinessHours>>,
                                   existingAppointments: seq<ExistingAppointment>,
                                   defaultStart: Option<string>, defaultEnd: Option<string>)
    returns (unavailableEvents: seq<Event>)
    ensures agencyHours.None? || advisorHours.None? ==> unavailableEvents == []
    ensures agencyHours.Some? && advisorHours.Some? ==>
              unavailableEvents == RecurringBlocks(agencyHours.value, advisorHours.value)
                                   + BookingBlocks(existingAppointments, defaultStart, defaultEnd)
  {
    unavailableEvents := [];
    if advisorHours.None? || agencyHours.None? {
      return;
    }
    unavailableEvents := PushRecurringBlocks(agencyHours.value, advisorHours.value);
    if |existingAppointments| > 0 {
      unavailableEvents := PushBookingBlocks(unavailableEvents, existingAppointments, defaultStart, defaultEnd);
    }
  }

  /** The `existingAppointments.forEach` loop, pushing onto `events`. */
  method PushBookingBlocks(events: seq<Event>, existingAppointments: seq<ExistingAppointment>,
                           defaultStart: Option<string>, defaultEnd: Option<string>)
    returns (unavailableEvents: seq<Event>)
    ensures unavailableEvents == events + BookingBlocks(existingAppointments, defaultStart, defaultEnd)
  {
    unavailableEvents := events;
    var k := 0;
    while k < |existingAppointments|
      invariant 0 <= k <= |existingAppointments|
      invariant unavailableEvents == events + BookingBlocks(existingAppointments[..k], defaultStart, defaultEnd)
    {
      var appointment := existingAppointments[k];
      ghost var prefix := existingAppointments[..k + 1];
      assert prefix[..|prefix| - 1] == existingAppointments[..k];
      assert prefix[|prefix| - 1] == appointment;
      if !IsEdited(appointment, defaultStart, defaultEnd) {
        unavailableEvents := unavailableEvents + [BookingEvent(appointment)];
      }
      k := k + 1;
    }
    assert existingAppointments[..k] == existingAppointments;
  }

  /** The booking loop processes bookings in order: blocks of a concatenation are the
      concatenation of the blocks. */
  lemma {:induction false} BookingBlocksConcat(a: seq<ExistingAppointment>, b: seq<ExistingAppointment>,
                                               defaultStart: Option<string>, defaultEnd: Option<string>)
    ensures BookingBlocks(a + b, defaultStart, defaultEnd)
            == BookingBlocks(a, defaultStart, defaultEnd) + BookingBlocks(b, defaultStart, defaultEnd)
    decreases |b|
  {
    if b != [] {
      var b' := b[..|b| - 1];
      assert (a + b)[..|a + b| - 1] == a + b';
      assert (a + b)[|a + b| - 1] == b[|b| - 1];
      BookingBlocksConcat(a, b', defaultStart, defaultEnd);
    } else {
      assert a + b == a;
    }
  }

  /** One booking yields its block unless it is the booking being edited. */
  lemma BookingBlocksSingle(booking: ExistingAppointment, defaultStart: Option<string>, defaultEnd: Option<string>)
    ensures BookingBlocks([booking], defaultStart, defaultEnd)
            == if IsEdited(booking, defaultStart, defaultEnd) then [] else [BookingEvent(booking)]
  {
    assert [booking][..0] == [];
  }

  /** Every block of the booking loop is the block of a booking that is not being
      edited, and every such booking has its block among them. */
  lemma {:induction false} BookingBlocksContents(bookings: seq<ExistingAppointment>,
                                                 defaultStart: Option<string>, defaultEnd: Option<string>)
    ensures |BookingBlocks(bookings, defaultStart, defaultEnd)| <= |bookings|
    ensures forall e :: e in BookingBlocks(bookings, defaultStart, defaultEnd) ==>
              exists i :: 0 <= i < |bookings| && !IsEdited(bookings[i], defaultStart, defaultEnd)
                          && e == BookingEvent(bookings[i])
    ensures forall i :: 0 <= i < |bookings| && !IsEdited(bookings[i], defaultStart, defaultEnd) ==>
              BookingEvent(bookings[i]) in BookingBlocks(bookings, defaultStart, defaultEnd)
    decreases |bookings|
  {
    if bookings != [] {
      var init := bookings[..|bookings| - 1];
      BookingBlocksContents(init, defaultStart, defaultEnd);
      forall i | 0 <= i < |init|
        ensures init[i] == bookings[i]
      {
      }
    }
  }

  /** Without an edit session (no default dates) every booking is blocked, one for one. */
  lemma {:induction false} NoEditBlocksAll(bookings: seq<ExistingAppointment>)
    ensures BookingBlocks(bookings, None, None) == seq(|bookings|, i requires 0 <= i < |bookings| => BookingEvent(bookings[i]))
    decreases |bookings|
  {
    if bookings != [] {
      var init := bookings[..|bookings| - 1];
      NoEditBlocksAll(init);
    }
  }

  /** The booking being edited never blocks its own slot: its block is not pushed, and
      no pushed block has the edited dates, however many bookings share them. */
  lemma EditedBookingNotBlocked(bookings: seq<ExistingAppointment>, defaultStart: string, defaultEnd: string,
                                i: int)
    requires 0 <= i < |bookings| && bookings[i].start == defaultStart && bookings[i].end == defaultEnd
    ensures BookingEvent(bookings[i]) !in BookingBlocks(bookings, Some(defaultStart), Some(defaultEnd))
    ensures forall e :: e in BookingBlocks(bookings, Some(defaultStart), Some(defaultEnd)) ==>
              e.OneOff? && (e.start != defaultStart || e.end != defaultEnd)
  {
    BookingBlocksContents(bookings, Some(defaultStart), Some(defaultEnd));
  }

  /** The highlighted business hours: the agency's rules followed by the advisor's, a
      missing list counting as empty. */
  function BusinessHoursOf(agencyHours: Option<seq<BusinessHours>>, advisorHours: Option<seq<BusinessHours>>)
    : (r: seq<BusinessHours>)
    ensures forall rule :: rule in r <==>
              (agencyHours.Some? && rule in agencyHours.value) || (advisorHours.Some? && rule in advisorHours.value)
  {
    agencyHours.GetOr([]) + advisorHours.GetOr([])
  }

  predicate SelectAllow(start: Instant, end: Instant,
                        agencyHours: Option<seq<BusinessHours>>, advisorHours: Option<seq<BusinessHours>>) {
    Calendar.SelectAllow(start, end, BusinessHoursOf(agencyHours, advisorHours))
  }

  /** A selection is allowed iff it stays within one calendar date and an agency rule
      or an advisor rule contains it. */
  lemma SelectAllowSpec(start: Instant, end: Instant,
                        agencyHours: Option<seq<BusinessHours>>, advisorHours: Option<seq<BusinessHours>>)
    ensures SelectAllow(start, end, agencyHours, advisorHours) <==>
              start.day == end.day &&
              ((agencyHours.Some? && exists i :: 0 <= i < |agencyHours.value| && RuleContains(agencyHours.value[i], start, end))
               || (advisorHours.Some? && exists i :: 0 <= i < |advisorHours.value| && RuleContains(advisorHours.value[i], start, end)))
  {
    ContainsInConcat(agencyHours.GetOr([]), advisorHours.GetOr([]), start, end);
  }

  /** Some rule of a concatenation contains the selection iff some rule of either part does. */
  lemma ContainsInConcat(ag: seq<BusinessHours>, ad: seq<BusinessHours>, start: Instant, end: Instant)
    ensures SomeRuleContains(ag + ad, start, end) <==> SomeRuleContains(ag, start, end) || SomeRuleContains(ad, start, end)
  {
    var rules := ag + ad;
    if SomeRuleContains(rules, start, end) {
      var i :| 0 <= i < |rules| && RuleContains(rules[i], start, end);
      if i >= |ag| {
        assert rules[i] == ad[i - |ag|];
      }
    }
    if SomeRuleContains(ag, start, end) {
      var i :| 0 <= i < |ag| && RuleContains(ag[i], start, end);
      assert rules[i] == ag[i];
    }
    if SomeRuleContains(ad, start, end) {
      var i :| 0 <= i < |ad| && RuleContains(ad[i], start, end);
      assert rules[|ag| + i] == ad[i];
    }
  }

  /** Every selection the earlier script allowed is still allowed. */
  lemma SelectAllowExtendsLegacy(start: Instant, end: Instant,
                                 agencyHours: Option<seq<BusinessHours>>, advisorHours: Option<seq<BusinessHours>>)
    requires FullCalendarLegacy.SelectAllow(start, end, agencyHours)
    ensures SelectAllow(start, end, agencyHours, advisorHours)
  {
    FullCalendarLegacy.SelectAllowSpec(start, end, agencyHours);
    SelectAllowSpec(start, end, agencyHours, advisorHours);
  }

  lemma NineOClock()
    ensures TimeToMinutes("09:00") == Some(540)
  {
    assert ParseDigits("00") == 0 by { assert "00"[..1] == "0"; assert "0"[..0] == ""; }
    assert ParseDigits("09") == 9 by { assert "09"[..1] == "0"; assert "0"[..0] == ""; }
    ClockValue("09", "00");
    assert "09" + ":" + "00" == "09:00";
  }

  lemma FiveOClock()
    ensures TimeToMinutes("17:00") == Some(1020)
  {
    assert ParseDigits("00") == 0 by { assert "00"[..1] == "0"; assert "0"[..0] == ""; }
    assert ParseDigits("17") == 17 by { assert "17"[..1] == "1"; assert "1"[..0] == ""; }
    ClockValue("17", "00");
    assert "17" + ":" + "00" == "17:00";
  }

  /** The converse fails: with no agency hours, a Monday 10:00-11:00 selection inside
      the advisor's 09:00-17:00 is allowed here and refused by the earlier script. */
  lemma AdvisorHoursAlsoAllow()
    ensures var start, end := Instant(4, 600), Instant(4, 660);
            var advisor := [BusinessHours([1], "09:00", "17:00")];
            SelectAllow(start, end, Some([]), Some(advisor))
            && !FullCalendarLegacy.SelectAllow(start, end, Some([]))
  {
    var start, end := Instant(4, 600), Instant(4, 660);
    var advisor := [BusinessHours([1], "09:00", "17:00")];
    NineOClock();
    FiveOClock();
    assert Weekday(4) == 1;
    assert RuleContains(advisor[0], start, end);
    assert BusinessHoursOf(Some([]), Some(advisor)) == advisor;
  }
}
