/** The earlier calendar script, appointment/js/fullcalendar.js: weekly
    "advisor unavailable" blocks only, and slot selection against the agency's
    business hours alone. */
module FullCalendarLegacy {

  import opened Wrappers
  import opened Calendar

  /** `generateUnavailableEvents(agencyHours, advisorHours)`; a missing (undefined) list
      of either side gives no events. */
  method GenerateUnavailableEvents(agencyHours: Option<seq<BusinessHours>>, advisorHours: Option<seq<BusinessHours>>)
    returns (unavailableEvents: seq<Event>)
    ensures agencyHours.None? || advisorHours.None? ==> unavailableEvents == []
    ensures agencyHours.Some? && advisorHours.Some? ==>
              unavailableEvents == RecurringBlocks(agencyHours.value, advisorHours.value)
  {
    unavailableEvents := [];
    if advisorHours.None? || agencyHours.None? {
      return;
    }
    unavailableEvents := PushRecurringBlocks(agencyHours.value, advisorHours.value);
  }

  /** The highlighted business hours: the agency's rules, or none when they are missing. */
  function BusinessHoursOf(agencyHours: Option<seq<BusinessHours>>): (r: seq<BusinessHours>)
    ensures agencyHours.None? ==> r == []
    ensures agencyHours.Some? ==> r == agencyHours.value
  {
    agencyHours.GetOr([])
  }

  predicate SelectAllow(start: Instant, end: Instant, agencyHours: Option<seq<BusinessHours>>) {
    Calendar.SelectAllow(start, end, BusinessHoursOf(agencyHours))
  }

  /** A selection is allowed iff it stays within one calendar date and some agency
      rule for its weekday contains it. */
  lemma SelectAllowSpec(start: Instant, end: Instant, agencyHours: Option<seq<BusinessHours>>)
    ensures SelectAllow(start, end, agencyHours) <==>
              start.day == end.day && agencyHours.Some? &&
              exists i :: 0 <= i < |agencyHours.value| && RuleContains(agencyHours.value[i], start, end)
  {
  }
}
