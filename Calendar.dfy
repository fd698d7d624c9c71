/** What the two calendar scripts share: the working-hours rules handed over by
    the booking form, the events FullCalendar renders as unavailable, and the
    weekly "advisor unavailable" computation of `generateUnavailableEvents`
    (identical in both scripts), as a specification and as the loop the
    scripts run. */
module Calendar {

  import opened Wrappers
  import opened TimeOfDay

  /** A FullCalendar business-hours rule: weekdays (0 = Sunday) and "HH:MM" bounds. */
  datatype BusinessHours = BusinessHours(daysOfWeek: seq<int>, startTime: string, endTime: string)

  /** An event given to FullCalendar: a weekly recurring block or a one-off block
      covering an existing booking. A recurring block keeps the minute counts the
      scripts pass to `minutesToTime`; StartTime and EndTime give the strings. */
  datatype Event =
    | Recurring(daysOfWeek: seq<int>, startMinutes: nat, endMinutes: nat, title: string, color: string)
    | OneOff(start: string, end: string, title: string, color: string, textColor: string, borderColor: string)
  {
    /** The `startTime` string of a recurring block; it reads back as `startMinutes`. */
    function StartTime(): (t: string)
      requires Recurring?
      ensures TimeToMinutes(t) == Some(startMinutes)
    {
      MinutesRoundTrip(startMinutes);
      MinutesToTime(startMinutes)
    }

    /** The `endTime` string of a recurring block; it reads back as `endMinutes`. */
    function EndTime(): (t: string)
      requires Recurring?
      ensures TimeToMinutes(t) == Some(endMinutes)
    {
      MinutesRoundTrip(endMinutes);
      MinutesToTime(endMinutes)
    }
  }

  const AdvisorUnavailable := "Advisor Indisponible"
  const BlockColor := "#2c3e50"

  /** The weekdays the scripts' day loop probes, from 1 up to and including 7. */
  const FirstProbedDay := 1
  const LastProbedDay := 7

  /** The first rule whose weekdays include `day`, as `find` returns it. */
  function FirstRuleFor(rules: seq<BusinessHours>, day: int): Option<BusinessHours> {
    if rules == [] then None
    else if day in rules[0].daysOfWeek then Some(rules[0])
    else FirstRuleFor(rules[1..], day)
  }

  /** `find` gives the first rule listing the weekday, and nothing when no rule lists it. */
  lemma {:induction false} FirstRuleForSpec(rules: seq<BusinessHours>, day: int)
    ensures FirstRuleFor(rules, day).None? <==> forall i :: 0 <= i < |rules| ==> day !in rules[i].daysOfWeek
    ensures FirstRuleFor(rules, day).Some? ==>
              exists i :: 0 <= i < |rules| && rules[i] == FirstRuleFor(rules, day).value
                          && day in rules[i].daysOfWeek
                          && forall j :: 0 <= j < i ==> day !in rules[j].daysOfWeek
    decreases |rules|
  {
    if rules != [] && day !in rules[0].daysOfWeek {
      var tail := rules[1..];
      FirstRuleForSpec(tail, day);
      assert forall i :: 1 <= i < |rules| ==> rules[i] == tail[i - 1];
      if FirstRuleFor(tail, day).Some? {
        var i :| 0 <= i < |tail| && tail[i] == FirstRuleFor(tail, day).value
                 && day in tail[i].daysOfWeek && forall j :: 0 <= j < i ==> day !in tail[j].daysOfWeek;
        assert rules[i + 1] == tail[i];
        assert forall j :: 0 <= j < i + 1 ==> day !in rules[j].daysOfWeek by {
          forall j | 0 <= j < i + 1 ensures day !in rules[j].daysOfWeek {
            if j > 0 { assert rules[j] == tail[j - 1]; }
          }
        }
      }
    }
  }

  /** JavaScript `a > b` on numbers that may be NaN (None): false whenever either is NaN. */
  predicate Greater(a: Option<nat>, b: Option<nat>) {
    a.Some? && b.Some? && a.value > b.value
  }

  /** A recurring block on one weekday between two minute counts. */
  function Gap(day: int, from: nat, to: nat): Event {
    Recurring([day], from, to, AdvisorUnavailable, BlockColor)
  }

  /** The blocks pushed for one weekday once both rules are found: the part of the
      agency's day before the advisor starts, then the part after the advisor ends. */
  function DayBlocks(day: int, agency: BusinessHours, advisor: BusinessHours): seq<Event> {
    var agencyStart, agencyEnd := TimeToMinutes(agency.startTime), TimeToMinutes(agency.endTime);
    var advisorStart, advisorEnd := TimeToMinutes(advisor.startTime), TimeToMinutes(advisor.endTime);
    (if Greater(advisorStart, agencyStart) then [Gap(day, agencyStart.value, advisorStart.value)] else [])
    + (if Greater(agencyEnd, advisorEnd) then [Gap(day, advisorEnd.value, agencyEnd.value)] else [])
  }

  /** One iteration of the weekday loop: nothing when either side has no rule for the day. */
  function BlocksForDay(agencyHours: seq<BusinessHours>, advisorHours: seq<BusinessHours>, day: int): seq<Event> {
    var agencyDay, advisorDay := FirstRuleFor(agencyHours, day), FirstRuleFor(advisorHours, day);
    if agencyDay.None? || advisorDay.None? then [] else DayBlocks(day, agencyDay.value, advisorDay.value)
  }

  /** The blocks pushed by the iterations for days FirstProbedDay..last, in that order. */
  function RecurringUpTo(agencyHours: seq<BusinessHours>, advisorHours: seq<BusinessHours>, last: int): seq<Event>
    decreases last
  {
    if last < FirstProbedDay then []
    else RecurringUpTo(agencyHours, advisorHours, last - 1) + BlocksForDay(agencyHours, advisorHours, last)
  }

  /** All weekly blocks of `generateUnavailableEvents`. */
  function RecurringBlocks(agencyHours: seq<BusinessHours>, advisorHours: seq<BusinessHours>): seq<Event> {
    RecurringUpTo(agencyHours, advisorHours, LastProbedDay)
  }

  /** The weekday loop of `generateUnavailableEvents`, pushing onto `events`. */
  method PushRecurringBlocks(agencyHours: seq<BusinessHours>, advisorHours: seq<BusinessHours>)
    returns (events: seq<Event>)
    ensures events == RecurringBlocks(agencyHours, advisorHours)
  {
    events := [];
    var day := FirstProbedDay;
    while day <= LastProbedDay
      invariant FirstProbedDay <= day <= LastProbedDay + 1
      invariant events == RecurringUpTo(agencyHours, advisorHours, day - 1)
    {
      events := PushDay(events, agencyHours, advisorHours, day);
      day := day + 1;
    }
  }

  /** One iteration of the weekday loop: find the first rule of each side for `day`,
      and push that day's blocks only when both exist. */
  method PushDay(events: seq<Event>, agencyHours: seq<BusinessHours>, advisorHours: seq<BusinessHours>, day: int)
    returns (pushed: seq<Event>)
    ensures pushed == events + BlocksForDay(agencyHours, advisorHours, day)
  {
    pushed := events;
    var agencyDayHours := FirstRuleFor(agencyHours, day);
    var advisorDayHours := FirstRuleFor(advisorHours, day);
    if agencyDayHours.Some? && advisorDayHours.Some? {
      pushed := PushDayBlocks(events, day, agencyDayHours.value, advisorDayHours.value);
    }
  }

  /** The pushes for `day` once both rules for it are found. */
  method PushDayBlocks(events: seq<Event>, day: int, agencyDayHours: BusinessHours, advisorDayHours: BusinessHours)
    returns (pushed: seq<Event>)
    ensures pushed == events + DayBlocks(day, agencyDayHours, advisorDayHours)
  {
    pushed := events;
    var agencyStart := TimeToMinutes(agencyDayHours.startTime);
    var agencyEnd := TimeToMinutes(agencyDayHours.endTime);
    var advisorStart := TimeToMinutes(advisorDayHours.startTime);
    var advisorEnd := TimeToMinutes(advisorDayHours.endTime);
    if Greater(advisorStart, agencyStart) {
      pushed := pushed + [Gap(day, agencyStart.value, advisorStart.value)];
    }
    if Greater(agencyEnd, advisorEnd) {
      pushed := pushed + [Gap(day, advisorEnd.value, agencyEnd.value)];
    }
  }

  // ---------------------------------------------------------------------------
  // Properties of the weekly blocks

  /** The recurring events tagged with exactly weekday `day`, in order. */
  function Tagged(events: seq<Event>, day: int): (r: seq<Event>)
    ensures |r| <= |events|
  {
    if events == [] then []
    else
      (if events[0].Recurring? && events[0].daysOfWeek == [day] then [events[0]] else [])
      + Tagged(events[1..], day)
  }

  lemma {:induction false} TaggedConcat(a: seq<Event>, b: seq<Event>, day: int)
    ensures Tagged(a + b, day) == Tagged(a, day) + Tagged(b, day)
    decreases |a|
  {
    if a != [] {
      assert (a + b)[1..] == a[1..] + b;
      TaggedConcat(a[1..], b, day);
    } else {
      assert a + b == b;
    }
  }

  /** A recurring event tagged with weekday `day` survives the filter. */
  lemma {:induction false} InTagged(events: seq<Event>, e: Event, day: int)
    requires e in events && e.Recurring? && e.daysOfWeek == [day]
    ensures e in Tagged(events, day)
    decreases |events|
  {
    if events[0] != e {
      assert e in events[1..];
      InTagged(events[1..], e, day);
    }
  }

  lemma DayBlocksTagged(agencyHours: seq<BusinessHours>, advisorHours: seq<BusinessHours>, x: int, day: int)
    ensures Tagged(BlocksForDay(agencyHours, advisorHours, x), day)
            == if x == day then BlocksForDay(agencyHours, advisorHours, x) else []
  {
    var bs := BlocksForDay(agencyHours, advisorHours, x);
    assert |bs| <= 2;
    if |bs| == 2 {
      assert bs == [bs[0]] + [bs[1]];
      TaggedConcat([bs[0]], [bs[1]], day);
    }
  }

  /** One more probed day adds that day's blocks to the selection for `day`. */
  lemma TaggedUpToStep(agencyHours: seq<BusinessHours>, advisorHours: seq<BusinessHours>, last: int, day: int)
    requires last >= FirstProbedDay
    ensures Tagged(RecurringUpTo(agencyHours, advisorHours, last), day)
            == Tagged(RecurringUpTo(agencyHours, advisorHours, last - 1), day)
               + Tagged(BlocksForDay(agencyHours, advisorHours, last), day)
  {
    TaggedConcat(RecurringUpTo(agencyHours, advisorHours, last - 1), BlocksForDay(agencyHours, advisorHours, last), day);
  }

  /** Among all weekly blocks, those tagged with `day` are exactly what that day's
      iteration pushed; days outside 1..7 get none. */
  lemma {:induction false} TaggedUpTo(agencyHours: seq<BusinessHours>, advisorHours: seq<BusinessHours>, last: int, day: int)
    ensures Tagged(RecurringUpTo(agencyHours, advisorHours, last), day)
            == if FirstProbedDay <= day <= last then BlocksForDay(agencyHours, advisorHours, day) else []
    decreases last
  {
    if last >= FirstProbedDay {
      TaggedUpToStep(agencyHours, advisorHours, last, day);
      TaggedUpTo(agencyHours, advisorHours, last - 1, day);
      DayBlocksTagged(agencyHours, advisorHours, last, day);
      var before := Tagged(RecurringUpTo(agencyHours, advisorHours, last - 1), day);
      var here := Tagged(BlocksForDay(agencyHours, advisorHours, last), day);
      if day == last {
        assert before + here == here by { assert before == []; }
      } else {
        assert before + here == before by { assert here == []; }
      }
    }
  }

  /** A weekday without an agency rule or without an advisor rule gets no weekly block. */
  lemma NoRuleNoBlock(agencyHours: seq<BusinessHours>, advisorHours: seq<BusinessHours>, day: int)
    requires (forall i :: 0 <= i < |agencyHours| ==> day !in agencyHours[i].daysOfWeek)
          || (forall i :: 0 <= i < |advisorHours| ==> day !in advisorHours[i].daysOfWeek)
    ensures Tagged(RecurringBlocks(agencyHours, advisorHours), day) == []
  {
    FirstRuleForSpec(agencyHours, day);
    FirstRuleForSpec(advisorHours, day);
    TaggedUpTo(agencyHours, advisorHours, LastProbedDay, day);
  }

  /** For a weekday with both rules, with a = the agency rule and v = the advisor rule
      found first: the before-gap [a.start, v.start] is emitted iff v starts later, the
      after-gap [v.end, a.end] iff v ends earlier, and nothing else is emitted for that
      weekday. */
  lemma DayGaps(agencyHours: seq<BusinessHours>, advisorHours: seq<BusinessHours>, day: int,
                agency: BusinessHours, advisor: BusinessHours)
    requires FirstProbedDay <= day <= LastProbedDay
    requires FirstRuleFor(agencyHours, day) == Some(agency) && FirstRuleFor(advisorHours, day) == Some(advisor)
    ensures var blocks := Tagged(RecurringBlocks(agencyHours, advisorHours), day);
            var agencyStart, agencyEnd := TimeToMinutes(agency.startTime), TimeToMinutes(agency.endTime);
            var advisorStart, advisorEnd := TimeToMinutes(advisor.startTime), TimeToMinutes(advisor.endTime);
            && |blocks| == (if Greater(advisorStart, agencyStart) then 1 else 0) + (if Greater(agencyEnd, advisorEnd) then 1 else 0)
            && (Greater(advisorStart, agencyStart) ==> blocks[0] == Gap(day, agencyStart.value, advisorStart.value))
            && (Greater(agencyEnd, advisorEnd) ==> blocks[|blocks| - 1] == Gap(day, advisorEnd.value, agencyEnd.value))
  {
    TaggedUpTo(agencyHours, advisorHours, LastProbedDay, day);
  }

  /** When the advisor's hours cover the agency's hours, the weekday gets no weekly block. */
  lemma CoveredDayHasNoBlock(agencyHours: seq<BusinessHours>, advisorHours: seq<BusinessHours>, day: int,
                             agency: BusinessHours, advisor: BusinessHours)
    requires FirstRuleFor(agencyHours, day) == Some(agency) && FirstRuleFor(advisorHours, day) == Some(advisor)
    requires !Greater(TimeToMinutes(advisor.startTime), TimeToMinutes(agency.startTime))
    requires !Greater(TimeToMinutes(agency.endTime), TimeToMinutes(advisor.endTime))
    ensures Tagged(RecurringBlocks(agencyHours, advisorHours), day) == []
  {
    TaggedUpTo(agencyHours, advisorHours, LastProbedDay, day);
  }

  /** Rules after the first one matching a weekday do not influence that weekday. */
  lemma LaterRulesIgnored(agencyHours: seq<BusinessHours>, advisorHours: seq<BusinessHours>,
                          extraAgency: seq<BusinessHours>, extraAdvisor: seq<BusinessHours>, day: int)
    requires exists i :: 0 <= i < |agencyHours| && day in agencyHours[i].daysOfWeek
    requires exists i :: 0 <= i < |advisorHours| && day in advisorHours[i].daysOfWeek
    ensures Tagged(RecurringBlocks(agencyHours + extraAgency, advisorHours + extraAdvisor), day)
            == Tagged(RecurringBlocks(agencyHours, advisorHours), day)
  {
    FirstRuleAppend(agencyHours, extraAgency, day);
    FirstRuleAppend(advisorHours, extraAdvisor, day);
    TaggedUpTo(agencyHours + extraAgency, advisorHours + extraAdvisor, LastProbedDay, day);
    TaggedUpTo(agencyHours, advisorHours, LastProbedDay, day);
  }

  lemma {:induction false} FirstRuleAppend(rules: seq<BusinessHours>, extra: seq<BusinessHours>, day: int)
    requires exists i :: 0 <= i < |rules| && day in rules[i].daysOfWeek
    ensures FirstRuleFor(rules + extra, day) == FirstRuleFor(rules, day)
    decreases |rules|
  {
    if day !in rules[0].daysOfWeek {
      var i :| 0 <= i < |rules| && day in rules[i].daysOfWeek;
      assert rules[1..][i - 1] == rules[i];
      assert (rules + extra)[1..] == rules[1..] + extra;
      FirstRuleAppend(rules[1..], extra, day);
    }
  }

  /** Every weekly block carries a single weekday in 1..7, the advisor-unavailable title,
      and bounds that read back as minutes with start < end. */
  predicate WellFormedGap(e: Event) {
    && e.Recurring?
    && |e.daysOfWeek| == 1 && FirstProbedDay <= e.daysOfWeek[0] <= LastProbedDay
    && e.title == AdvisorUnavailable
    && e.startMinutes < e.endMinutes
  }

  lemma {:induction false} RecurringUpToWellFormed(agencyHours: seq<BusinessHours>, advisorHours: seq<BusinessHours>, last: int)
    requires last <= LastProbedDay
    ensures forall e :: e in RecurringUpTo(agencyHours, advisorHours, last) ==> WellFormedGap(e)
    decreases last
  {
    if last >= FirstProbedDay {
      var earlier, blocks := RecurringUpTo(agencyHours, advisorHours, last - 1), BlocksForDay(agencyHours, advisorHours, last);
      assert RecurringUpTo(agencyHours, advisorHours, last) == earlier + blocks;
      RecurringUpToWellFormed(agencyHours, advisorHours, last - 1);
      BlocksForDayWellFormed(agencyHours, advisorHours, last);
    }
  }

  /** The blocks of one probed day are well formed: the gaps are only pushed when
      strictly positive. */
  lemma BlocksForDayWellFormed(agencyHours: seq<BusinessHours>, advisorHours: seq<BusinessHours>, day: int)
    requires FirstProbedDay <= day <= LastProbedDay
    ensures forall e :: e in BlocksForDay(agencyHours, advisorHours, day) ==> WellFormedGap(e)
  {
  }

  lemma RecurringBlocksWellFormed(agencyHours: seq<BusinessHours>, advisorHours: seq<BusinessHours>)
    ensures forall e :: e in RecurringBlocks(agencyHours, advisorHours) ==> WellFormedGap(e)
  {
    RecurringUpToWellFormed(agencyHours, advisorHours, LastProbedDay);
  }

  /** When no agency rule lists the last probed day, every block falls on one of the
      days before it. */
  lemma BlocksBeforeLastDay(agencyHours: seq<BusinessHours>, advisorHours: seq<BusinessHours>)
    requires forall i :: 0 <= i < |agencyHours| ==> LastProbedDay !in agencyHours[i].daysOfWeek
    ensures forall e :: e in RecurringBlocks(agencyHours, advisorHours) ==>
              e.Recurring? && |e.daysOfWeek| == 1 && FirstProbedDay <= e.daysOfWeek[0] < LastProbedDay
  {
    var blocks := RecurringBlocks(agencyHours, advisorHours);
    RecurringBlocksWellFormed(agencyHours, advisorHours);
    NoRuleNoBlock(agencyHours, advisorHours, LastProbedDay);
    forall e | e in blocks
      ensures e.daysOfWeek[0] != LastProbedDay
    {
      if e.daysOfWeek[0] == LastProbedDay {
        InTagged(blocks, e, LastProbedDay);
      }
    }
  }

  /** At most two weekly blocks per weekday. */
  lemma AtMostTwoPerDay(agencyHours: seq<BusinessHours>, advisorHours: seq<BusinessHours>, day: int)
    ensures |Tagged(RecurringBlocks(agencyHours, advisorHours), day)| <= 2
  {
    TaggedUpTo(agencyHours, advisorHours, LastProbedDay, day);
  }

  // ---------------------------------------------------------------------------
  // The `selectAllow` callback

  /** A moment in the browser's local time: the calendar day, counted from
      1970-01-01, and the minute within that day. */
  datatype Instant = Instant(day: int, minute: nat)

  /** `Date.prototype.getDay()`: 0 = Sunday; 1970-01-01 was a Thursday. */
  function Weekday(day: int): (w: int)
    ensures 0 <= w < 7
  {
    (day + 4) % 7
  }

  /** The selection starts no earlier than the rule's start time on that date; comparing
      with an invalid date is false. */
  predicate NotBefore(minute: nat, bound: Option<nat>) {
    bound.Some? && minute >= bound.value
  }

  /** The selection ends no later than the rule's end time on that date; comparing with
      an invalid date is false. */
  predicate NotAfter(minute: nat, bound: Option<nat>) {
    bound.Some? && minute <= bound.value
  }

  /** The callback given to `businessHours.some`: the rule lists the start's weekday
      and its hours contain the selection. */
  predicate RuleContains(rule: BusinessHours, start: Instant, end: Instant) {
    && Weekday(start.day) in rule.daysOfWeek
    && NotBefore(start.minute, TimeToMinutes(rule.startTime))
    && NotAfter(end.minute, TimeToMinutes(rule.endTime))
  }

  /** Whether some business-hours rule contains the selection, as `some` decides it. */
  function SomeRuleContains(rules: seq<BusinessHours>, start: Instant, end: Instant): (r: bool)
    ensures r <==> exists i :: 0 <= i < |rules| && RuleContains(rules[i], start, end)
  {
    if rules == [] then false
    else if RuleContains(rules[0], start, end) then true
    else
      var rest := SomeRuleContains(rules[1..], start, end);
      assert forall i :: 1 <= i < |rules| ==> rules[i] == rules[1..][i - 1];
      rest
  }

  /** `selectAllow`: false when start and end fall on different calendar dates,
      otherwise whether some business-hours rule contains the selection. */
  predicate SelectAllow(start: Instant, end: Instant, businessHours: seq<BusinessHours>) {
    if start.day != end.day then false else SomeRuleContains(businessHours, start, end)
  }
}
