/** `formatWorkingHours` of the add form: turns an office-hours field (one item per
    delta, hours as integers HHMM) into the business-hours rules the calendar
    scripts consume. */
module WorkingHours {

  import opened Wrappers
  import opened Decimal
  import opened PhpValues
  import opened TimeOfDay
  import opened Calendar

  /** One item of the field; its delta is its position in the list. */
  datatype OfficeHoursItem = OfficeHoursItem(starthours: Value, endhours: Value)

  /** `$formatTime`: left-pad to four characters with '0', then the first two and the
      next two characters around a colon. */
  function FormatTime(time: Value): string {
    var timeStr := PadStart(PhpString(time), 4, '0');
    timeStr[..2] + ":" + timeStr[2..4]
  }

  /** The weekday a delta is mapped to: the delta plus eight, modulo seven. */
  function DayOf(delta: nat): int {
    (delta + 8) % 7
  }

  /** Both hours must be non-empty for the item to be kept. */
  predicate Kept(item: OfficeHoursItem) {
    !Empty(item.starthours) && !Empty(item.endhours)
  }

  function FormatItem(delta: nat, item: OfficeHoursItem): BusinessHours {
    BusinessHours([DayOf(delta)], FormatTime(item.starthours), FormatTime(item.endhours))
  }

  /** The rules produced by the first `n` items. */
  function FormattedUpTo(items: seq<OfficeHoursItem>, n: nat): seq<BusinessHours>
    requires n <= |items|
  {
    if n == 0 then []
    else FormattedUpTo(items, n - 1) + (if Kept(items[n - 1]) then [FormatItem(n - 1, items[n - 1])] else [])
  }

  function FormattedHours(items: seq<OfficeHoursItem>): seq<BusinessHours> {
    FormattedUpTo(items, |items|)
  }

  /** The `foreach` over the field's items, appending to `$formatted_hours`. */
  method FormatWorkingHours(workingHours: seq<OfficeHoursItem>) returns (formattedHours: seq<BusinessHours>)
    ensures formattedHours == FormattedHours(workingHours)
  {
    formattedHours := [];
    for day := 0 to |workingHours|
      invariant formattedHours == FormattedUpTo(workingHours, day)
    {
      var hours := workingHours[day];
      assert FormattedUpTo(workingHours, day + 1)
             == FormattedUpTo(workingHours, day) + (if Kept(hours) then [FormatItem(day, hours)] else []);
      if Kept(hours) {
        formattedHours := formattedHours + [FormatItem(day, hours)];
      }
    }
  }

  /** The deltas, below `n`, of the items that are kept, in increasing order. */
  function KeptDeltas(items: seq<OfficeHoursItem>, n: nat): seq<nat>
    requires n <= |items|
  {
    if n == 0 then []
    else KeptDeltas(items, n - 1) + (if Kept(items[n - 1]) then [n - 1] else [])
  }

  /** The kept deltas are increasing, below `n`, and exactly the deltas of kept items. */
  lemma {:induction false} KeptDeltasSpec(items: seq<OfficeHoursItem>, n: nat)
    requires n <= |items|
    ensures var ks := KeptDeltas(items, n);
            && |ks| <= n
            && (forall j :: 0 <= j < |ks| ==> ks[j] < n)
            && (forall j, k :: 0 <= j < k < |ks| ==> ks[j] < ks[k])
            && (forall d: nat :: d in ks <==> d < n && Kept(items[d]))
  {
    if n > 0 {
      KeptDeltasSpec(items, n - 1);
    }
  }

  /** The output is exactly the kept items, formatted, in input order. */
  lemma {:induction false} FormattedIsKeptInOrder(items: seq<OfficeHoursItem>, n: nat)
    requires n <= |items|
    ensures var ks := KeptDeltas(items, n);
            && (forall j :: 0 <= j < |ks| ==> ks[j] < n)
            && |FormattedUpTo(items, n)| == |ks|
            && forall j :: 0 <= j < |ks| ==> FormattedUpTo(items, n)[j] == FormatItem(ks[j], items[ks[j]])
  {
    KeptDeltasSpec(items, n);
    if n > 0 {
      FormattedIsKeptInOrder(items, n - 1);
      var prev, ks := FormattedUpTo(items, n - 1), KeptDeltas(items, n - 1);
      var out, ks' := FormattedUpTo(items, n), KeptDeltas(items, n);
      var extra := if Kept(items[n - 1]) then [FormatItem(n - 1, items[n - 1])] else [];
      assert out == prev + extra;
      assert ks' == ks + if Kept(items[n - 1]) then [n - 1] else [];
      forall j | 0 <= j < |ks'|
        ensures out[j] == FormatItem(ks'[j], items[ks'[j]])
      {
        if j < |ks| {
          assert out[j] == prev[j] && ks'[j] == ks[j];
        }
      }
    }
  }

  /** Every emitted rule lists exactly one weekday, and that weekday lies in 0..6. */
  lemma DaysInRange(items: seq<OfficeHoursItem>)
    ensures forall r :: r in FormattedHours(items) ==> |r.daysOfWeek| == 1 && 0 <= r.daysOfWeek[0] <= 6
  {
    var out := FormattedHours(items);
    FormattedIsKeptInOrder(items, |items|);
    forall r | r in out
      ensures |r.daysOfWeek| == 1 && 0 <= r.daysOfWeek[0] <= 6
    {
      var j :| 0 <= j < |out| && out[j] == r;
    }
  }

  /** An item with an empty start or end, including the integer 0 (midnight), is
      dropped. */
  lemma EmptyHoursDropped(items: seq<OfficeHoursItem>, delta: nat)
    requires delta < |items|
    requires Empty(items[delta].starthours) || Empty(items[delta].endhours)
    ensures FormattedUpTo(items, delta + 1) == FormattedUpTo(items, delta)
  {
  }

  lemma NatExamples()
    ensures NatToString(830) == "830" && NatToString(1700) == "1700"
  {
    NatToStringTwoDigits(8, 3);
    DivModTen(83, 0);
    NatToStringTwoDigits(1, 7);
    DivModTen(17, 0);
    DivModTen(170, 0);
  }

  /** 830 becomes "08:30". */
  lemma FormatHalfPastEight()
    ensures FormatTime(Int(830)) == "08:30"
  {
    NatExamples();
    assert PadStart("830", 4, '0') == "0830";
  }

  /** 1700 becomes "17:00". */
  lemma FormatFivePm()
    ensures FormatTime(Int(1700)) == "17:00"
  {
    NatExamples();
  }

  /** Splitting four digits after the second one divides their value by 100. */
  lemma SplitFourDigits(t: string)
    requires |t| == 4 && AllDigits(t)
    ensures AllDigits(t[..2]) && AllDigits(t[2..])
    ensures ParseDigits(t[..2]) == ParseDigits(t) / 100 && ParseDigits(t[2..]) == ParseDigits(t) % 100
  {
    var hh, mm := t[..2], t[2..];
    assert t == hh + mm;
    ParseConcat(hh, mm);
    ParseBound(mm);
    assert Pow10(2) == 100 by { assert Pow10(1) == 10; }
    var hi, lo := ParseDigits(hh), ParseDigits(mm);
    assert ParseDigits(t) == hi * 100 + lo;
    var q, r := ParseDigits(t) / 100, ParseDigits(t) % 100;
    assert (q - hi) * 100 == lo - r;
  }

  /** The padded string of a number below 10000 is four digits that read back as it. */
  lemma PaddedFour(h: nat)
    requires h < 10000
    ensures var t := PadStart(NatToString(h), 4, '0');
            |t| == 4 && AllDigits(t) && ParseDigits(t) == h
  {
    assert Pow10(4) == 10000 by { assert Pow10(2) == 100 by { assert Pow10(1) == 10; } }
    NatToStringLength(h, 4);
    PaddedNatParses(h, 4);
  }

  /** An integer hour HHMM below 10000 formats as two digits reading HH, a colon, and two
      digits reading MM. */
  lemma FormatTimeDigits(h: nat)
    requires h < 10000
    ensures var r := FormatTime(Int(h));
            && |r| == 5 && r[2] == ':'
            && AllDigits(r[..2]) && ParseDigits(r[..2]) == h / 100
            && AllDigits(r[3..]) && ParseDigits(r[3..]) == h % 100
  {
    var t := PadStart(NatToString(h), 4, '0');
    PaddedFour(h);
    SplitFourDigits(t);
    var r := FormatTime(Int(h));
    assert r == t[..2] + ":" + t[2..4];
    assert r[..2] == t[..2];
    assert r[3..] == t[2..4] == t[2..];
  }

  /** The calendar script reads a formatted hour back as the minutes it denotes:
      `HHMM` with MM below 60 is HH*60 + MM minutes. */
  lemma FormattedTimeMinutes(h: nat)
    requires h < 10000 && h % 100 < 60
    ensures TimeToMinutes(FormatTime(Int(h))) == Some((h / 100) * 60 + h % 100)
  {
    var r := FormatTime(Int(h));
    FormatTimeDigits(h);
    assert r == r[..2] + ":" + r[3..];
    ClockValue(r[..2], r[3..]);
  }

  /** Fed with formatted hours, the block generator never emits a block for Sunday
      (weekday 0, which it never probes) nor for weekday 7 (which no formatted rule
      lists): every weekly block falls on Monday..Saturday. */
  lemma BlocksOnMondayToSaturday(agencyItems: seq<OfficeHoursItem>, advisorItems: seq<OfficeHoursItem>)
    ensures var blocks := RecurringBlocks(FormattedHours(agencyItems), FormattedHours(advisorItems));
            forall e :: e in blocks ==> e.Recurring? && |e.daysOfWeek| == 1 && 1 <= e.daysOfWeek[0] <= 6
  {
    var agency, advisor := FormattedHours(agencyItems), FormattedHours(advisorItems);
    DaysInRange(agencyItems);
    forall i | 0 <= i < |agency|
      ensures LastProbedDay !in agency[i].daysOfWeek
    {
      assert agency[i] in agency;
    }
    BlocksBeforeLastDay(agency, advisor);
  }
}
