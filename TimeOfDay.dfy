/** The browser scripts' `timeToMinutes` and `minutesToTime`, which convert
    between "HH:MM" strings and minutes since midnight. Both calendar scripts
    carry identical copies of the two functions. */
module TimeOfDay {

  import opened Wrappers
  import opened Decimal

  /** JavaScript `s.split(':')`: the pieces between colons, always at least one. */
  function SplitColon(s: string): (parts: seq<string>)
    ensures |parts| >= 1
  {
    if s == [] then [""]
    else
      var rest := SplitColon(s[1..]);
      if s[0] == ':' then [""] + rest else [[s[0]] + rest[0]] + rest[1..]
  }

  /** JavaScript `Number(s)` on the strings this model represents: a digit string
      (the empty one reads as 0). Any other string is treated as NaN here. */
  function JsNumber(s: string): (r: Option<nat>)
    ensures r.Some? <==> AllDigits(s)
  {
    if AllDigits(s) then Some(ParseDigits(s)) else None
  }

  /** `timeToMinutes`: the parts before and after the first colon, read as numbers, give
      hours times 60 plus minutes.
      None stands for NaN: a missing minutes part or a part that is not a number. */
  function TimeToMinutes(time: string): Option<nat> {
    var parts := SplitColon(time);
    if |parts| < 2 then None
    else
      var hours, mins := JsNumber(parts[0]), JsNumber(parts[1]);
      if hours.Some? && mins.Some? then Some(hours.value * 60 + mins.value) else None
  }

  /** `minutesToTime`: whole hours and the remaining minutes, each zero-padded to two
      digits, around a colon. */
  function MinutesToTime(minutes: nat): string {
    PadStart(NatToString(minutes / 60), 2, '0') + ":" + PadStart(NatToString(minutes % 60), 2, '0')
  }

  /** A canonical clock string "HH:MM" with two digits on each side and MM < 60. */
  predicate IsClock(s: string) {
    |s| == 5 && s[2] == ':' && AllDigits(s[..2]) && AllDigits(s[3..]) && ParseDigits(s[3..]) < 60
  }

  lemma {:induction false} SplitNoColon(s: string)
    requires ':' !in s
    ensures SplitColon(s) == [s]
    decreases |s|
  {
    if s != [] {
      assert s[1..] == s[1..];
      assert ':' !in s[1..] by {
        forall i | 0 <= i < |s[1..]| ensures s[1..][i] != ':' { assert s[1..][i] == s[i + 1]; }
      }
      SplitNoColon(s[1..]);
      assert [s[0]] + s[1..] == s;
    }
  }

  lemma {:induction false} SplitAtColon(a: string, b: string)
    requires ':' !in a
    ensures SplitColon(a + ":" + b) == [a] + SplitColon(b)
    decreases |a|
  {
    if a == [] {
      assert a + ":" + b == [':'] + b;
      assert ([':'] + b)[1..] == b;
    } else {
      var s := a + ":" + b;
      assert s[0] == a[0];
      assert s[1..] == a[1..] + ":" + b;
      assert ':' !in a[1..] by {
        forall i | 0 <= i < |a[1..]| ensures a[1..][i] != ':' { assert a[1..][i] == a[i + 1]; }
      }
      SplitAtColon(a[1..], b);
      assert [a[0]] + a[1..] == a;
    }
  }

  lemma DigitsHaveNoColon(s: string)
    requires AllDigits(s)
    ensures ':' !in s
  {
  }

  lemma DivModSixty(h: nat, m: nat)
    requires m < 60
    ensures (h * 60 + m) / 60 == h && (h * 60 + m) % 60 == m
  {
    var n := h * 60 + m;
    var q, r := n / 60, n % 60;
    assert n == q * 60 + r && 0 <= r < 60;
    assert (q - h) * 60 == m - r;
  }

  /** `timeToMinutes("HH:MM")` is `HH * 60 + MM` for any digit strings on either side of the colon. */
  lemma ClockValue(hh: string, mm: string)
    requires AllDigits(hh) && AllDigits(mm)
    ensures TimeToMinutes(hh + ":" + mm) == Some(ParseDigits(hh) * 60 + ParseDigits(mm))
  {
    DigitsHaveNoColon(hh);
    DigitsHaveNoColon(mm);
    SplitAtColon(hh, mm);
    SplitNoColon(mm);
    TwoParts(hh + ":" + mm, hh, mm);
  }

  lemma TwoParts(time: string, hh: string, mm: string)
    requires SplitColon(time) == [hh, mm] && AllDigits(hh) && AllDigits(mm)
    ensures TimeToMinutes(time) == Some(ParseDigits(hh) * 60 + ParseDigits(mm))
  {
    var parts := SplitColon(time);
    assert parts[0] == hh && parts[1] == mm;
    assert JsNumber(parts[0]) == Some(ParseDigits(hh));
    assert JsNumber(parts[1]) == Some(ParseDigits(mm));
  }

  /** Reading back what `minutesToTime` wrote gives the same number of minutes, for every
      non-negative count (hours of three or more digits included). */
  lemma MinutesRoundTrip(m: nat)
    ensures TimeToMinutes(MinutesToTime(m)) == Some(m)
  {
    var hh := PadStart(NatToString(m / 60), 2, '0');
    var mm := PadStart(NatToString(m % 60), 2, '0');
    PaddedNatParses(m / 60, 2);
    PaddedNatParses(m % 60, 2);
    ClockValue(hh, mm);
  }

  /** Below 100 hours, `minutesToTime` writes exactly two digits on each side of the colon. */
  lemma MinutesToTimeIsClock(m: nat)
    requires m < 6000
    ensures IsClock(MinutesToTime(m))
  {
    var hh := PadStart(NatToString(m / 60), 2, '0');
    var mm := PadStart(NatToString(m % 60), 2, '0');
    assert m / 60 < Pow10(2) && m % 60 < Pow10(2) by { assert Pow10(2) == 100; }
    NatToStringLength(m / 60, 2);
    NatToStringLength(m % 60, 2);
    PaddedNatParses(m / 60, 2);
    PaddedNatParses(m % 60, 2);
    var s := MinutesToTime(m);
    assert s[..2] == hh && s[3..] == mm;
  }

  /** `minutesToTime` inverts `timeToMinutes` on canonical clock strings. */
  lemma ClockRoundTrip(s: string)
    requires IsClock(s)
    ensures TimeToMinutes(s).Some?
    ensures MinutesToTime(TimeToMinutes(s).value) == s
  {
    var hh, mm := s[..2], s[3..];
    assert s == hh + ":" + mm;
    ClockValue(hh, mm);
    var h, mi := ParseDigits(hh), ParseDigits(mm);
    DivModSixty(h, mi);
    TwoDigitsCanonical(hh);
    TwoDigitsCanonical(mm);
  }
}
