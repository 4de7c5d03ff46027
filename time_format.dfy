/**
 * The clock-time formatter of the widget, in its two variants: the content
 * script's `formatTime`, which pads every field to two digits, and the
 * background page's `formatTime`, which prints the hour as it is. Both map
 * the hour onto the 12-hour dial with `hour % 12 || 12` and append " AM" or
 * " PM" in 12-hour mode only.
 *
 * `ParseClock` reads a formatted clock face back; the round-trip lemmas below
 * show that each variant prints exactly the hour, minute, second and
 * meridiem it was meant to print.
 */
module TimeFormat {
  import opened Optional

  /** One answer of the remote time service. */
  datatype TimeSample = TimeSample(year: int, month: int, day: int, hour: int, minute: int, seconds: int)

  const TimePlaceholder := "--:--:--"
  const DatePlaceholder := "--/--/----"

  // ---------------------------------------------------------------------
  // Decimal text of integers (Number.prototype.toString) and padStart
  // ---------------------------------------------------------------------

  predicate IsDigit(c: char) { '0' <= c <= '9' }

  predicate AllDigits(s: string) { forall i :: 0 <= i < |s| ==> IsDigit(s[i]) }

  /** A non-empty run of decimal digits. */
  predicate IsDigits(s: string) { |s| > 0 && AllDigits(s) }

  function DigitChar(d: nat): (c: char)
    requires d < 10
    ensures IsDigit(c) && c as int - '0' as int == d
  {
    ('0' as int + d) as char
  }

  /** The decimal digits of `n`, most significant first, without leading zeros. */
  function Digits(n: nat): (r: string)
    ensures IsDigits(r)
    ensures |r| == 1 <==> n < 10
  {
    if n < 10 then [DigitChar(n)] else Digits(n / 10) + [DigitChar(n % 10)]
  }

  /** From ten on, the first digit is not a zero. */
  lemma {:induction false} DigitsNoLeadingZero(n: nat)
    requires n >= 10
    ensures Digits(n)[0] != '0'
  {
    var head := Digits(n / 10);
    assert Digits(n)[0] == head[0];
    if n / 10 >= 10 {
      DigitsNoLeadingZero(n / 10);
    }
  }

  /** The number a run of decimal digits denotes; leading zeros count for nothing. */
  function ParseDigits(s: string): nat
    requires AllDigits(s)
  {
    if s == [] then 0 else 10 * ParseDigits(s[..|s| - 1]) + (s[|s| - 1] as int - '0' as int)
  }

  lemma {:induction false} DigitsRoundTrip(n: nat)
    ensures ParseDigits(Digits(n)) == n
  {
    if n >= 10 {
      var s := Digits(n);
      assert s[..|s| - 1] == Digits(n / 10);
      DigitsRoundTrip(n / 10);
    }
  }

  /** `k` copies of `c`. */
  function Repeat(c: char, k: nat): (r: string)
    ensures |r| == k
  {
    if k == 0 then [] else Repeat(c, k - 1) + [c]
  }

  lemma {:induction false} LeadingZerosIgnored(k: nat, s: string)
    requires AllDigits(s)
    ensures AllDigits(Repeat('0', k) + s)
    ensures ParseDigits(Repeat('0', k) + s) == ParseDigits(s)
    decreases |s|
  {
    var z := Repeat('0', k);
    if s == [] {
      assert z + s == z;
      ZerosDenoteZero(k);
    } else {
      var init := s[..|s| - 1];
      assert (z + s)[..|z + s| - 1] == z + init;
      assert (z + s)[|z + s| - 1] == s[|s| - 1];
      LeadingZerosIgnored(k, init);
    }
  }

  lemma {:induction false} ZerosDenoteZero(k: nat)
    ensures AllDigits(Repeat('0', k))
    ensures ParseDigits(Repeat('0', k)) == 0
  {
    if k > 0 {
      var z := Repeat('0', k);
      assert z[..k - 1] == Repeat('0', k - 1);
      ZerosDenoteZero(k - 1);
    }
  }

  /** The text of an integer: its digits, after a minus sign when it is negative. */
  function NumberText(n: int): (r: string)
    ensures |r| > 0
  {
    if n < 0 then "-" + Digits(-n) else Digits(n)
  }

  /** A minus sign leads exactly the negative numbers, and the text ends in a digit. */
  lemma NumberTextSign(n: int)
    ensures NumberText(n)[0] == '-' <==> n < 0
    ensures IsDigit(NumberText(n)[|NumberText(n)| - 1])
  {
  }

  /** The text of a non-negative number reads back as that number. */
  lemma NumberTextDenotes(n: int)
    requires n >= 0
    ensures ParseDigits(NumberText(n)) == n
  {
    DigitsRoundTrip(n);
  }

  /** String.prototype.padStart with a one-character filler. */
  function PadStart(s: string, width: nat, fill: char): (r: string)
    ensures |r| == if |s| >= width then |s| else width
  {
    if |s| >= width then s else Repeat(fill, width - |s|) + s
  }

  /** padStart keeps the text at the end and puts only filler in front of it. */
  lemma {:induction false} PadStartFill(s: string, width: nat, fill: char)
    ensures var r := PadStart(s, width, fill);
      r[|r| - |s|..] == s && forall i :: 0 <= i < |r| - |s| ==> r[i] == fill
  {
    if |s| < width {
      RepeatAll(fill, width - |s|);
    }
  }

  lemma {:induction false} RepeatAll(c: char, k: nat)
    ensures forall i :: 0 <= i < k ==> Repeat(c, k)[i] == c
  {
    if k > 0 {
      RepeatAll(c, k - 1);
    }
  }

  /** `n.toString().padStart(2, '0')`. */
  function Pad2(n: int): (r: string)
    ensures |r| >= 2
    ensures 0 <= n < 100 ==> |r| == 2
  {
    PadStart(NumberText(n), 2, '0')
  }

  /** A padded non-negative number still reads back as itself. */
  lemma Pad2Denotes(n: int)
    requires n >= 0
    ensures IsDigits(Pad2(n)) && ParseDigits(Pad2(n)) == n
  {
    var s := NumberText(n);
    NumberTextDenotes(n);
    if |s| < 2 {
      assert Pad2(n) == Repeat('0', 2 - |s|) + s;
      LeadingZerosIgnored(2 - |s|, s);
    } else {
      assert Pad2(n) == s;
    }
  }

  // ---------------------------------------------------------------------
  // The 12-hour dial
  // ---------------------------------------------------------------------

  /** JavaScript's `hour % 12`: the remainder of a division truncated towards zero. */
  function JsRemainder12(a: int): (r: int)
    ensures -12 < r < 12
    ensures a >= 0 ==> r >= 0
    ensures a <= 0 ==> r <= 0
    ensures (a - r) % 12 == 0
  {
    if a >= 0 then
      var q := a / 12;
      assert a - a % 12 == 12 * q;
      a % 12
    else
      var q := (-a) / 12;
      assert a + (-a) % 12 == -12 * q;
      -((-a) % 12)
  }

  /** `hour % 12 || 12`: a zero remainder is falsy and becomes 12. */
  function Hour12(hour: int): (r: int)
    ensures r != 0
    ensures hour >= 0 ==> 1 <= r <= 12 && r % 12 == hour % 12
  {
    var m := JsRemainder12(hour);
    if m != 0 then m else 12
  }

  /** The hour shown on the dial: as it is in 24-hour mode, on the 12-hour dial otherwise. */
  function DisplayedHour(hour: int, format24h: bool): (r: int)
    ensures format24h ==> r == hour
    ensures !format24h && hour >= 0 ==> 1 <= r <= 12
  {
    if format24h then hour else Hour12(hour)
  }

  datatype Meridiem = NoMeridiem | AM | PM

  /** No meridiem in 24-hour mode; " PM" from noon on, " AM" before. */
  function MeridiemOf(hour: int, format24h: bool): (r: Meridiem)
    ensures r == NoMeridiem <==> format24h
    ensures r == PM <==> !format24h && hour >= 12
  {
    if format24h then NoMeridiem else if hour >= 12 then PM else AM
  }

  function MeridiemText(m: Meridiem): string
  {
    match m
    case NoMeridiem => ""
    case AM => " AM"
    case PM => " PM"
  }

  /** `${hours}:${minutes}:${seconds}${ampm}` for an already rendered hour field. */
  function Compose(hours: string, t: TimeSample, format24h: bool): string
  {
    hours + AfterHour(t, format24h)
  }

  /** Everything a clock face shows after its hour field. */
  function AfterHour(t: TimeSample, format24h: bool): string
  {
    ":" + Pad2(t.minute) + ":" + Pad2(t.seconds) + MeridiemText(MeridiemOf(t.hour, format24h))
  }

  // ---------------------------------------------------------------------
  // The two variants of formatTime, and formatDate's guard
  // ---------------------------------------------------------------------

  /**
   * The content script's `formatTime`: a missing sample gives the
   * placeholder; otherwise every field, the hour included, is padded.
   */
  function FormatTime(data: Option<TimeSample>, format24h: bool): (r: string)
    ensures data.None? ==> r == TimePlaceholder
    ensures data.Some? ==> |r| >= 8
  {
    match data
    case None => TimePlaceholder
    case Some(t) => Compose(Pad2(DisplayedHour(t.hour, format24h)), t, format24h)
  }

  /**
   * The background page's `formatTime`: the hour is printed without
   * padding. It has no guard for a missing sample; its one caller passes
   * only samples that are present.
   */
  function FormatTimeUnpadded(t: TimeSample, format24h: bool): (r: string)
    ensures |r| >= 7
  {
    Compose(NumberText(DisplayedHour(t.hour, format24h)), t, format24h)
  }

  /**
   * The content script's `formatDate`: a missing sample gives the
   * placeholder; a present one is rendered by the host's French locale,
   * which is passed in as `localeDate`.
   */
  function FormatDate(data: Option<TimeSample>, localeDate: TimeSample -> string): (r: string)
    ensures data.None? ==> r == DatePlaceholder
    ensures data.Some? ==> r == localeDate(data.value)
  {
    match data
    case None => DatePlaceholder
    case Some(t) => localeDate(t)
  }

  // ---------------------------------------------------------------------
  // Reading a clock face back
  // ---------------------------------------------------------------------

  /** What a clock face shows. */
  datatype ClockFace = ClockFace(hour: nat, minute: nat, second: nat, meridiem: Meridiem)

  predicate EndsWith(s: string, suffix: string)
  {
    |s| >= |suffix| && s[|s| - |suffix|..] == suffix
  }

  /** Splits `s` at the first occurrence of `sep`. */
  function SplitFirst(s: string, sep: char): Option<(string, string)>
  {
    if s == [] then None
    else if s[0] == sep then Some(([], s[1..]))
    else match SplitFirst(s[1..], sep)
      case None => None
      case Some(parts) => Some(([s[0]] + parts.0, parts.1))
  }

  function StripMeridiem(s: string): (string, Meridiem)
  {
    if EndsWith(s, " AM") then (s[..|s| - 3], AM)
    else if EndsWith(s, " PM") then (s[..|s| - 3], PM)
    else (s, NoMeridiem)
  }

  /** Reads `H:M:S`, each field a run of digits. */
  function ParseFields(body: string): Option<(nat, nat, nat)>
  {
    match SplitFirst(body, ':')
    case None => None
    case Some((hh, rest)) =>
      match SplitFirst(rest, ':')
      case None => None
      case Some((mm, ss)) =>
        if IsDigits(hh) && IsDigits(mm) && IsDigits(ss)
        then Some((ParseDigits(hh), ParseDigits(mm), ParseDigits(ss)))
        else None
  }

  /** Reads `H:M:S` with an optional " AM"/" PM". */
  function ParseClock(s: string): Option<ClockFace>
  {
    var (body, m) := StripMeridiem(s);
    match ParseFields(body)
    case None => None
    case Some((h, mi, se)) => Some(ClockFace(h, mi, se, m))
  }

  lemma {:induction false} SplitAfterDigits(a: string, b: string)
    requires AllDigits(a)
    ensures SplitFirst(a + (":" + b), ':') == Some((a, b))
  {
    if a != [] {
      assert (a + (":" + b))[1..] == a[1..] + (":" + b);
      SplitAfterDigits(a[1..], b);
      assert [a[0]] + a[1..] == a;
    } else {
      assert a + (":" + b) == ":" + b;
      assert (":" + b)[1..] == b;
    }
  }

  /** After a digit, " AM" or " PM" is at the end exactly when that meridiem was appended. */
  lemma SuffixAfterDigit(body: string, m: Meridiem)
    requires |body| > 0 && IsDigit(body[|body| - 1])
    ensures EndsWith(body + MeridiemText(m), " AM") <==> m == AM
    ensures EndsWith(body + MeridiemText(m), " PM") <==> m == PM
  {
    var s := body + MeridiemText(m);
    match m
    case NoMeridiem =>
      assert s == body;
      assert s[|s| - 1] != 'M';
    case AM =>
      assert s[|s| - 3..] == " AM";
    case PM =>
      assert s[|s| - 3..] == " PM";
  }

  lemma StripMeridiemAfterDigit(body: string, m: Meridiem)
    requires |body| > 0 && IsDigit(body[|body| - 1])
    ensures StripMeridiem(body + MeridiemText(m)) == (body, m)
  {
    SuffixAfterDigit(body, m);
    var s := body + MeridiemText(m);
    if m != NoMeridiem {
      assert s[..|s| - 3] == body;
    } else {
      assert s == body;
    }
  }

  lemma ComposeMeridiem(hours: string, t: TimeSample, format24h: bool)
    ensures var r := Compose(hours, t, format24h);
      (format24h ==> !EndsWith(r, " AM") && !EndsWith(r, " PM")) &&
      (!format24h ==> (EndsWith(r, " PM") <==> t.hour >= 12) && (EndsWith(r, " AM") <==> t.hour < 12))
  {
    var m := MeridiemOf(t.hour, format24h);
    var pre := ":" + Pad2(t.minute) + ":" + Pad2(t.seconds);
    assert AfterHour(t, format24h) == pre + MeridiemText(m);
    SuffixAfterDigit(pre, m);
    EndsWithAppend(hours, AfterHour(t, format24h), " AM");
    EndsWithAppend(hours, AfterHour(t, format24h), " PM");
  }

  lemma EndsWithAppend(a: string, x: string, suffix: string)
    requires |x| >= |suffix|
    ensures EndsWith(a + x, suffix) <==> EndsWith(x, suffix)
  {
    assert (a + x)[|a + x| - |suffix|..] == x[|x| - |suffix|..];
  }

  /**
   * Content script: no suffix in 24-hour mode; in 12-hour mode the face ends
   * in " PM" exactly when the hour is 12 or more, and in " AM" otherwise.
   */
  lemma FormatTimeMeridiem(t: TimeSample, format24h: bool)
    ensures var r := FormatTime(Some(t), format24h);
      (format24h ==> !EndsWith(r, " AM") && !EndsWith(r, " PM")) &&
      (!format24h ==> (EndsWith(r, " PM") <==> t.hour >= 12) && (EndsWith(r, " AM") <==> t.hour < 12))
  {
    ComposeMeridiem(Pad2(DisplayedHour(t.hour, format24h)), t, format24h);
  }

  /** Background page: the same meridiem rule as the content script. */
  lemma FormatTimeUnpaddedMeridiem(t: TimeSample, format24h: bool)
    ensures var r := FormatTimeUnpadded(t, format24h);
      (format24h ==> !EndsWith(r, " AM") && !EndsWith(r, " PM")) &&
      (!format24h ==> (EndsWith(r, " PM") <==> t.hour >= 12) && (EndsWith(r, " AM") <==> t.hour < 12))
  {
    ComposeMeridiem(NumberText(DisplayedHour(t.hour, format24h)), t, format24h);
  }

  /**
   * Content script: when the displayed hour, the minute and the second each
   * fit in two digits, the face is exactly `HH:MM:SS` followed by the suffix.
   */
  lemma FormatTimeShape(t: TimeSample, format24h: bool)
    requires t.hour >= 0 && (format24h ==> t.hour < 100)
    requires 0 <= t.minute < 100 && 0 <= t.seconds < 100
    ensures var r := FormatTime(Some(t), format24h);
      var suffix := MeridiemText(MeridiemOf(t.hour, format24h));
      |r| == 8 + |suffix| && r[2] == ':' && r[5] == ':' &&
      IsDigits(r[0..2]) && IsDigits(r[3..5]) && IsDigits(r[6..8]) && r[8..] == suffix
  {
    var h := DisplayedHour(t.hour, format24h);
    assert 0 <= h < 100;
    var hh, mm, ss := Pad2(h), Pad2(t.minute), Pad2(t.seconds);
    Pad2Denotes(h);
    Pad2Denotes(t.minute);
    Pad2Denotes(t.seconds);
    var suffix := MeridiemText(MeridiemOf(t.hour, format24h));
    assert FormatTime(Some(t), format24h) == hh + (":" + mm + ":" + ss + suffix);
    FieldLayout(hh, mm, ss, suffix);
  }

  lemma FieldLayout(hh: string, mm: string, ss: string, suffix: string)
    requires |hh| == 2 && |mm| == 2 && |ss| == 2
    ensures var r := hh + (":" + mm + ":" + ss + suffix);
      |r| == 8 + |suffix| && r[2] == ':' && r[5] == ':' &&
      r[0..2] == hh && r[3..5] == mm && r[6..8] == ss && r[8..] == suffix
  {
  }

  /** Below ten the padded hour gains one zero; from ten on padding changes nothing. */
  lemma Pad2OfHour(h: int)
    requires h >= 0
    ensures h < 10 ==> Pad2(h) == "0" + NumberText(h)
    ensures h >= 10 ==> Pad2(h) == NumberText(h)
  {
    var text := NumberText(h);
    assert text == Digits(h);
    if h < 10 {
      assert |text| == 1;
      assert Repeat('0', 1) == "0";
    } else {
      assert |text| >= 2;
    }
  }

  /**
   * The two variants agree exactly when the displayed hour has two digits;
   * below ten, the content script's face is the background page's with a
   * leading zero.
   */
  lemma VariantsDiffer(t: TimeSample, format24h: bool)
    requires t.hour >= 0
    ensures var h := DisplayedHour(t.hour, format24h);
      (FormatTime(Some(t), format24h) == FormatTimeUnpadded(t, format24h) <==> h >= 10) &&
      (h < 10 ==> FormatTime(Some(t), format24h) == "0" + FormatTimeUnpadded(t, format24h))
  {
    var h := DisplayedHour(t.hour, format24h);
    var text, padded, tail := NumberText(h), Pad2(h), AfterHour(t, format24h);
    assert FormatTime(Some(t), format24h) == padded + tail;
    assert FormatTimeUnpadded(t, format24h) == text + tail;
    Pad2OfHour(h);
    PrefixedFace(padded, text, tail, h < 10);
  }

  lemma PrefixedFace(padded: string, text: string, tail: string, small: bool)
    requires small ==> padded == "0" + text
    requires !small ==> padded == text
    ensures (padded + tail == text + tail) <==> !small
    ensures small ==> padded + tail == "0" + (text + tail)
  {
    if small {
      assert |padded + tail| != |text + tail|;
    }
  }

  lemma MinuteSecondExample(hour: int, format24h: bool)
    ensures AfterHour(TimeSample(2024, 5, 1, hour, 5, 7), format24h)
         == ":05:07" + MeridiemText(MeridiemOf(hour, format24h))
  {
    assert NumberText(5) == "5" && NumberText(7) == "7";
    assert Repeat('0', 1) == "0";
  }

  /** Worked face: midnight on the 12-hour dial reads 12 o'clock AM. */
  lemma MidnightExample()
    ensures FormatTime(Some(TimeSample(2024, 5, 1, 0, 5, 7)), false) == "12:05:07 AM"
  {
    MinuteSecondExample(0, false);
    assert Hour12(0) == 12;
    assert Digits(1) == "1" && Digits(2) == "2";
    assert NumberText(12) == "12";
  }

  /** Worked face: 13 o'clock on the 12-hour dial, in each variant. */
  lemma AfternoonExample()
    ensures FormatTime(Some(TimeSample(2024, 5, 1, 13, 5, 7)), false) == "01:05:07 PM"
    ensures FormatTimeUnpadded(TimeSample(2024, 5, 1, 13, 5, 7), false) == "1:05:07 PM"
  {
    var t := TimeSample(2024, 5, 1, 13, 5, 7);
    MinuteSecondExample(13, false);
    assert DisplayedHour(13, false) == 1;
    assert NumberText(1) == "1";
    assert Pad2(1) == "01" by {
      assert Repeat('0', 1) == "0";
    }
    assert MeridiemText(MeridiemOf(13, false)) == " PM";
    assert FormatTime(Some(t), false) == "01" + (":05:07" + " PM");
    assert FormatTimeUnpadded(t, false) == "1" + (":05:07" + " PM");
  }

  /** Any hour field that reads back as the displayed hour gives a clock face that reads back whole. */
  lemma ComposeRoundTrip(hours: string, t: TimeSample, format24h: bool)
    requires IsDigits(hours) && ParseDigits(hours) == DisplayedHour(t.hour, format24h)
    requires t.minute >= 0 && t.seconds >= 0
    ensures DisplayedHour(t.hour, format24h) >= 0
    ensures ParseClock(Compose(hours, t, format24h))
         == Some(ClockFace(DisplayedHour(t.hour, format24h), t.minute, t.seconds, MeridiemOf(t.hour, format24h)))
  {
    var mm, ss := Pad2(t.minute), Pad2(t.seconds);
    Pad2Denotes(t.minute);
    Pad2Denotes(t.seconds);
    var m := MeridiemOf(t.hour, format24h);
    var pre := ":" + mm + ":" + ss;
    assert Compose(hours, t, format24h) == hours + (pre + MeridiemText(m));
    assert hours + (pre + MeridiemText(m)) == (hours + pre) + MeridiemText(m);
    StripMeridiemAfterDigit(hours + pre, m);
    FieldsRoundTrip(hours, mm, ss);
  }

  lemma FieldsRoundTrip(hh: string, mm: string, ss: string)
    requires IsDigits(hh) && IsDigits(mm) && IsDigits(ss)
    ensures ParseFields(hh + (":" + mm + ":" + ss)) == Some((ParseDigits(hh), ParseDigits(mm), ParseDigits(ss)))
  {
    var rest := mm + (":" + ss);
    var body := hh + (":" + mm + ":" + ss);
    assert body == hh + (":" + rest) by {
      assert ":" + mm + ":" + ss == ":" + rest;
    }
    SplitAfterDigits(hh, rest);
    assert SplitFirst(body, ':') == Some((hh, rest));
    SplitAfterDigits(mm, ss);
    assert SplitFirst(rest, ':') == Some((mm, ss));
  }

  /** The content script's clock face reads back as hour, minute, second and meridiem. */
  lemma FormatTimeRoundTrip(t: TimeSample, format24h: bool)
    requires t.hour >= 0 && t.minute >= 0 && t.seconds >= 0
    ensures ParseClock(FormatTime(Some(t), format24h))
         == Some(ClockFace(DisplayedHour(t.hour, format24h), t.minute, t.seconds, MeridiemOf(t.hour, format24h)))
  {
    Pad2Denotes(DisplayedHour(t.hour, format24h));
    ComposeRoundTrip(Pad2(DisplayedHour(t.hour, format24h)), t, format24h);
  }

  /** The background page's clock face reads back as hour, minute, second and meridiem. */
  lemma FormatTimeUnpaddedRoundTrip(t: TimeSample, format24h: bool)
    requires t.hour >= 0 && t.minute >= 0 && t.seconds >= 0
    ensures ParseClock(FormatTimeUnpadded(t, format24h))
         == Some(ClockFace(DisplayedHour(t.hour, format24h), t.minute, t.seconds, MeridiemOf(t.hour, format24h)))
  {
    NumberTextDenotes(DisplayedHour(t.hour, format24h));
    ComposeRoundTrip(NumberText(DisplayedHour(t.hour, format24h)), t, format24h);
  }
}
