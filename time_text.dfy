/** The text forms of date-times the calendar tools write (`strftime`,
    `isoformat`) and read (`fromisoformat`, `strptime`). `strftime` is
    modelled in the C locale, where `%p` is "AM" or "PM". */
module TimeText {
  import opened Strings
  import opened Wrappers
  import opened Civil

  /** A zero-padded field of `width` digits. */
  function Pad(n: nat, width: nat): (s: string)
    ensures |s| == width
    ensures forall i :: 0 <= i < |s| ==> IsDigit(s[i])
  {
    if width == 0 then "" else Pad(n / 10, width - 1) + [DigitChar(n % 10)]
  }

  /** A padded field reads back as the number it was written from. */
  lemma {:induction false} PadRoundTrip(n: nat, width: nat)
    requires n < Power10(width)
    ensures DigitsValue(Pad(n, width)) == n
  {
    if width > 0 {
      var s := Pad(n, width);
      assert s[..|s| - 1] == Pad(n / 10, width - 1);
      PadRoundTrip(n / 10, width - 1);
    }
  }

  function Power10(k: nat): nat { if k == 0 then 1 else 10 * Power10(k - 1) }

  function Pad2(n: nat): string requires n < 100 { Pad(n, 2) }

  function Pad4(n: nat): string requires n < 10000 { Pad(n, 4) }

  /** The hour on a 12-hour clock, as `%I` shows it (0 and 12 show as 12). */
  function Hour12(h: int): (r: int)
    requires 0 <= h < 24
    ensures 1 <= r <= 12 && (r == h || r == h - 12 || (r == 12 && (h == 0 || h == 12)))
  {
    if h % 12 == 0 then 12 else h % 12
  }

  /** `%p` */
  function Meridiem(h: int): string { if h < 12 then "AM" else "PM" }

  /** `%B` */
  function MonthName(m: int): string
    requires 1 <= m <= 12
  {
    ["January", "February", "March", "April", "May", "June", "July",
     "August", "September", "October", "November", "December"][m - 1]
  }

  /** `strftime('%Y-%m-%d')` */
  function DateText(d: Date): string
    requires ValidDate(d)
  {
    Pad4(d.year) + "-" + Pad2(d.month) + "-" + Pad2(d.day)
  }

  /** `strftime('%H:%M')` */
  function ClockText(t: DateTime): string
    requires Valid(t)
  {
    Pad2(t.hour) + ":" + Pad2(t.minute)
  }

  /** `strftime('%Y-%m-%dT%H:%M')`: the prefix a matching slot must start with. */
  function MinutePrefix(t: DateTime): string
    requires Valid(t)
  {
    DateText(DateOf(t)) + "T" + ClockText(t)
  }

  /** `isoformat()` of a date-time without microseconds. */
  function IsoFormat(t: DateTime): (s: string)
    requires Valid(t)
    ensures |s| == 19 && StartsWith(s, MinutePrefix(t))
  {
    MinutePrefix(t) + ":" + Pad2(t.second)
  }

  /** `strftime('%I%p').lower()`, e.g. "03pm". */
  function HourToken(t: DateTime): string
    requires Valid(t)
  {
    Lower(Pad2(Hour12(t.hour)) + Meridiem(t.hour))
  }

  /** `strftime('%I:%M %p')` */
  function Clock12Text(t: DateTime): string
    requires Valid(t)
  {
    Pad2(Hour12(t.hour)) + ":" + Pad2(t.minute) + " " + Meridiem(t.hour)
  }

  /** `strftime('%B %d, %Y at %I:%M %p')` */
  function LongText(t: DateTime): string
    requires Valid(t)
  {
    MonthName(t.month) + " " + Pad2(t.day) + ", " + Pad4(t.year) + " at " + Clock12Text(t)
  }

  /** `strftime('%B %d at %I:%M %p')` */
  function ShortText(t: DateTime): string
    requires Valid(t)
  {
    MonthName(t.month) + " " + Pad2(t.day) + " at " + Clock12Text(t)
  }

  // ---------------------------------------------------------------- reading

  /** The number written with exactly `width` digits at offset `i`, if any. */
  function FieldAt(s: string, i: nat, width: nat): (r: Option<nat>)
    ensures r.Some? <==> i + width <= |s| && forall k :: i <= k < i + width ==> IsDigit(s[k])
  {
    if i + width <= |s| && forall k :: i <= k < i + width ==> IsDigit(s[k])
    then Some(DigitsValue(s[i..i + width]))
    else None
  }

  function MakeDateTime(y: nat, mo: nat, d: nat, h: nat, mi: nat, sec: nat): (r: Option<DateTime>)
    ensures r.Some? ==> Valid(r.value)
    ensures r.Some? <==> Valid(DateTime(y, mo, d, h, mi, sec))
    ensures r.Some? ==> r.value == DateTime(y, mo, d, h, mi, sec)
  {
    var t := DateTime(y, mo, d, h, mi, sec);
    if Valid(t) then Some(t) else None
  }

  /** `datetime.fromisoformat(s)` for the forms the booking service sends:
      `YYYY-MM-DD`, optionally followed by `T` or a space and `HH`, `HH:MM`,
      `HH:MM:SS`, `HH:MM:SS.fff` or `HH:MM:SS.ffffff`. A fraction is read and
      dropped. `None` where Python raises ValueError. */
  function ParseIso(s: string): (r: Option<DateTime>)
    ensures r.Some? ==> Valid(r.value)
  {
    var n := |s|;
    if !(n == 10 || n == 13 || n == 16 || n == 19 || n == 23 || n == 26) then None
    else if s[4] != '-' || s[7] != '-' then None
    else if n > 10 && s[10] != 'T' && s[10] != ' ' then None
    else if n > 13 && s[13] != ':' then None
    else if n > 16 && s[16] != ':' then None
    else if n > 19 && (s[19] != '.' || FieldAt(s, 20, n - 20).None?) then None
    else
      var y := FieldAt(s, 0, 4);
      var mo := FieldAt(s, 5, 2);
      var d := FieldAt(s, 8, 2);
      var h := if n > 10 then FieldAt(s, 11, 2) else Some(0);
      var mi := if n > 13 then FieldAt(s, 14, 2) else Some(0);
      var sec := if n > 16 then FieldAt(s, 17, 2) else Some(0);
      if y.None? || mo.None? || d.None? || h.None? || mi.None? || sec.None? then None
      else MakeDateTime(y.value, mo.value, d.value, h.value, mi.value, sec.value)
  }

  /** `datetime.fromisoformat(s.replace('Z', ''))` */
  function ParseApiTime(s: string): (r: Option<DateTime>)
    ensures r.Some? ==> Valid(r.value)
  {
    ParseIso(Remove(s, 'Z'))
  }

  /** What `ParseIso` makes of a text in the form `YYYY-MM-DDTHH:MM[:SS]`
      whose fields are read. */
  lemma ParseIsoOfFields(s: string, y: nat, mo: nat, d: nat, h: nat, mi: nat, sec: nat)
    requires |s| == 16 || |s| == 19
    requires s[4] == '-' && s[7] == '-' && s[10] == 'T' && s[13] == ':' && (|s| == 19 ==> s[16] == ':')
    requires FieldAt(s, 0, 4) == Some(y) && FieldAt(s, 5, 2) == Some(mo) && FieldAt(s, 8, 2) == Some(d)
    requires FieldAt(s, 11, 2) == Some(h) && FieldAt(s, 14, 2) == Some(mi)
    requires |s| == 19 ==> FieldAt(s, 17, 2) == Some(sec)
    requires |s| == 16 ==> sec == 0
    ensures ParseIso(s) == MakeDateTime(y, mo, d, h, mi, sec)
  {
  }

  /** A field depends only on the characters it covers. */
  lemma FieldPrefix(a: string, b: string, i: nat, width: nat)
    requires i + width <= |a|
    ensures FieldAt(a + b, i, width) == FieldAt(a, i, width)
  {
    assert (a + b)[i..i + width] == a[i..i + width];
    assert forall k :: i <= k < i + width ==> (a + b)[k] == a[k];
  }

  lemma FieldShift(a: string, b: string, i: nat, width: nat)
    requires i + width <= |b|
    ensures FieldAt(a + b, |a| + i, width) == FieldAt(b, i, width)
  {
    assert (a + b)[|a| + i..|a| + i + width] == b[i..i + width];
    var s := a + b;
    if forall k :: i <= k < i + width ==> IsDigit(b[k]) {
      assert forall k :: |a| + i <= k < |a| + i + width ==> IsDigit(s[k]) by {
        forall k | |a| + i <= k < |a| + i + width ensures IsDigit(s[k]) {
          assert s[k] == b[k - |a|];
        }
      }
    } else {
      var k :| i <= k < i + width && !IsDigit(b[k]);
      assert s[|a| + k] == b[k];
    }
  }

  /** A padded number reads back as itself. */
  lemma FieldOfPadded(n: nat, width: nat)
    requires n < Power10(width)
    ensures FieldAt(Pad(n, width), 0, width) == Some(n)
  {
    assert Pad(n, width)[0..width] == Pad(n, width);
    PadRoundTrip(n, width);
  }

  /** The three fields of `DateText(d)`. */
  lemma DateFields(d: Date)
    requires ValidDate(d)
    ensures var s := DateText(d);
      |s| == 10 && s[4] == '-' && s[7] == '-'
      && FieldAt(s, 0, 4) == Some(d.year) && FieldAt(s, 5, 2) == Some(d.month) && FieldAt(s, 8, 2) == Some(d.day)
  {
    var y, mo, dd := Pad4(d.year), Pad2(d.month), Pad2(d.day);
    FieldOfPadded(d.year, 4);
    FieldOfPadded(d.month, 2);
    FieldOfPadded(d.day, 2);
    FieldPrefix(y, "-", 0, 4);
    FieldPrefix(y + "-", mo, 0, 4);
    FieldPrefix(y + "-" + mo, "-", 0, 4);
    FieldPrefix(y + "-" + mo + "-", dd, 0, 4);
    FieldShift(y + "-", mo, 0, 2);
    FieldPrefix(y + "-" + mo, "-", 5, 2);
    FieldPrefix(y + "-" + mo + "-", dd, 5, 2);
    FieldShift(y + "-" + mo + "-", dd, 0, 2);
  }

  /** The two fields of `ClockText(t)`. */
  lemma ClockFields(t: DateTime)
    requires Valid(t)
    ensures var s := ClockText(t);
      |s| == 5 && s[2] == ':' && FieldAt(s, 0, 2) == Some(t.hour) && FieldAt(s, 3, 2) == Some(t.minute)
  {
    var h, mi := Pad2(t.hour), Pad2(t.minute);
    FieldOfPadded(t.hour, 2);
    FieldOfPadded(t.minute, 2);
    FieldPrefix(h, ":", 0, 2);
    FieldPrefix(h + ":", mi, 0, 2);
    FieldShift(h + ":", mi, 0, 2);
  }

  /** The fields of `MinutePrefix(t)`. */
  lemma MinutePrefixFields(t: DateTime)
    requires Valid(t)
    ensures var s := MinutePrefix(t);
      |s| == 16 && s[4] == '-' && s[7] == '-' && s[10] == 'T' && s[13] == ':'
      && FieldAt(s, 0, 4) == Some(t.year) && FieldAt(s, 5, 2) == Some(t.month) && FieldAt(s, 8, 2) == Some(t.day)
      && FieldAt(s, 11, 2) == Some(t.hour) && FieldAt(s, 14, 2) == Some(t.minute)
  {
    var date := DateText(DateOf(t));
    var clock := ClockText(t);
    DateFields(DateOf(t));
    ClockFields(t);
    FieldPrefix(date, "T", 0, 4);
    FieldPrefix(date, "T", 5, 2);
    FieldPrefix(date, "T", 8, 2);
    FieldPrefix(date + "T", clock, 0, 4);
    FieldPrefix(date + "T", clock, 5, 2);
    FieldPrefix(date + "T", clock, 8, 2);
    FieldShift(date + "T", clock, 0, 2);
    FieldShift(date + "T", clock, 3, 2);
  }

  /** Reading back what `isoformat()` wrote gives the same date-time. */
  lemma IsoRoundTrip(t: DateTime)
    requires Valid(t)
    ensures ParseIso(IsoFormat(t)) == Some(t)
  {
    var pre := MinutePrefix(t);
    var sec := Pad2(t.second);
    var s := IsoFormat(t);
    MinutePrefixFields(t);
    FieldOfPadded(t.second, 2);
    FieldShift(pre + ":", sec, 0, 2);
    FieldPrefix(pre, ":", 0, 4);
    FieldPrefix(pre, ":", 5, 2);
    FieldPrefix(pre, ":", 8, 2);
    FieldPrefix(pre, ":", 11, 2);
    FieldPrefix(pre, ":", 14, 2);
    FieldPrefix(pre + ":", sec, 0, 4);
    FieldPrefix(pre + ":", sec, 5, 2);
    FieldPrefix(pre + ":", sec, 8, 2);
    FieldPrefix(pre + ":", sec, 11, 2);
    FieldPrefix(pre + ":", sec, 14, 2);
    ParseIsoOfFields(s, t.year, t.month, t.day, t.hour, t.minute, t.second);
  }

  /** The minute prefix reads back as the same minute. */
  lemma MinutePrefixRoundTrip(t: DateTime)
    requires Valid(t)
    ensures ParseIso(MinutePrefix(t)) == Some(DateTime(t.year, t.month, t.day, t.hour, t.minute, 0))
  {
    MinutePrefixFields(t);
    ParseIsoOfFields(MinutePrefix(t), t.year, t.month, t.day, t.hour, t.minute, 0);
  }

  /** Two date-times have the same minute prefix exactly when they fall in the same minute. */
  lemma MinutePrefixSame(t: DateTime, u: DateTime)
    requires Valid(t) && Valid(u)
    ensures MinutePrefix(t) == MinutePrefix(u) <==>
      (DateOf(t) == DateOf(u) && t.hour == u.hour && t.minute == u.minute)
  {
    MinutePrefixRoundTrip(t);
    MinutePrefixRoundTrip(u);
  }

  /** A time the booking service writes as `isoformat()` plus "Z" reads back
      as that time once the "Z" is dropped. */
  lemma ApiTimeRoundTrip(t: DateTime)
    requires Valid(t)
    ensures ParseApiTime(IsoFormat(t) + "Z") == Some(t)
  {
    var s := IsoFormat(t);
    var date := Pad4(t.year) + "-" + Pad2(t.month) + "-" + Pad2(t.day);
    var clock := Pad2(t.hour) + ":" + Pad2(t.minute);
    FreeAppend(Pad4(t.year) + "-" + Pad2(t.month) + "-", Pad2(t.day), 'Z');
    FreeAppend(Pad2(t.hour) + ":", Pad2(t.minute), 'Z');
    FreeAppend(date + "T", clock, 'Z');
    FreeAppend(date + "T" + clock + ":", Pad2(t.second), 'Z');
    assert Free(s, 'Z');
    assert Remove(s, 'Z') == s;
    RemoveAppend(s, "Z", 'Z');
    assert Remove("Z", 'Z') == [];
    assert Remove(s + "Z", 'Z') == s;
    IsoRoundTrip(t);
  }

  /** A field of one or two digits at offset `i`, read greedily as `strptime`'s
      `%m`, `%d`, `%H` and `%M` do; returns the number and the next offset. */
  function ShortField(s: string, i: nat): (r: Option<(nat, nat)>)
    ensures r.Some? ==> i < r.value.1 <= i + 2 && r.value.1 <= |s|
  {
    if i < |s| && IsDigit(s[i]) then
      if i + 1 < |s| && IsDigit(s[i + 1]) then Some((DigitsValue(s[i..i + 2]), i + 2))
      else Some((DigitsValue(s[i..i + 1]), i + 1))
    else None
  }

  /** `datetime.strptime(f"{date} {time}", "%Y-%m-%d %H:%M")`: a four-digit
      year, then one- or two-digit month, day, hour and minute, with nothing
      left over. `None` where Python raises ValueError. */
  function ParseDateAndTime(date: string, time: string): (r: Option<DateTime>)
    ensures r.Some? ==> Valid(r.value) && r.value.second == 0
  {
    var s := date + " " + time;
    var y := FieldAt(s, 0, 4);
    if y.None? || |s| < 5 || s[4] != '-' then None
    else
      var mo := ShortField(s, 5);
      if mo.None? || mo.value.1 >= |s| || s[mo.value.1] != '-' then None
      else
        var d := ShortField(s, mo.value.1 + 1);
        if d.None? || d.value.1 >= |s| || s[d.value.1] != ' ' then None
        else
          var h := ShortField(s, d.value.1 + 1);
          if h.None? || h.value.1 >= |s| || s[h.value.1] != ':' then None
          else
            var mi := ShortField(s, h.value.1 + 1);
            if mi.None? || mi.value.1 != |s| then None
            else MakeDateTime(y.value, mo.value.0, d.value.0, h.value.0, mi.value.0, 0)
  }
  /** A two-digit field is read whole by `ShortField`. */
  lemma ShortFieldOfField(s: string, i: nat, v: nat)
    requires FieldAt(s, i, 2) == Some(v)
    ensures ShortField(s, i) == Some((v, i + 2))
  {
  }

  /** The date as `%Y-%m-%d` and the time as `%H:%M` read back as the same
      minute. */
  lemma DateAndTimeRoundTrip(t: DateTime)
    requires Valid(t) && t.second == 0
    ensures ParseDateAndTime(DateText(DateOf(t)), ClockText(t)) == Some(t)
  {
    var d, c := DateText(DateOf(t)), ClockText(t);
    DateFields(DateOf(t));
    ClockFields(t);
    var a := d + " ";
    var s := a + c;
    assert d + " " + c == s;
    FieldPrefix(d, " ", 0, 4);
    FieldPrefix(a, c, 0, 4);
    FieldPrefix(d, " ", 5, 2);
    FieldPrefix(a, c, 5, 2);
    FieldPrefix(d, " ", 8, 2);
    FieldPrefix(a, c, 8, 2);
    FieldShift(a, c, 0, 2);
    FieldShift(a, c, 3, 2);
    ShortFieldOfField(s, 5, t.month);
    ShortFieldOfField(s, 8, t.day);
    ShortFieldOfField(s, 11, t.hour);
    ShortFieldOfField(s, 14, t.minute);
    assert |s| == 16 && s[4] == '-' && s[7] == '-' && s[10] == ' ' && s[13] == ':';
  }
}
