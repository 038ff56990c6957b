/**
 * The normalisation of the scheduler's settings by `schedule_job` in
 * blocklist_scheduler.py: `BLOCKLIST_CRON_TIME` parsed with Python's `int()`
 * on both sides of the ":" (falling back to 06:00), the frequency from
 * `BLOCKLIST_CRON_TYPE` (anything but "weekly" is daily), the day from the
 * first three letters of `BLOCKLIST_CRON_DAY` (falling back to Monday), and
 * the `f"{hour:02d}:{minute:02d}"` text the job is registered at.
 */
module Schedule {
  import opened Wrappers
  import opened PyStr

  // ------------------------------------------------------------ int(x)

  predicate IsDigit(c: char) {
    '0' <= c <= '9'
  }

  /**
   * ASCII digits, where single underscores may separate two digits (`int()`
   * in base 10): a digit, followed by nothing, by a group, or by "_" and a group.
   */
  predicate IsDigitGroup(s: string)
    decreases |s|
  {
    && s != []
    && IsDigit(s[0])
    && (|s| == 1 || IsDigitGroup(s[1..]) || (s[1] == '_' && IsDigitGroup(s[2..])))
  }

  predicate AllDigits(s: string) {
    forall i :: 0 <= i < |s| ==> IsDigit(s[i])
  }

  /** The value of a digit group, underscores skipped. */
  function DigitsValue(s: string): nat
    decreases |s|
  {
    if s == [] then 0
    else
      var c := s[|s| - 1];
      if IsDigit(c) then 10 * DigitsValue(s[..|s| - 1]) + (c - '0') as int else DigitsValue(s[..|s| - 1])
  }

  /**
   * The whitespace `int()` skips around a number. CPython first turns every
   * non-ASCII `isspace()` character into a space, then skips only the space
   * and "\t" to "\r": the separators U+001C to U+001F, which `isspace()`
   * accepts, are not skipped.
   */
  predicate IsIntSpace(c: char) {
    IsSpace(c) && !('\U{1C}' <= c <= '\U{1F}')
  }

  predicate NoSeparator(s: string) {
    forall i :: 0 <= i < |s| ==> !('\U{1C}' <= s[i] <= '\U{1F}')
  }

  function IntLeading(s: string): (n: nat)
    ensures n <= |s|
    ensures forall i :: 0 <= i < n ==> IsIntSpace(s[i])
    ensures n < |s| ==> !IsIntSpace(s[n])
  {
    if s == [] || !IsIntSpace(s[0]) then 0 else 1 + IntLeading(s[1..])
  }

  function IntTrailing(s: string): (n: nat)
    ensures n <= |s|
    ensures forall i :: |s| - n <= i < |s| ==> IsIntSpace(s[i])
    ensures n < |s| ==> !IsIntSpace(s[|s| - 1 - n])
  {
    if s == [] || !IsIntSpace(s[|s| - 1]) then 0 else 1 + IntTrailing(s[..|s| - 1])
  }

  /** The text `int()` reads a number from: `x` without the whitespace it skips at either end. */
  function IntStrip(x: string): string {
    var l := x[IntLeading(x)..];
    l[..|l| - IntTrailing(l)]
  }

  /**
   * `int(x)`: surrounding whitespace is ignored, an optional sign, then a
   * digit group; None where `int()` raises ValueError.
   */
  function ParseInt(x: string): Option<int> {
    var t := IntStrip(x);
    if t != [] && (t[0] == '+' || t[0] == '-') then
      if IsDigitGroup(t[1..]) then
        var v: int := DigitsValue(t[1..]);
        Some(if t[0] == '-' then -v else v)
      else None
    else if IsDigitGroup(t) then Some(DigitsValue(t))
    else None
  }

  // ------------------------------------------------------ format(n, "02d")

  function DigitChar(d: nat): (c: char)
    requires d < 10
    ensures IsDigit(c) && (c - '0') as int == d
  {
    ('0' as int + d) as char
  }

  /** `str(n)` for a natural number. */
  function Decimal(n: nat): string
  {
    if n < 10 then [DigitChar(n)] else Decimal(n / 10) + [DigitChar(n % 10)]
  }

  /** `f"{n:02d}"`: at least two characters, zero-filled after the sign. */
  function Pad2(n: int): string {
    if n < 0 then "-" + Decimal(-n)
    else if n < 10 then "0" + Decimal(n)
    else Decimal(n)
  }

  /** `f"{hour:02d}:{minute:02d}"`. */
  function ClockText(hour: int, minute: int): string {
    Pad2(hour) + ":" + Pad2(minute)
  }

  // ------------------------------------------------------- schedule_job

  const DefaultTime := (6, 0)
  const ValidDays := ["mon", "tue", "wed", "thu", "fri", "sat", "sun"]

  datatype Frequency = Daily | Weekly(day: string)

  /** The one job `schedule_job` registers: how often, and at which time of day. */
  datatype ScheduleSpec = ScheduleSpec(frequency: Frequency, hour: int, minute: int)

  /**
   * `hour, minute = [int(x) for x in t.split(":")]`, or (6, 0) when that
   * raises: when a part is not an integer or there are not exactly two parts.
   */
  function ParseTime(t: string): (int, int) {
    var parts := Split(t, ':');
    if |parts| == 2 && ParseInt(parts[0]).Some? && ParseInt(parts[1]).Some? then
      (ParseInt(parts[0]).value, ParseInt(parts[1]).value)
    else DefaultTime
  }

  /** `day = cron_day[:3]`, or "mon" when that is not one of the seven abbreviations. */
  function DayOf(cronDay: string): (day: string)
    ensures day in ValidDays
    ensures day == "mon" || day <= cronDay
  {
    var day := if |cronDay| <= 3 then cronDay else cronDay[..3];
    if day in ValidDays then day else "mon"
  }

  /** `schedule_job()` on the lowercased type, the time and the lowercased day. */
  function ScheduleJob(cronType: string, cronTime: string, cronDay: string): (spec: ScheduleSpec)
    ensures spec.frequency.Weekly? <==> cronType == "weekly"
    ensures spec.frequency.Weekly? ==> spec.frequency.day == DayOf(cronDay)
    ensures (spec.hour, spec.minute) == ParseTime(cronTime)
  {
    var (hour, minute) := ParseTime(cronTime);
    if cronType == "daily" then ScheduleSpec(Daily, hour, minute)
    else if cronType == "weekly" then ScheduleSpec(Weekly(DayOf(cronDay)), hour, minute)
    else ScheduleSpec(Daily, hour, minute)
  }

  /** The time text the job is registered at, in every branch. */
  function At(spec: ScheduleSpec): string {
    ClockText(spec.hour, spec.minute)
  }

  // ------------------------------------------------------------- lemmas

  /** Plain digits, without underscores, always form a group. */
  lemma {:induction false} AllDigitsGroup(s: string)
    requires s != [] && AllDigits(s)
    ensures IsDigitGroup(s)
    decreases |s|
  {
    if |s| > 1 {
      AllDigitsGroup(s[1..]);
    }
  }

  lemma {:induction false} DecimalDigits(n: nat)
    ensures Decimal(n) != [] && AllDigits(Decimal(n))
    ensures DigitsValue(Decimal(n)) == n
  {
    if n >= 10 {
      DecimalDigits(n / 10);
      var s := Decimal(n);
      var p := Decimal(n / 10);
      assert s == p + [DigitChar(n % 10)];
      assert forall i :: 0 <= i < |p| ==> s[i] == p[i];
      assert s[..|s| - 1] == p;
    }
  }

  /** Leading zeros do not change the value `int()` reads. */
  lemma {:induction false} LeadingZero(s: string)
    ensures DigitsValue("0" + s) == DigitsValue(s)
    decreases |s|
  {
    if s == [] {
      assert ("0" + s)[..0] == [];
    } else {
      assert ("0" + s)[..|"0" + s| - 1] == "0" + s[..|s| - 1];
      LeadingZero(s[..|s| - 1]);
    }
  }

  /** A digit group has no whitespace for `int()` to skip. */
  lemma DigitsUnstripped(s: string)
    requires AllDigits(s)
    ensures IntStrip(s) == s
  {
    if s != [] {
      assert !IsIntSpace(s[0]);
      assert !IsIntSpace(s[|s| - 1]);
    }
  }

  lemma NegativeParses(n: int)
    requires n < 0
    ensures ParseInt(Pad2(n)) == Some(n)
  {
    var d := Decimal(-n);
    DecimalDigits(-n);
    AllDigitsGroup(d);
    var p := "-" + d;
    assert p[1..] == d;
    Unpadded(p);
  }

  lemma OneDigitParses(n: int)
    requires 0 <= n < 10
    ensures ParseInt(Pad2(n)) == Some(n)
  {
    var d := Decimal(n);
    DecimalDigits(n);
    var p := "0" + d;
    LeadingZero(d);
    assert AllDigits(p);
    AllDigitsGroup(p);
    DigitsUnstripped(p);
  }

  lemma ManyDigitsParse(n: int)
    requires n >= 10
    ensures ParseInt(Pad2(n)) == Some(n)
  {
    DecimalDigits(n);
    AllDigitsGroup(Decimal(n));
    DigitsUnstripped(Decimal(n));
  }

  /** A string that starts and ends with something other than whitespace has nothing for `int()` to skip. */
  lemma Unpadded(s: string)
    requires s != [] && !IsIntSpace(s[0]) && !IsIntSpace(s[|s| - 1])
    ensures IntStrip(s) == s
  {
    assert s[IntLeading(s)..] == s;
  }

  /** `int(f"{n:02d}") == n` for every integer, negative ones included. */
  lemma Pad2Parses(n: int)
    ensures ParseInt(Pad2(n)) == Some(n)
  {
    if n < 0 {
      NegativeParses(n);
    } else if n < 10 {
      OneDigitParses(n);
    } else {
      ManyDigitsParse(n);
    }
  }

  /** Hours and minutes in range are shown with exactly two digits. */
  lemma Pad2TwoDigits(n: int)
    requires 0 <= n <= 99
    ensures |Pad2(n)| == 2
    ensures forall i :: 0 <= i < 2 ==> IsDigit(Pad2(n)[i])
  {
    if n >= 10 {
      assert Decimal(n) == Decimal(n / 10) + [DigitChar(n % 10)];
    }
  }

  lemma Pad2NoColon(n: int)
    ensures ':' !in Pad2(n)
  {
    DecimalDigits(if n < 0 then -n else n);
    var p := Pad2(n);
    forall i | 0 <= i < |p| ensures p[i] != ':' {
      if n < 0 {
        assert i == 0 || p[i] == Decimal(-n)[i - 1];
      } else if n < 10 {
        assert i == 0 || p[i] == Decimal(n)[i - 1];
      }
    }
  }

  /** Reading back the registered time text gives the same hour and minute. */
  lemma ClockRoundTrip(hour: int, minute: int)
    ensures ParseTime(ClockText(hour, minute)) == (hour, minute)
  {
    Pad2NoColon(hour);
    Pad2NoColon(minute);
    SplitTwo(Pad2(hour), Pad2(minute), ':');
    assert ClockText(hour, minute) == Pad2(hour) + [':'] + Pad2(minute);
    Pad2Parses(hour);
    Pad2Parses(minute);
  }

  lemma TwoDigitText(tens: nat, ones: nat)
    requires 1 <= tens < 10 && ones < 10
    ensures Pad2(10 * tens + ones) == [DigitChar(tens), DigitChar(ones)]
  {
    var n := 10 * tens + ones;
    assert n / 10 == tens && n % 10 == ones;
    assert Decimal(n) == Decimal(tens) + [DigitChar(ones)];
  }

  /** No range check: "25:99" is kept as it is. */
  lemma OutOfRangeTimeKept()
    ensures ParseTime("25:99") == (25, 99)
  {
    LateClockText();
    ClockRoundTrip(25, 99);
  }

  lemma LateClockText()
    ensures ClockText(25, 99) == "25:99"
  {
    TwoDigitText(2, 5);
    TwoDigitText(9, 9);
  }

  /** A time without exactly one ":" falls back to 06:00, even if its single part is a number. */
  lemma NoColonFallsBack()
    ensures ParseTime("7") == DefaultTime
  {
    assert Find("7", ':') == 1;
  }

  /** A part `int()` rejects makes the whole time fall back. */
  lemma BadPartFallsBack(a: string, b: string)
    requires ':' !in a && ':' !in b
    requires ParseInt(a) == None || ParseInt(b) == None
    ensures ParseTime(a + ":" + b) == DefaultTime
  {
    SplitTwo(a, b, ':');
    assert a + ":" + b == a + [':'] + b;
  }

  /** `int()` ignores surrounding whitespace and takes a plus sign. */
  lemma SpacesAndPlus()
    ensures ParseInt(" +7 ") == Some(7)
  {
    var t := " +7 ";
    assert IntLeading(t[1..]) == 0;
    assert t[IntLeading(t)..] == "+7 ";
    assert IntTrailing("+7 "[..2]) == 0;
    assert IntStrip(t) == "+7";
    assert "+7"[1..] == "7";
    assert DigitsValue("7") == 7 by {
      assert "7"[..0] == [];
    }
  }

  lemma {:induction false} LeadingAgrees(s: string)
    requires NoSeparator(s)
    ensures IntLeading(s) == LeadingSpace(s)
    decreases |s|
  {
    if s != [] && IsSpace(s[0]) {
      assert NoSeparator(s[1..]) by {
        assert forall i :: 0 <= i < |s| - 1 ==> s[1..][i] == s[i + 1];
      }
      LeadingAgrees(s[1..]);
    }
  }

  lemma {:induction false} TrailingAgrees(s: string)
    requires NoSeparator(s)
    ensures IntTrailing(s) == TrailingSpace(s)
    decreases |s|
  {
    if s != [] && IsSpace(s[|s| - 1]) {
      assert NoSeparator(s[..|s| - 1]) by {
        assert forall i :: 0 <= i < |s| - 1 ==> s[..|s| - 1][i] == s[i];
      }
      TrailingAgrees(s[..|s| - 1]);
    }
  }

  /** Without the four ASCII separators, `int()` skips exactly what `strip()` removes. */
  lemma IntStripAgrees(s: string)
    requires NoSeparator(s)
    ensures IntStrip(s) == Strip(s)
  {
    LeadingAgrees(s);
    var l := s[IntLeading(s)..];
    assert NoSeparator(l) by {
      assert forall i :: 0 <= i < |l| ==> l[i] == s[IntLeading(s) + i];
    }
    TrailingAgrees(l);
  }

  /** `int()` does not skip a leading U+001C: a part that starts with one is no number. */
  lemma SeparatorRejected(x: string)
    requires x != [] && x[0] == '\U{1C}'
    ensures ParseInt(x) == None
  {
    assert IntLeading(x) == 0;
    var t := IntStrip(x);
    assert t == x[..|x| - IntTrailing(x)];
    if t != [] {
      assert t[0] == '\U{1C}';
    }
  }

  /** So a time whose hour starts with U+001C (say "\x1c07:30") falls back to 06:00. */
  lemma SeparatorNotSkipped(a: string, b: string)
    requires ':' !in a && ':' !in b
    requires a != [] && a[0] == '\U{1C}'
    ensures ParseTime(a + ":" + b) == DefaultTime
  {
    SeparatorRejected(a);
    BadPartFallsBack(a, b);
  }

  /** A minus sign, and a leading zero after it. */
  lemma MinusLeadingZero()
    ensures ParseInt("-05") == Some(-5)
  {
    Unpadded("-05");
    assert "-05"[1..] == "05";
    DecimalDigits(5);
    assert Decimal(5) == "5";
    LeadingZero("5");
  }

  /** A digit group never ends with an underscore. */
  lemma {:induction false} TrailingUnderscore(s: string)
    requires s != [] && s[|s| - 1] == '_'
    ensures !IsDigitGroup(s)
    decreases |s|
  {
    if |s| > 1 {
      assert s[1..][|s[1..]| - 1] == '_';
      TrailingUnderscore(s[1..]);
      if |s| > 2 {
        assert s[2..][|s[2..]| - 1] == '_';
        TrailingUnderscore(s[2..]);
      }
    }
  }

  /** Underscores count only between two digits. */
  lemma UnderscoreBetweenDigits()
    ensures ParseInt("1_5") == Some(15)
  {
    Unpadded("1_5");
    assert "1_5"[2..] == "5" && "5"[1..] == [];
    assert IsDigitGroup("1_5");
    assert "1_5"[..2] == "1_" && "1_"[..1] == "1" && "1"[..0] == [];
  }

  lemma UnderscoreAtEnd()
    ensures ParseInt("1_") == None
  {
    Unpadded("1_");
    TrailingUnderscore("1_");
  }

  lemma UnderscoreAtStart()
    ensures ParseInt("_1") == None
  {
    Unpadded("_1");
  }

  /** A day given by its first three letters, or spelt out, is that day. */
  lemma DayPrefixKept(cronDay: string)
    requires |cronDay| >= 3 && cronDay[..3] in ValidDays
    ensures DayOf(cronDay) == cronDay[..3]
  {
    if |cronDay| == 3 {
      assert cronDay[..3] == cronDay;
    }
  }

  lemma TuesdayIsTue()
    ensures DayOf(Lower("Tuesday")) == "tue"
  {
    assert Lower("Tuesday")[..3] == "tue";
  }

  lemma UnknownDayIsMonday()
    ensures DayOf("foo") == "mon"
  {
    assert "foo" !in ValidDays;
  }

  // ------------------------------------------------ registering the job

  /** The weekday properties of the `schedule` library's job object (`schedule.every().monday` …). */
  const JobWeekdays := ["monday", "tuesday", "wednesday", "thursday", "friday", "saturday", "sunday"]

  /** The job object's properties `schedule_job` can pick: `day`, or one of the weekdays. */
  predicate IsJobUnit(unit: string) {
    unit == "day" || unit in JobWeekdays
  }

  /** What `schedule_job` asks the library for: the property of `schedule.every()`, and the text given to `.at()`. */
  datatype Registration = Registration(unit: string, at: string)

  /** A schedule as `ScheduleJob` produces it: a weekly day is one of the seven abbreviations. */
  predicate Normal(spec: ScheduleSpec) {
    spec.frequency.Weekly? ==> spec.frequency.day in ValidDays
  }

  /**
   * The registration as written: `every().day`, or `getattr(every(), day)`
   * with the three-letter day, which raises AttributeError unless the job
   * object has a property of that name (None).
   */
  function RegisterAsWritten(spec: ScheduleSpec): (r: Option<Registration>)
    ensures r.Some? ==> IsJobUnit(r.value.unit) && r.value.at == At(spec)
  {
    match spec.frequency
    case Daily => Some(Registration("day", At(spec)))
    case Weekly(day) => if day in JobWeekdays then Some(Registration(day, At(spec))) else None
  }

  /** The job object has no property named after an abbreviation, so no weekly job is ever registered as written. */
  lemma WeeklyNeverRegisters(spec: ScheduleSpec)
    requires Normal(spec) && spec.frequency.Weekly?
    ensures RegisterAsWritten(spec) == None
  {
    var day := spec.frequency.day;
    assert |day| == 3;
    assert forall k :: 0 <= k < |JobWeekdays| ==> |JobWeekdays[k]| >= 6;
  }

  /** The weekday property an abbreviation stands for. */
  function WeekdayName(day: string): (name: string)
    requires day in ValidDays
    ensures name in JobWeekdays && |name| >= 3 && name[..3] == day
  {
    if day == "mon" then "monday"
    else if day == "tue" then "tuesday"
    else if day == "wed" then "wednesday"
    else if day == "thu" then "thursday"
    else if day == "fri" then "friday"
    else if day == "sat" then "saturday"
    else "sunday"
  }

  /** The registration as intended: a weekly job looks up the full weekday name. */
  function Register(spec: ScheduleSpec): (r: Registration)
    requires Normal(spec)
    ensures IsJobUnit(r.unit) && r.at == At(spec)
    ensures spec.frequency.Weekly? <==> r.unit != "day"
    ensures spec.frequency.Weekly? ==> r.unit[..3] == spec.frequency.day
  {
    match spec.frequency
    case Daily => Registration("day", At(spec))
    case Weekly(day) => Registration(WeekdayName(day), At(spec))
  }

  /**
   * The intended registration always succeeds, agrees with the code as
   * written wherever that succeeds, and names the day the setting chose:
   * the weekday property, cut to three letters, is that day again.
   */
  lemma RegisterIntended(spec: ScheduleSpec)
    requires Normal(spec)
    ensures RegisterAsWritten(spec).Some? ==> RegisterAsWritten(spec).value == Register(spec)
    ensures spec.frequency.Weekly? ==> DayOf(Register(spec).unit) == spec.frequency.day
  {
    if spec.frequency.Weekly? {
      WeeklyNeverRegisters(spec);
      DayPrefixKept(Register(spec).unit);
    }
  }

  /** The settings a schedule would be written back as. */
  function TypeText(spec: ScheduleSpec): string {
    if spec.frequency.Weekly? then "weekly" else "daily"
  }

  function DayText(spec: ScheduleSpec): string {
    if spec.frequency.Weekly? then spec.frequency.day else "mon"
  }

  /** Normalising the settings of a normalised schedule gives that schedule back. */
  lemma NormaliseFixpoint(cronType: string, cronTime: string, cronDay: string)
    ensures var spec := ScheduleJob(cronType, cronTime, cronDay);
            ScheduleJob(TypeText(spec), At(spec), DayText(spec)) == spec
  {
    var spec := ScheduleJob(cronType, cronTime, cronDay);
    ClockRoundTrip(spec.hour, spec.minute);
    if spec.frequency.Weekly? {
      var d := spec.frequency.day;
      assert d in ValidDays;
      assert |d| == 3;
      assert d[..3] == d;
    }
  }
}
