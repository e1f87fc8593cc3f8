/** The survey command-line tool: identifiers filled in from the template of section 4.4 of
    RFC 4122, the weekly schedule built from "H:M" times (one survey per time, or one per
    weekday when days are split across surveys), and the survey configuration's intended
    hours and answer numbers. */
module SurveyUtils {
  import opened Wrappers
  import opened PyStrings

  /** The identifier template: 'x' is a random digit, 'y' the variant digit, '4' the version. */
  const UuidTemplate := "xxxxxxxx-xxxx-4xxx-yxxx-xxxxxxxxxxxx"

  /** Lower-case hexadecimal digits, `'{:x}'.format(n)` for n < 16. */
  const HexDigits := "0123456789abcdef"

  function HexDigit(n: nat): (c: char)
    requires n < 16
    ensures c in HexDigits
  {
    HexDigits[n]
  }

  /** The identifier a template yields from the clock value `d` and the random draws
      `rand(draw)`, `rand(draw + 1)`, ...: each 'x' or 'y' takes (d + draw) mod 16 and divides
      d by 16; a 'y' keeps the low three bits (`r & 0x7 | 0x8`), or the low two when `rfc`
      holds (`r & 0x3 | 0x8`), and sets the 8 bit; any other character is copied. */
  function UuidFrom(template: string, d: nat, rand: nat -> int, draw: nat, rfc: bool): (r: string)
    ensures |r| == |template|
    decreases |template|
  {
    if |template| == 0 then ""
    else if template[0] == 'x' || template[0] == 'y' then
      [HexDigit(DigitValue(template[0], d, rand(draw), rfc))] + UuidFrom(template[1..], d / 16, rand, draw + 1, rfc)
    else [template[0]] + UuidFrom(template[1..], d, rand, draw, rfc)
  }

  /** The value of the digit an 'x' or a 'y' becomes for clock value `d` and draw `r`. */
  function DigitValue(kind: char, d: nat, r: int, rfc: bool): (n: nat)
    ensures n < 16
  {
    var digit := (d + r) % 16;
    if kind == 'y' then 8 + (if rfc then digit % 4 else digit % 8) else digit
  }

  /** One step of UuidFrom. */
  lemma UuidFromHead(template: string, d: nat, rand: nat -> int, draw: nat, rfc: bool)
    requires |template| > 0
    ensures template[0] == 'x' || template[0] == 'y' ==>
      UuidFrom(template, d, rand, draw, rfc) == [HexDigit(DigitValue(template[0], d, rand(draw), rfc))] + UuidFrom(template[1..], d / 16, rand, draw + 1, rfc)
    ensures template[0] != 'x' && template[0] != 'y' ==>
      UuidFrom(template, d, rand, draw, rfc) == [template[0]] + UuidFrom(template[1..], d, rand, draw, rfc)
  {
  }

  /** Whatever the clock and the draws: characters other than 'x' and 'y' are copied, each
      'x' becomes a lower-case hexadecimal digit and each 'y' a digit from 8 to f, or from 8
      to b when `rfc` holds. */
  lemma {:induction false} UuidShape(template: string, d: nat, rand: nat -> int, draw: nat, rfc: bool, k: nat)
    requires k < |template|
    ensures template[k] != 'x' && template[k] != 'y' ==> UuidFrom(template, d, rand, draw, rfc)[k] == template[k]
    ensures template[k] == 'x' ==> UuidFrom(template, d, rand, draw, rfc)[k] in HexDigits
    ensures template[k] == 'y' ==> UuidFrom(template, d, rand, draw, rfc)[k] in (if rfc then "89ab" else "89abcdef")
    decreases |template|
  {
    var r := UuidFrom(template, d, rand, draw, rfc);
    if k == 0 {
      if template[0] == 'y' {
        var value := DigitValue('y', d, rand(draw), rfc);
        assert r[0] == HexDigits[value];
        VariantDigit(value, rfc);
      }
    } else if template[0] == 'x' || template[0] == 'y' {
      UuidShape(template[1..], d / 16, rand, draw + 1, rfc, k - 1);
      assert r[k] == UuidFrom(template[1..], d / 16, rand, draw + 1, rfc)[k - 1] by {
        UuidFromHead(template, d, rand, draw, rfc);
      }
    } else {
      UuidShape(template[1..], d, rand, draw, rfc, k - 1);
      assert r[k] == UuidFrom(template[1..], d, rand, draw, rfc)[k - 1] by {
        UuidFromHead(template, d, rand, draw, rfc);
      }
    }
  }

  lemma VariantDigit(value: nat, rfc: bool)
    requires 8 <= value < (if rfc then 12 else 16)
    ensures HexDigits[value] in (if rfc then "89ab" else "89abcdef")
  {
    assert HexDigits[value] == (if rfc then "89ab" else "89abcdef")[value - 8];
  }

  /** With the clock at 0 and every draw equal to `c`, every 'y' becomes the digit
      DigitValue gives a 'y' for the draw c. */
  lemma {:induction false} UuidConstantDraws(template: string, rand: nat -> int, c: int, draw: nat, rfc: bool, k: nat)
    requires k < |template| && template[k] == 'y'
    requires forall j :: rand(j) == c
    ensures UuidFrom(template, 0, rand, draw, rfc)[k] == HexDigit(DigitValue('y', 0, c, rfc))
    decreases |template|
  {
    if k > 0 {
      UuidConstantDraws(template[1..], rand, c, if template[0] == 'x' || template[0] == 'y' then draw + 1 else draw, rfc, k - 1);
    }
  }

  /** The loop of create_uuid over a template, with the variant step `rfc` chooses. */
  method FillTemplate(template: string, now: nat, rand: nat -> int, rfc: bool) returns (uuid: string)
    ensures uuid == UuidFrom(template, now, rand, 0, rfc)
  {
    var d: nat := now;
    var draws: nat := 0;
    uuid := "";
    var i := 0;
    while i < |template|
      invariant 0 <= i <= |template|
      invariant uuid + UuidFrom(template[i..], d, rand, draws, rfc) == UuidFrom(template, now, rand, 0, rfc)
    {
      ghost var rest := template[i..];
      assert rest[1..] == template[i + 1..] && rest[0] == template[i];
      UuidFromHead(rest, d, rand, draws, rfc);
      ghost var before, dBefore, drawsBefore := uuid, d, draws;
      var value := template[i];
      var c := value;
      if value == 'x' || value == 'y' {
        var r := DigitValue(value, d, rand(draws), rfc);
        draws := draws + 1;
        d := d / 16;
        c := HexDigit(r);
      }
      assert UuidFrom(rest, dBefore, rand, drawsBefore, rfc) == [c] + UuidFrom(rest[1..], d, rand, draws, rfc);
      uuid := uuid + [c];
      ConcatAssoc(before, [c], UuidFrom(rest[1..], d, rand, draws, rfc));
      i := i + 1;
    }
  }

  /** create_uuid as written: the clock's whole seconds seed the digits, and the variant digit
      is `r & 0x7 | 0x8`, anywhere in 8..f. */
  method CreateUuid(now: nat, rand: nat -> int) returns (uuid: string)
    ensures uuid == UuidFrom(UuidTemplate, now, rand, 0, false)
  {
    uuid := FillTemplate(UuidTemplate, now, rand, false);
  }

  /** The as-written variant digit can be 'c', which section 4.1.1 of RFC 4122 rules out (its
      variant digit is one of 8, 9, a, b): with the clock at 0 and every draw 12. */
  lemma VariantDigitOutsideRfc(rand: nat -> int)
    requires forall j :: rand(j) == 12
    ensures UuidFrom(UuidTemplate, 0, rand, 0, false)[19] == 'c'
  {
    assert UuidTemplate[19] == 'y';
    UuidConstantDraws(UuidTemplate, rand, 12, 0, false, 19);
    DrawTwelveGivesC();
  }

  lemma DrawTwelveGivesC()
    ensures HexDigit(DigitValue('y', 0, 12, false)) == 'c'
  {
    assert DigitValue('y', 0, 12, false) == 12;
  }

  /** The identifier evidently intended: the variant digit `r & 0x3 | 0x8`, as section 4.1.1
      of RFC 4122 requires. */
  method CreateRfcUuid(now: nat, rand: nat -> int) returns (uuid: string)
    ensures uuid == UuidFrom(UuidTemplate, now, rand, 0, true)
  {
    uuid := FillTemplate(UuidTemplate, now, rand, true);
  }

  /** The value of a string of decimal digits. */
  function DecimalValue(s: string): (n: nat)
    requires forall k :: 0 <= k < |s| ==> '0' <= s[k] <= '9'
  {
    if |s| == 0 then 0 else DecimalValue(s[..|s| - 1]) * 10 + (s[|s| - 1] as int - '0' as int)
  }

  predicate IsDigits(s: string)
  {
    |s| > 0 && forall k :: 0 <= k < |s| ==> '0' <= s[k] <= '9'
  }

  /** Python `int(s)` of a string: surrounding whitespace, an optional sign, then decimal
      digits; anything else raises ValueError (None). */
  function PyInt(s: string): (r: Option<int>)
    ensures IsDigits(s) ==> r == Some(DecimalValue(s))
    ensures |s| > 0 && s[0] == '-' && IsDigits(s[1..]) ==> r.Some? && r.value == -(DecimalValue(s[1..]) as int)
  {
    var t := Strip(s, Whitespace);
    assert IsDigits(s) ==> t == s && SignlessInt(t) == Some(DecimalValue(s)) by {
      if IsDigits(s) {
        NumeralUnstripped(s);
        assert '0' <= s[0] <= '9';
      }
    }
    assert |s| > 0 && s[0] == '-' && IsDigits(s[1..]) ==> t == s by {
      if |s| > 0 && s[0] == '-' && IsDigits(s[1..]) {
        NumeralUnstripped(s);
      }
    }
    SignlessInt(t)
  }

  /** `int()` of text with no surrounding whitespace. */
  function SignlessInt(t: string): Option<int>
  {
    if |t| > 0 && (t[0] == '+' || t[0] == '-') && IsDigits(t[1..]) then
      var v: int := DecimalValue(t[1..]);
      Some(if t[0] == '-' then -v else v)
    else if IsDigits(t) then Some(DecimalValue(t))
    else None
  }

  /** Reading back the decimal form of a number gives the number. */
  lemma {:induction false} DecimalOfNatToString(n: nat)
    ensures IsDigits(NatToString(n)) && DecimalValue(NatToString(n)) == n
    decreases n
  {
    var s := NatToString(n);
    if n >= 10 {
      DecimalOfNatToString(n / 10);
      assert s[..|s| - 1] == NatToString(n / 10);
    }
  }

  /** The hour and minute of a scheduled "H:M" time; a time that is not two ':'-parts or
      whose parts are not integers raises ValueError (None). */
  function ClockTime(scheduledTime: string): (r: Option<(int, int)>)
    ensures r.Some? <==> (':' in scheduledTime
      && var i := IndexOf(scheduledTime, ':');
         ':' !in scheduledTime[i + 1..] && PyInt(scheduledTime[..i]).Some? && PyInt(scheduledTime[i + 1..]).Some?)
    ensures r.Some? ==> (var i := IndexOf(scheduledTime, ':');
      r.value == (PyInt(scheduledTime[..i]).value, PyInt(scheduledTime[i + 1..]).value))
  {
    var parts := Split(scheduledTime, ':');
    SplitInTwo(scheduledTime, ':');
    if |parts| != 2 then None
    else
      var hour := PyInt(parts[0]);
      var minute := PyInt(parts[1]);
      if hour.None? || minute.None? then None else Some((hour.value, minute.value))
  }

  /** The seconds from midnight of a clock time. */
  function SecondsFromMidnight(hour: int, minute: int): int
  {
    hour * 60 * 60 + minute * 60
  }

  /** A time written "H:M" in decimal is read back as H hours and M minutes, that is
      3600·H + 60·M seconds from midnight. */
  lemma ClockTimeOfDecimal(h: nat, m: nat)
    ensures ClockTime(NatToString(h) + ":" + NatToString(m)) == Some((h, m))
    ensures SecondsFromMidnight(h, m) == 3600 * h + 60 * m
  {
    var hs, ms := NatToString(h), NatToString(m);
    assert Split(hs + ":" + ms, ':') == [hs, ms] by {
      assert Join([hs, ms], ':') == hs + ":" + ms by {
        assert [hs, ms][1..] == [ms];
        assert Join([ms], ':') == ms;
      }
      assert forall k :: 0 <= k < |hs| ==> hs[k] != ':';
      assert forall k :: 0 <= k < |ms| ==> ms[k] != ':';
      SplitJoin([hs, ms], ':');
    }
    PyIntOfDecimal(h);
    PyIntOfDecimal(m);
  }

  /** `int()` reads back the decimal form of a number. */
  lemma PyIntOfDecimal(n: nat)
    ensures PyInt(NatToString(n)) == Some(n)
  {
    DecimalOfNatToString(n);
  }

  /** A numeral has no surrounding whitespace to strip. */
  lemma NumeralUnstripped(s: string)
    requires IsDigits(s) || (|s| > 0 && s[0] == '-' && IsDigits(s[1..]))
    ensures Strip(s, Whitespace) == s
  {
    DigitNotWhitespace(s[|s| - 1]);
    assert RStrip(s, Whitespace) == s;
    if s[0] != '-' {
      DigitNotWhitespace(s[0]);
    }
    assert LStrip(s, Whitespace) == s;
  }

  lemma DigitNotWhitespace(c: char)
    requires '0' <= c <= '9'
    ensures c !in Whitespace
  {
  }

  /** The hour on a 12-hour clock, 0 shown as 12 (Python's `%` keeps it in 0..11). */
  function DayHour(hour: int): (r: int)
    ensures 1 <= r <= 12
    ensures r % 12 == hour % 12
  {
    if hour % 12 == 0 then 12 else hour % 12
  }

  /** The time label of an instruction: "<12-hour hour>:<minute as written>" with " PM" after
      11 o'clock and " AM" otherwise. */
  function DayTime(hour: int, minuteText: string): (r: string)
    ensures |r| >= 3 && (r[|r| - 3..] == " PM" <==> hour > 11) && (r[|r| - 3..] == " AM" <==> hour <= 11)
  {
    NatToString(DayHour(hour)) + ":" + minuteText + (if hour > 11 then " PM" else " AM")
  }

  /** The weekday table: Sunday is 0, Saturday 6; any other name raises KeyError. */
  function WeekdayIndex(weekday: string): (r: Option<nat>)
    ensures r.Some? ==> r.value < 7
  {
    if weekday == "Sunday" then Some(0)
    else if weekday == "Monday" then Some(1)
    else if weekday == "Tuesday" then Some(2)
    else if weekday == "Wednesday" then Some(3)
    else if weekday == "Thursday" then Some(4)
    else if weekday == "Friday" then Some(5)
    else if weekday == "Saturday" then Some(6)
    else None
  }

  /** Whether every listed weekday is a known name. */
  predicate KnownWeekdays(weekdays: seq<string>)
  {
    forall k :: 0 <= k < |weekdays| ==> WeekdayIndex(weekdays[k]).Some?
  }

  /** The seven empty day lists a schedule starts from. */
  const EmptyTimings: seq<seq<int>> := [[], [], [], [], [], [], []]

  /** The day lists after `seconds` was appended to the list of each weekday, in order. */
  function TimingsAfter(weekdays: seq<string>, seconds: int): (r: seq<seq<int>>)
    ensures |r| == 7
  {
    if |weekdays| == 0 then EmptyTimings
    else
      var before := TimingsAfter(weekdays[..|weekdays| - 1], seconds);
      var day := WeekdayIndex(weekdays[|weekdays| - 1]);
      if day.None? then before else before[day.value := before[day.value] + [seconds]]
  }

  /** How many of the weekdays are day `day`. */
  function DayCount(weekdays: seq<string>, day: nat): nat
  {
    if |weekdays| == 0 then 0
    else DayCount(weekdays[..|weekdays| - 1], day) + (if WeekdayIndex(weekdays[|weekdays| - 1]) == Some(day) then 1 else 0)
  }

  /** Each day's list holds the time once per listing of that day, and nothing else. */
  lemma {:induction false} TimingsAfterCounts(weekdays: seq<string>, seconds: int, day: nat)
    requires day < 7
    ensures |TimingsAfter(weekdays, seconds)[day]| == DayCount(weekdays, day)
    ensures forall k :: 0 <= k < |TimingsAfter(weekdays, seconds)[day]| ==> TimingsAfter(weekdays, seconds)[day][k] == seconds
    decreases |weekdays|
  {
    if |weekdays| > 0 {
      TimingsAfterCounts(weekdays[..|weekdays| - 1], seconds, day);
    }
  }

  /** A survey the schedule creates: its name, the time label its instruction is given and
      its day lists. */
  datatype ScheduledSurvey = ScheduledSurvey(name: string, daytime: string, timings: seq<seq<int>>)

  /** How many leading weekdays are known names (the one after them raises KeyError). */
  function KnownPrefix(weekdays: seq<string>): (n: nat)
    ensures n <= |weekdays| && KnownWeekdays(weekdays[..n])
    ensures n < |weekdays| ==> WeekdayIndex(weekdays[n]).None?
  {
    if |weekdays| == 0 || WeekdayIndex(weekdays[0]).None? then 0
    else
      var rest := KnownPrefix(weekdays[1..]);
      assert weekdays[..rest + 1] == [weekdays[0]] + weekdays[1..][..rest];
      rest + 1
  }

  /** The surveys one scheduled time creates from its seconds and label: without split days
      one survey "<key> <time>" with every weekday's slot, created once all of them were
      added; with split days one survey "<key> <weekday> <time>" per weekday, each carrying
      the slots of the weekdays up to its own. An unknown weekday raises KeyError, after the
      surveys of the weekdays before it when days are split. */
  function WeekdaySurveys(surveyKey: string, scheduledTime: string, daytime: string, seconds: int,
                          weekdays: seq<string>, splitDays: bool): (r: seq<ScheduledSurvey>)
    ensures splitDays ==> |r| == KnownPrefix(weekdays)
    ensures !splitDays ==> (|r| == 1 <==> KnownWeekdays(weekdays)) && (|r| == 0 <==> !KnownWeekdays(weekdays))
    ensures forall k :: 0 <= k < |r| ==> r[k].daytime == daytime && |r[k].timings| == 7
  {
    var n := KnownPrefix(weekdays);
    if !splitDays then
      (if n == |weekdays| then [ScheduledSurvey(surveyKey + " " + scheduledTime, daytime, TimingsAfter(weekdays, seconds))] else [])
    else SplitSurveys(surveyKey, scheduledTime, daytime, seconds, weekdays, n)
  }

  /** Every weekday before the first unknown one is known. */
  lemma KnownBefore(weekdays: seq<string>, i: nat)
    requires i <= KnownPrefix(weekdays) && i < |weekdays| && WeekdayIndex(weekdays[i]).None?
    ensures i == KnownPrefix(weekdays)
  {
    var n := KnownPrefix(weekdays);
    assert forall k :: 0 <= k < n ==> weekdays[..n][k] == weekdays[k];
  }

  /** The split-days surveys of the first `n` weekdays. */
  function SplitSurveys(surveyKey: string, scheduledTime: string, daytime: string, seconds: int,
                        weekdays: seq<string>, n: nat): (r: seq<ScheduledSurvey>)
    requires n <= |weekdays|
    ensures |r| == n
  {
    seq(n, k requires 0 <= k < n => ScheduledSurvey(surveyKey + " " + weekdays[k] + " " + scheduledTime, daytime,
                                                    TimingsAfter(weekdays[..k + 1], seconds)))
  }

  /** With split days the day lists accumulate: the survey of the k-th weekday has, for every
      day, one slot per listing of that day among the first k + 1 weekdays. */
  lemma SplitDaysAccumulate(surveyKey: string, scheduledTime: string, daytime: string, seconds: int,
                            weekdays: seq<string>, k: nat, day: nat)
    requires k < |WeekdaySurveys(surveyKey, scheduledTime, daytime, seconds, weekdays, true)| && day < 7
    ensures var t := WeekdaySurveys(surveyKey, scheduledTime, daytime, seconds, weekdays, true)[k].timings;
      |t| == 7 && |t[day]| == DayCount(weekdays[..k + 1], day) && forall j :: 0 <= j < |t[day]| ==> t[day][j] == seconds
  {
    TimingsAfterCounts(weekdays[..k + 1], seconds, day);
  }

  /** The day lists after one more known weekday. */
  lemma TimingsAfterSnoc(weekdays: seq<string>, i: nat, seconds: int)
    requires i < |weekdays| && WeekdayIndex(weekdays[i]).Some?
    ensures var day := WeekdayIndex(weekdays[i]).value;
      TimingsAfter(weekdays[..i + 1], seconds) == TimingsAfter(weekdays[..i], seconds)[day := TimingsAfter(weekdays[..i], seconds)[day] + [seconds]]
  {
    assert weekdays[..i + 1][..i] == weekdays[..i];
  }

  /** The split-days surveys after one more weekday. */
  lemma SplitSurveysSnoc(surveyKey: string, scheduledTime: string, daytime: string, seconds: int,
                         weekdays: seq<string>, i: nat)
    requires i < |weekdays|
    ensures SplitSurveys(surveyKey, scheduledTime, daytime, seconds, weekdays, i + 1)
      == SplitSurveys(surveyKey, scheduledTime, daytime, seconds, weekdays, i)
         + [ScheduledSurvey(surveyKey + " " + weekdays[i] + " " + scheduledTime, daytime, TimingsAfter(weekdays[..i + 1], seconds))]
  {
  }

  /** The weekday loop of one scheduled time. */
  method ScheduleWeekdays(surveyKey: string, scheduledTime: string, daytime: string, seconds: int,
                          weekdays: seq<string>, splitDays: bool)
    returns (created: seq<ScheduledSurvey>, r: Result<(), string>)
    ensures created == WeekdaySurveys(surveyKey, scheduledTime, daytime, seconds, weekdays, splitDays)
    ensures r.Ok? <==> KnownPrefix(weekdays) == |weekdays|
    ensures r.Err? ==> r == Err("KeyError")
  {
    var n := KnownPrefix(weekdays);
    var timingsList := EmptyTimings;
    created := [];
    var i := 0;
    while i < |weekdays|
      invariant 0 <= i <= n
      invariant timingsList == TimingsAfter(weekdays[..i], seconds)
      invariant !splitDays ==> created == []
      invariant splitDays ==> created == SplitSurveys(surveyKey, scheduledTime, daytime, seconds, weekdays, i)
    {
      var day := WeekdayIndex(weekdays[i]);
      if day.None? {
        KnownBefore(weekdays, i);
        return created, Err("KeyError");
      }
      TimingsAfterSnoc(weekdays, i, seconds);
      timingsList := timingsList[day.value := timingsList[day.value] + [seconds]];
      if splitDays {
        SplitSurveysSnoc(surveyKey, scheduledTime, daytime, seconds, weekdays, i);
        created := created + [ScheduledSurvey(surveyKey + " " + weekdays[i] + " " + scheduledTime, daytime, timingsList)];
      }
      i := i + 1;
    }
    assert weekdays[..|weekdays|] == weekdays;
    if !splitDays {
      created := [ScheduledSurvey(surveyKey + " " + scheduledTime, daytime, timingsList)];
    }
    r := Ok(());
  }

  /** One scheduled time of `--update_survey`: a time that is not "H:M" with integer parts
      raises ValueError before any survey is created; otherwise its surveys are those of its
      weekdays, at 3600·H + 60·M seconds from midnight and with the 12-hour label. */
  method ScheduleTime(surveyKey: string, scheduledTime: string, weekdays: seq<string>, splitDays: bool)
    returns (created: seq<ScheduledSurvey>, r: Result<(), string>)
    ensures ClockTime(scheduledTime).None? ==> created == [] && r == Err("ValueError")
    ensures ClockTime(scheduledTime).Some? ==>
      var t := ClockTime(scheduledTime).value;
      created == WeekdaySurveys(surveyKey, scheduledTime, DayTime(t.0, Split(scheduledTime, ':')[1]),
                                SecondsFromMidnight(t.0, t.1), weekdays, splitDays)
      && (r.Ok? <==> KnownPrefix(weekdays) == |weekdays|) && (r.Err? ==> r == Err("KeyError"))
  {
    var time := ClockTime(scheduledTime);
    if time.None? {
      return [], Err("ValueError");
    }
    var (hour, minute) := time.value;
    var secondsFromMidnight := SecondsFromMidnight(hour, minute);
    var daytime := DayTime(hour, Split(scheduledTime, ':')[1]);
    created, r := ScheduleWeekdays(surveyKey, scheduledTime, daytime, secondsFromMidnight, weekdays, splitDays);
  }

  /** The intended hours of `--write_survey_config`: every time of every day list divided by
      3600 (rounding down), duplicates dropped; the order of the set is not kept. */
  method IntendedHours(timingStruct: seq<seq<int>>) returns (hours: set<int>)
    ensures forall h :: h in hours <==> exists d, k :: 0 <= d < |timingStruct| && 0 <= k < |timingStruct[d]| && h == timingStruct[d][k] / 3600
  {
    var intendedHourList: seq<int> := [];
    var d := 0;
    while d < |timingStruct|
      invariant 0 <= d <= |timingStruct|
      invariant forall h :: h in intendedHourList <==> exists e, k :: 0 <= e < d && 0 <= k < |timingStruct[e]| && h == timingStruct[e][k] / 3600
    {
      var dayTimings := timingStruct[d];
      var j := 0;
      while j < |dayTimings|
        invariant 0 <= j <= |dayTimings|
        invariant forall h :: h in intendedHourList <==>
          (exists e, k :: 0 <= e < d && 0 <= k < |timingStruct[e]| && h == timingStruct[e][k] / 3600)
          || (exists k :: 0 <= k < j && h == dayTimings[k] / 3600)
      {
        intendedHourList := intendedHourList + [dayTimings[j] / 3600];
        j := j + 1;
      }
      d := d + 1;
    }
    hours := set h | h in intendedHourList;
  }

  /** The last position holding `text`. */
  function LastIndex(texts: seq<string>, text: string): (r: Option<nat>)
    ensures r.Some? ==> (r.value < |texts| && texts[r.value] == text
      && forall k :: r.value < k < |texts| ==> texts[k] != text)
    ensures r.None? ==> text !in texts
  {
    if |texts| == 0 then None
    else if texts[|texts| - 1] == text then Some(|texts| - 1)
    else LastIndex(texts[..|texts| - 1], text)
  }

  /** The answer numbers of a question: answers are numbered 1, 2, ... in order and keyed by
      their text, so a repeated text keeps the number of its last occurrence. */
  method AnswerNumbers(texts: seq<string>) returns (answers: map<string, int>)
    ensures answers.Keys == set t | t in texts
    ensures forall t :: t in answers ==> LastIndex(texts, t).Some? && answers[t] == LastIndex(texts, t).value + 1
  {
    answers := map[];
    var answerNum := 1;
    var i := 0;
    while i < |texts|
      invariant 0 <= i <= |texts| && answerNum == i + 1
      invariant answers.Keys == set t | t in texts[..i]
      invariant forall t :: t in answers ==> LastIndex(texts[..i], t).Some? && answers[t] == LastIndex(texts[..i], t).value + 1
    {
      assert texts[..i + 1][..i] == texts[..i];
      answers := answers[texts[i] := answerNum];
      answerNum := answerNum + 1;
      i := i + 1;
    }
    assert texts[..|texts|] == texts;
  }
}
