/** The parts of `java.time` (and of `String.toUpperCase`) that the date
    exercises rely on, with dates as epoch days (day 0 is 1970-01-01). */
module JavaTime {
  import opened Wrappers

  /** `java.time.DayOfWeek`, Monday first, as ISO 8601 numbers the days. */
  datatype DayOfWeek = MONDAY | TUESDAY | WEDNESDAY | THURSDAY | FRIDAY | SATURDAY | SUNDAY
  {
    /** `getValue()`: Monday is 1, Sunday is 7. */
    function Value(): (v: int)
      ensures 1 <= v <= 7
    {
      match this
      case MONDAY => 1
      case TUESDAY => 2
      case WEDNESDAY => 3
      case THURSDAY => 4
      case FRIDAY => 5
      case SATURDAY => 6
      case SUNDAY => 7
    }

    /** `name()`: the constant's identifier. */
    function Name(): string {
      match this
      case MONDAY => "MONDAY"
      case TUESDAY => "TUESDAY"
      case WEDNESDAY => "WEDNESDAY"
      case THURSDAY => "THURSDAY"
      case FRIDAY => "FRIDAY"
      case SATURDAY => "SATURDAY"
      case SUNDAY => "SUNDAY"
    }
  }

  /** `DayOfWeek.of(v)`, the inverse of `getValue()`. */
  function DayOfWeekOf(v: int): (d: DayOfWeek)
    requires 1 <= v <= 7
    ensures d.Value() == v
  {
    [MONDAY, TUESDAY, WEDNESDAY, THURSDAY, FRIDAY, SATURDAY, SUNDAY][v - 1]
  }

  lemma ValueInjective(a: DayOfWeek, b: DayOfWeek)
    requires a.Value() == b.Value()
    ensures a == b
  {
  }

  /** `DayOfWeek.valueOf(name)`: the constant whose identifier is exactly
      `name`; any other string makes it throw IllegalArgumentException. */
  function ValueOf(name: string): (r: Option<DayOfWeek>)
    ensures forall d: DayOfWeek :: r == Some(d) <==> d.Name() == name
  {
    if name == "MONDAY" then Some(MONDAY)
    else if name == "TUESDAY" then Some(TUESDAY)
    else if name == "WEDNESDAY" then Some(WEDNESDAY)
    else if name == "THURSDAY" then Some(THURSDAY)
    else if name == "FRIDAY" then Some(FRIDAY)
    else if name == "SATURDAY" then Some(SATURDAY)
    else if name == "SUNDAY" then Some(SUNDAY)
    else None
  }

  /** `Character.toUpperCase` for the characters that can take part in a day
      name: the ASCII letters, dotless i (U+0131, upper case I) and long s
      (U+017F, upper case S); every other character is kept as it is. */
  function UpperChar(c: char): (u: char)
    ensures 'a' <= c <= 'z' ==> u as int == c as int - 32
    ensures !('a' <= c <= 'z') && c != 'ı' && c != 'ſ' ==> u == c
  {
    if 'a' <= c <= 'z' then (c as int - 32) as char
    else if c == 'ı' then 'I'
    else if c == 'ſ' then 'S'
    else c
  }

  /** `String.toUpperCase()`, character by character. */
  function ToUpperCase(s: string): (u: string)
    ensures |u| == |s|
    ensures forall i :: 0 <= i < |s| ==> u[i] == UpperChar(s[i])
  {
    seq(|s|, i requires 0 <= i < |s| => UpperChar(s[i]))
  }

  /** `s` spells the name of `d` with each letter in upper or lower case
      ("MONDAY", "monday", "Monday", "mONDAY", ...). */
  predicate SpellsName(s: string, d: DayOfWeek) {
    var n := d.Name();
    |s| == |n| && forall i :: 0 <= i < |s| ==> s[i] == n[i] || s[i] as int == n[i] as int + 32
  }

  /** A day name is found whatever the case of each of its letters. */
  lemma {:induction false} DayNameAnyCase(s: string, d: DayOfWeek)
    requires SpellsName(s, d)
    ensures ValueOf(ToUpperCase(s)) == Some(d)
  {
    var n := d.Name();
    assert forall i :: 0 <= i < |n| ==> 'A' <= n[i] <= 'Z';
    assert ToUpperCase(s) == n;
  }

  /** The range of `LocalDate`: -999999999-01-01 to +999999999-12-31, as epoch days. */
  const MinEpochDay: int := -365243219162
  const MaxEpochDay: int := 365241780471

  type EpochDay = d: int | MinEpochDay <= d <= MaxEpochDay

  /** `LocalDate.getDayOfWeek()`: 1970-01-01 was a Thursday. */
  function GetDayOfWeek(d: int): (w: DayOfWeek)
    ensures w.Value() == (d + 3) % 7 + 1
  {
    DayOfWeekOf((d + 3) % 7 + 1)
  }

  /** `LocalDate.plusDays(n)`: None where the result leaves the range of
      `LocalDate` and `plusDays` throws DateTimeException. */
  function PlusDays(d: EpochDay, n: int): (r: Option<EpochDay>)
    ensures r.Some? <==> MinEpochDay <= d + n <= MaxEpochDay
    ensures r.Some? ==> r.value == d + n
  {
    if MinEpochDay <= d + n <= MaxEpochDay then Some(d + n) else None
  }

  /** Adding `n` days and then `-n` days returns to the start date. */
  lemma PlusDaysRoundTrip(d: EpochDay, n: int)
    requires PlusDays(d, n).Some?
    ensures PlusDays(PlusDays(d, n).value, -n) == Some(d)
  {
  }

  /** 1970-01-01 is a Thursday, and the weekday repeats every seven days. */
  lemma WeekdayCycle(d: int)
    ensures GetDayOfWeek(0) == THURSDAY
    ensures GetDayOfWeek(d + 7) == GetDayOfWeek(d)
  {
    ValueInjective(GetDayOfWeek(0), THURSDAY);
    ValueInjective(GetDayOfWeek(d + 7), GetDayOfWeek(d));
  }

  /** Counting `k` days on from `d` moves the weekday number `k` steps round the week. */
  lemma WeekdayAfter(d: int, k: int)
    ensures GetDayOfWeek(d + k).Value() == (GetDayOfWeek(d).Value() - 1 + k) % 7 + 1
  {
    assert (d + k + 3) % 7 == ((d + 3) % 7 + k) % 7;
  }

  /** A `java.time.Period` as far as the exercises read it: its years and months. */
  datatype Period = Period(years: int, months: int)
}
