/** gp1/TimeTracker/ProjectTime.java: two timestamps, the minutes between
    them kept up to date by every setter, and that value shown in minutes,
    hours, days or 30-day months. The `float` field is modelled as an exact
    `real`. */
module TimeTracker {
  import opened Wrappers
  import opened Decimal

  /** `SimpleDateFormat("yyyy-MM-dd HH:mm").parse` followed by `getTime()`:
      the instant in epoch milliseconds, or None where it throws ParseException. */
  type Parser = string -> Option<int>

  const IntMin: int := -0x8000_0000
  const IntMax: int := 0x7fff_ffff

  /** The value `calculateHoursLogged` stores for two parse results: the
      minutes from start to end, or -1 when either failed or the span is negative. */
  function ElapsedMinutes(start: Option<int>, end: Option<int>): (r: real)
    ensures r == -1.0 || r >= 0.0
    ensures r == -1.0 <==> start.None? || end.None? || end.value < start.value
    ensures r != -1.0 ==> r * 60000.0 == (end.value - start.value) as real
  {
    if start.None? || end.None? || end.value < start.value then -1.0
    else (end.value - start.value) as real / 60000.0
  }

  /** Java's `(int)` cast of a floating-point value: toward zero, then
      clamped to the `int` range. */
  function IntCast(x: real): (i: int)
    ensures IntMin <= i <= IntMax
    ensures 0.0 <= x < IntMax as real ==> i == x.Floor
    ensures x >= 0.0 ==> i >= 0
  {
    var t := if x >= 0.0 then x.Floor else -((-x).Floor);
    if t < IntMin then IntMin else if t > IntMax then IntMax else t
  }

  /** `getHoursLogged()` on a stored value of `minutes`. */
  function Format(minutes: real): string {
    if minutes == -1.0 then "-1"
    else if minutes < 120.0 then IntToString(IntCast(minutes)) + " m"
    else
      var hours := minutes / 60.0;
      if hours < 120.0 then IntToString(IntCast(hours)) + " h"
      else
        var days := hours / 24.0;
        if days < 120.0 then IntToString(IntCast(days)) + " d"
        else
          var months := days / 30.0;
          IntToString(IntCast(months)) + " mo"
  }

  /** The units a duration can be shown in, smallest first. */
  datatype Unit = Minutes | Hours | Days | Months

  /** The length of one unit, in minutes. */
  function Size(u: Unit): real {
    match u
    case Minutes => 1.0
    case Hours => 60.0
    case Days => 1440.0
    case Months => 43200.0
  }

  function Suffix(u: Unit): string {
    match u
    case Minutes => " m"
    case Hours => " h"
    case Days => " d"
    case Months => " mo"
  }

  function Smaller(u: Unit): Unit
    requires u != Minutes
  {
    match u
    case Hours => Minutes
    case Days => Hours
    case Months => Days
  }

  /** `u` is the unit to show `minutes` in: the next smaller unit would
      count 120 or more of itself, and `u` counts fewer than 120 unless it
      is the largest. */
  predicate Admissible(minutes: real, u: Unit) {
    && (u == Minutes || minutes >= 120.0 * Size(Smaller(u)))
    && (u == Months || minutes < 120.0 * Size(u))
  }

  /** Every non-negative duration has exactly one unit to be shown in. */
  lemma UnitExistsAndIsUnique(minutes: real, u: Unit, v: Unit)
    requires minutes >= 0.0
    ensures Admissible(minutes, Minutes) || Admissible(minutes, Hours)
         || Admissible(minutes, Days) || Admissible(minutes, Months)
    ensures Admissible(minutes, u) && Admissible(minutes, v) ==> u == v
  {
  }

  /** A non-negative duration is shown as the whole number of its unit that
      it contains, followed by the unit's suffix. */
  lemma FormatShowsAdmissibleUnit(minutes: real, u: Unit)
    requires minutes >= 0.0 && Admissible(minutes, u)
    ensures Format(minutes) == IntToString(IntCast(minutes / Size(u))) + Suffix(u)
  {
    if u == Days {
      assert minutes / 60.0 / 24.0 == minutes / Size(u);
    } else if u == Months {
      assert minutes / 60.0 / 24.0 / 30.0 == minutes / Size(u);
    }
  }

  /** The number shown is the truncated count of whole units (for months,
      while that count fits in an `int`): below 120 for every unit but
      months, and at least 2 hours, 5 days or 4 months once the smaller unit
      has been passed. */
  lemma {:induction false} ShownCount(minutes: real, u: Unit)
    requires minutes >= 0.0 && Admissible(minutes, u)
    ensures u != Months ==>
      var n := IntCast(minutes / Size(u));
      0 <= n < 120 && n as real * Size(u) <= minutes < (n + 1) as real * Size(u)
    ensures u == Hours ==> IntCast(minutes / Size(u)) >= 2
    ensures u == Days ==> IntCast(minutes / Size(u)) >= 5
    ensures u == Months ==> IntCast(minutes / Size(u)) >= 4
    ensures u == Months && minutes / Size(u) < IntMax as real ==>
      var n := IntCast(minutes / Size(u));
      n as real * Size(u) <= minutes < (n + 1) as real * Size(u)
  {
    var q := minutes / Size(u);
    var n := IntCast(q);
    if u != Months {
      assert q < 120.0;
      assert n == q.Floor;
      assert n as real <= q < (n + 1) as real;
      assert q * Size(u) == minutes;
    }
    if u == Months {
      assert q >= 4.0;
    }
  }

  /** The error sentinel is shown as "-1" and nothing else is. */
  lemma FormatSentinel(minutes: real)
    ensures Format(minutes) == "-1" <==> minutes == -1.0
  {
  }

  /** An object that owns the two timestamps and the minutes between them. */
  class ProjectTime {
    const parse: Parser
    var startTime: string
    var endTime: string
    var hoursLogged: real

    /** The stored minutes agree with the current timestamps. */
    ghost predicate Valid()
      reads this
    {
      hoursLogged == ElapsedMinutes(parse(startTime), parse(endTime))
    }

    constructor (parse: Parser, start: string, end: string)
      ensures this.parse == parse && startTime == start && endTime == end
      ensures Valid()
    {
      this.parse := parse;
      startTime := start;
      endTime := end;
      hoursLogged := 0.0;
      new;
      CalculateHoursLogged();
    }

    method SetStartTime(newStartTime: string)
      modifies this
      ensures startTime == newStartTime && endTime == old(endTime)
      ensures Valid()
    {
      startTime := newStartTime;
      CalculateHoursLogged();
    }

    method SetEndTime(newEndTime: string)
      modifies this
      ensures endTime == newEndTime && startTime == old(startTime)
      ensures Valid()
    {
      endTime := newEndTime;
      CalculateHoursLogged();
    }

    method GetStartTime() returns (s: string)
      ensures s == startTime
    {
      s := startTime;
    }

    method GetEndTime() returns (s: string)
      ensures s == endTime
    {
      s := endTime;
    }

    /** The shown duration; "-1" exactly when the stored value is the sentinel. */
    function GetHoursLogged(): (r: string)
      reads this
      ensures r == "-1" <==> hoursLogged == -1.0
    {
      Format(hoursLogged)
    }

    /** Parses both timestamps, stores the minutes between them, then
      replaces a negative value by -1. */
    method CalculateHoursLogged()
      modifies this`hoursLogged
      ensures Valid()
    {
      var start := parse(startTime);
      if start.None? {
        hoursLogged := -1.0;
        return;
      }
      var end := parse(endTime);
      if end.None? {
        hoursLogged := -1.0;
        return;
      }
      var differenceMs := end.value - start.value;
      hoursLogged := differenceMs as real / 60000.0;
      if hoursLogged < 0.0 {
        hoursLogged := -1.0;
      }
    }
  }

  /** Equal timestamps that parse are zero minutes apart, shown as "0 m". */
  lemma EqualTimesShowZero(parse: Parser, t: string)
    requires parse(t).Some?
    ensures ElapsedMinutes(parse(t), parse(t)) == 0.0
    ensures Format(ElapsedMinutes(parse(t), parse(t))) == "0 m"
  {
    assert IntCast(0.0) == 0;
    assert NatToString(0) == "0";
  }

  /** The boundaries: 60 minutes, 120 minutes, 120 hours and 121 days. */
  lemma FormatBoundaries()
    ensures Format(60.0) == "60 m"
    ensures Format(120.0) == "2 h"
    ensures Format(7200.0) == "5 d"
    ensures Format(121.0 * 1440.0) == "4 mo"
  {
    assert IntCast(60.0) == 60 && NatToString(60) == NatToString(6) + "0";
    assert IntCast(120.0 / 60.0) == 2 && NatToString(2) == "2";
    assert IntCast(7200.0 / 60.0 / 24.0) == 5 && NatToString(5) == "5";
    assert IntCast(121.0 * 1440.0 / 60.0 / 24.0 / 30.0) == 4 && NatToString(4) == "4";
  }
}
