/** DayOfWeek/DayOfWeekFinder.java: the next date after a start date that
    falls on a given weekday. */
module DayOfWeekFinder {
  import opened Wrappers
  import opened JavaTime

  /** What `findNextDayOfWeek` returns: the date whose `toString()` it
      returns, or the string "Error" when an exception was caught. */
  datatype Answer = NextDate(date: EpochDay) | Error

  /** The number of days from a day with ISO number `currentDayValue` to the
      next day, strictly later, with number `targetDayValue`. */
  function DaysToAdd(currentDayValue: int, targetDayValue: int): (daysToAdd: int)
    requires 1 <= currentDayValue <= 7 && 1 <= targetDayValue <= 7
    ensures 1 <= daysToAdd <= 7
    ensures (currentDayValue - 1 + daysToAdd) % 7 + 1 == targetDayValue
    ensures daysToAdd == 7 <==> currentDayValue == targetDayValue
  {
    var daysToAdd := targetDayValue - currentDayValue;
    if daysToAdd <= 0 then daysToAdd + 7 else daysToAdd
  }

  /** `findNextDayOfWeek(startDate, dayOfWeek)`, where `parse` stands for
      `LocalDate.parse` (None when it throws). */
  function FindNextDayOfWeek(parse: string -> Option<EpochDay>, startDate: string, dayOfWeek: string): (r: Answer)
    ensures r.Error? <==>
      || parse(startDate).None?
      || ValueOf(ToUpperCase(dayOfWeek)).None?
      || parse(startDate).value + DaysToAdd(GetDayOfWeek(parse(startDate).value).Value(),
                                            ValueOf(ToUpperCase(dayOfWeek)).value.Value()) > MaxEpochDay
    ensures r.NextDate? ==> IsNextOccurrence(parse(startDate).value, ValueOf(ToUpperCase(dayOfWeek)).value, r.date)
  {
    match parse(startDate)
    case None => Error
    case Some(start) =>
      match ValueOf(ToUpperCase(dayOfWeek))
      case None => Error
      case Some(targetDay) =>
        var daysToAdd := DaysToAdd(GetDayOfWeek(start).Value(), targetDay.Value());
        NextOccurrenceAt(start, targetDay, daysToAdd);
        match PlusDays(start, daysToAdd)
        case None => Error
        case Some(nextDate) => NextDate(nextDate)
  }

  /** `d` is the first day strictly after `start` that falls on `target`. */
  ghost predicate IsNextOccurrence(start: int, target: DayOfWeek, d: int) {
    && start < d <= start + 7
    && GetDayOfWeek(d) == target
    && forall e :: start < e < d ==> GetDayOfWeek(e) != target
  }

  /** The day `DaysToAdd` days after `start` is the next occurrence of `target`. */
  lemma NextOccurrenceAt(start: int, target: DayOfWeek, daysToAdd: int)
    requires daysToAdd == DaysToAdd(GetDayOfWeek(start).Value(), target.Value())
    ensures IsNextOccurrence(start, target, start + daysToAdd)
  {
    var current := GetDayOfWeek(start).Value();
    WeekdayAfter(start, daysToAdd);
    ValueInjective(GetDayOfWeek(start + daysToAdd), target);
    forall e | start < e < start + daysToAdd
      ensures GetDayOfWeek(e) != target
    {
      WeekdayAfter(start, e - start);
      assert (current - 1 + (e - start)) % 7 != (current - 1 + daysToAdd) % 7;
    }
  }

  /** There is only one next occurrence, so the answer is determined by the
      start date and the target day alone. */
  lemma NextOccurrenceUnique(start: int, target: DayOfWeek, d1: int, d2: int)
    requires IsNextOccurrence(start, target, d1) && IsNextOccurrence(start, target, d2)
    ensures d1 == d2
  {
  }

  /** A start date that already falls on the target day is answered with
      the date a week later, never itself. */
  lemma SameWeekdayIsAWeekLater(parse: string -> Option<EpochDay>, startDate: string, dayOfWeek: string)
    requires parse(startDate).Some? && parse(startDate).value + 7 <= MaxEpochDay
    requires ValueOf(ToUpperCase(dayOfWeek)) == Some(GetDayOfWeek(parse(startDate).value))
    ensures FindNextDayOfWeek(parse, startDate, dayOfWeek) == NextDate(parse(startDate).value + 7)
  {
  }

  /** The day name may be given with each letter in either case. */
  lemma {:induction false} DayNameCaseInsensitive(parse: string -> Option<EpochDay>, startDate: string,
                                                  dayOfWeek: string, d: DayOfWeek)
    requires SpellsName(dayOfWeek, d)
    ensures FindNextDayOfWeek(parse, startDate, dayOfWeek) == FindNextDayOfWeek(parse, startDate, d.Name())
  {
    DayNameAnyCase(dayOfWeek, d);
    DayNameAnyCase(d.Name(), d);
  }
}
