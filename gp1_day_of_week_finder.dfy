/** gp1/DayOfWeek/DayOfWeekFinder.java: the second copy of the next-weekday
    finder, which parses the start date with the pattern "yyyy-MM-dd". */
module Gp1DayOfWeekFinder {
  import opened Wrappers
  import opened JavaTime
  import DayOfWeekFinder

  /** The offset from the start day's ISO number to the target's, moved
      into the following week when it is not positive. */
  function Diff(startDayValue: int, targetDayValue: int): (diff: int)
    requires 1 <= startDayValue <= 7 && 1 <= targetDayValue <= 7
    ensures 1 <= diff <= 7
    ensures (startDayValue - 1 + diff) % 7 + 1 == targetDayValue
    ensures diff == 7 <==> startDayValue == targetDayValue
  {
    var diff := targetDayValue - startDayValue;
    if diff <= 0 then diff + 7 else diff
  }

  /** `findNextDayOfWeek(startDate, dayOfWeek)`, where `parse` stands for
      `LocalDate.parse(startDate, DateTimeFormatter.ofPattern("yyyy-MM-dd"))`
      (None when it throws). */
  function FindNextDayOfWeek(parse: string -> Option<EpochDay>, startDate: string, dayOfWeek: string)
    : (r: DayOfWeekFinder.Answer)
    ensures r.Error? <==>
      || parse(startDate).None?
      || ValueOf(ToUpperCase(dayOfWeek)).None?
      || parse(startDate).value + Diff(GetDayOfWeek(parse(startDate).value).Value(),
                                       ValueOf(ToUpperCase(dayOfWeek)).value.Value()) > MaxEpochDay
    ensures r.NextDate? ==>
      DayOfWeekFinder.IsNextOccurrence(parse(startDate).value, ValueOf(ToUpperCase(dayOfWeek)).value, r.date)
  {
    match parse(startDate)
    case None => DayOfWeekFinder.Error
    case Some(start) =>
      match ValueOf(ToUpperCase(dayOfWeek))
      case None => DayOfWeekFinder.Error
      case Some(targetDay) =>
        var diff := Diff(GetDayOfWeek(start).Value(), targetDay.Value());
        DayOfWeekFinder.NextOccurrenceAt(start, targetDay, diff);
        match PlusDays(start, diff)
        case None => DayOfWeekFinder.Error
        case Some(next) => DayOfWeekFinder.NextDate(next)
  }

  /** Both copies add the same number of days for every pair of weekdays. */
  lemma {:induction false} SameOffsetAsDayOfWeekFinder(current: int, target: int)
    requires 1 <= current <= 7 && 1 <= target <= 7
    ensures Diff(current, target) == DayOfWeekFinder.DaysToAdd(current, target)
  {
  }

  /** Given the same date parser, both copies give the same answer. */
  lemma SameAnswerAsDayOfWeekFinder(parse: string -> Option<EpochDay>, startDate: string, dayOfWeek: string)
    ensures FindNextDayOfWeek(parse, startDate, dayOfWeek)
         == DayOfWeekFinder.FindNextDayOfWeek(parse, startDate, dayOfWeek)
  {
  }

  /** A same-weekday target gives the start date plus seven days. */
  lemma SameWeekdayIsAWeekLater(parse: string -> Option<EpochDay>, startDate: string, dayOfWeek: string)
    requires parse(startDate).Some? && parse(startDate).value + 7 <= MaxEpochDay
    requires ValueOf(ToUpperCase(dayOfWeek)) == Some(GetDayOfWeek(parse(startDate).value))
    ensures FindNextDayOfWeek(parse, startDate, dayOfWeek) == DayOfWeekFinder.NextDate(parse(startDate).value + 7)
  {
  }

  /** The day name may be given with each letter in either case. */
  lemma {:induction false} DayNameCaseInsensitive(parse: string -> Option<EpochDay>, startDate: string,
                                                  dayOfWeek: string, d: DayOfWeek)
    requires SpellsName(dayOfWeek, d)
    ensures FindNextDayOfWeek(parse, startDate, dayOfWeek) == FindNextDayOfWeek(parse, startDate, d.Name())
  {
    DayNameAnyCase(dayOfWeek, d);
    DayNameAnyCase(d.Name(), d);
  }
}
