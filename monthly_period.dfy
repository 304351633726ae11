/** MonthlyPeriod/MonthlyPeriod.java: the second copy of the period
    calculator, written as an if/else chain. */
module MonthlyPeriod {
  import opened Wrappers
  import opened Decimal
  import opened JavaTime
  import opened PeriodWording
  import Gp1MonthlyPeriod

  /** The phrase for the absolute counts: the empty period first, then
      both parts, years alone, or months alone. */
  function Describe(years: nat, months: nat): (r: string)
    ensures r == Phrase(years, months)
  {
    PhraseCases(years, months);
    QuantitySpelling(years);
    QuantitySpelling(months);
    if years == 0 && months == 0 then ""
    else
      var yearPart := if years == 1 then "1 year" else IntToString(years) + " years";
      var monthPart := if months == 1 then "1 month" else IntToString(months) + " months";
      if years > 0 && months > 0 then yearPart + " and " + monthPart
      else if years > 0 then yearPart
      else monthPart
  }

  /** `calculatePeriod(startDate, endDate)`, where `parse` stands for
      `LocalDate.parse` (None when it throws) and `between` for `Period.between`. */
  function CalculatePeriod(parse: string -> Option<EpochDay>, between: (EpochDay, EpochDay) -> Period,
                           startDate: string, endDate: string): (r: string)
    ensures r == "Error" <==> parse(startDate).None? || parse(endDate).None?
    ensures parse(startDate).Some? && parse(endDate).Some? ==>
      var period := between(parse(startDate).value, parse(endDate).value);
      r == Phrase(Abs(period.years), Abs(period.months))
  {
    match (parse(startDate), parse(endDate))
    case (Some(start), Some(end)) =>
      var period := between(start, end);
      var years, months := Abs(period.years), Abs(period.months);
      PhraseIsNotError(years, months);
      Describe(years, months)
    case _ => "Error"
  }

  /** For every pair of counts the two copies write the same phrase. */
  lemma SameDescriptionAsGp1(years: nat, months: nat)
    ensures Describe(years, months) == Gp1MonthlyPeriod.Describe(years, months)
  {
  }

  /** Given the same parser and the same `Period.between`, the two copies
      return the same string for every pair of inputs. */
  lemma SameResultAsGp1(parse: string -> Option<EpochDay>, between: (EpochDay, EpochDay) -> Period,
                        startDate: string, endDate: string)
    ensures CalculatePeriod(parse, between, startDate, endDate)
         == Gp1MonthlyPeriod.CalculatePeriod(parse, between, startDate, endDate)
  {
  }
}
