/** gp1/MonthlyPeriod/MonthlyPeriod.java: the years and months between two
    dates, as an English phrase. */
module Gp1MonthlyPeriod {
  import opened Wrappers
  import opened Decimal
  import opened JavaTime
  import opened PeriodWording

  /** The phrase built from the absolute counts: both parts are written
      first, then the zero cases are picked out. */
  function Describe(yInt: nat, mInt: nat): (ans: string)
    ensures ans == Phrase(yInt, mInt)
  {
    PhraseCases(yInt, mInt);
    QuantitySpelling(yInt);
    QuantitySpelling(mInt);
    var y := if yInt == 1 then "1 year" else IntToString(yInt) + " years";
    var m := if mInt == 1 then "1 month" else IntToString(mInt) + " months";
    if yInt == 0 && mInt == 0 then ""
    else if yInt == 0 then m
    else if mInt == 0 then y
    else y + " and " + m
  }

  /** `calculatePeriod(startDate, endDate)`, where `parse` stands for
      `LocalDate.parse(s, DateTimeFormatter.ofPattern("yyyy-MM-dd"))` (None
      when it throws) and `between` for `Period.between`. */
  function CalculatePeriod(parse: string -> Option<EpochDay>, between: (EpochDay, EpochDay) -> Period,
                           startDate: string, endDate: string): (r: string)
    ensures r == "Error" <==> parse(startDate).None? || parse(endDate).None?
    ensures parse(startDate).Some? && parse(endDate).Some? ==>
      var diff := between(parse(startDate).value, parse(endDate).value);
      r == Phrase(Abs(diff.years), Abs(diff.months))
  {
    match (parse(startDate), parse(endDate))
    case (Some(start), Some(end)) =>
      var diff := between(start, end);
      var ans := Describe(Abs(diff.years), Abs(diff.months));
      PhraseIsNotError(Abs(diff.years), Abs(diff.months));
      ans
    case _ => "Error"
  }
}
