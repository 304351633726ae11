/** The English wording both period calculators aim at, stated on its own:
    the non-zero counts among years and months, each with its unit in the
    singular for one and the plural otherwise, joined by " and ". */
module PeriodWording {
  import opened Decimal

  /** `Math.abs` on the values `Period.between` can produce. */
  function Abs(x: int): (a: nat)
    ensures a == x || a == -x
  {
    if x < 0 then -x else x
  }

  /** "<n> <unit>", with an "s" added unless `n` is one. */
  function Quantity(n: nat, unit: string): (q: string) {
    NatToString(n) + " " + unit + Plural(n)
  }

  /** The quantities one mentions: only the counts that are not zero. */
  function NonZeroParts(years: nat, months: nat): (parts: seq<string>)
    ensures |parts| == (if years != 0 then 1 else 0) + (if months != 0 then 1 else 0)
  {
    (if years != 0 then [Quantity(years, "year")] else [])
      + (if months != 0 then [Quantity(months, "month")] else [])
  }

  function JoinWithAnd(parts: seq<string>): string
    decreases |parts|
  {
    if |parts| == 0 then ""
    else if |parts| == 1 then parts[0]
    else parts[0] + " and " + JoinWithAnd(parts[1..])
  }

  /** The phrase for a period of `years` years and `months` months. */
  function Phrase(years: nat, months: nat): string {
    JoinWithAnd(NonZeroParts(years, months))
  }

  /** The phrase case by case: empty, one quantity alone, or both joined by " and ". */
  lemma PhraseCases(years: nat, months: nat)
    ensures years == 0 && months == 0 ==> Phrase(years, months) == ""
    ensures years != 0 && months == 0 ==> Phrase(years, months) == Quantity(years, "year")
    ensures years == 0 && months != 0 ==> Phrase(years, months) == Quantity(months, "month")
    ensures years != 0 && months != 0 ==>
      Phrase(years, months) == Quantity(years, "year") + " and " + Quantity(months, "month")
  {
    var parts := NonZeroParts(years, months);
    if years != 0 && months != 0 {
      assert parts == [Quantity(years, "year"), Quantity(months, "month")];
      assert parts[1..] == [Quantity(months, "month")];
      assert JoinWithAnd(parts[1..]) == Quantity(months, "month");
    }
  }

  /** The two quantities as the calculators spell them out. */
  lemma QuantitySpelling(n: nat)
    ensures Quantity(n, "year") == if n == 1 then "1 year" else IntToString(n) + " years"
    ensures Quantity(n, "month") == if n == 1 then "1 month" else IntToString(n) + " months"
  {
    if n == 1 {
      assert NatToString(1) == "1";
    }
  }

  /** An empty phrase means an empty period; any other phrase starts with
      a digit other than zero, so its leading count is never zero. */
  lemma PhraseShape(years: nat, months: nat)
    ensures Phrase(years, months) == "" <==> years == 0 && months == 0
    ensures Phrase(years, months) != "" ==> IsDigit(Phrase(years, months)[0]) && Phrase(years, months)[0] != '0'
  {
    var p := Phrase(years, months);
    if years != 0 {
      assert p[..|NatToString(years)|] == NatToString(years);
    } else if months != 0 {
      assert p[..|NatToString(months)|] == NatToString(months);
    }
  }

  /** No phrase reads "Error", so a caller can tell the error answer apart. */
  lemma PhraseIsNotError(years: nat, months: nat)
    ensures Phrase(years, months) != "Error"
  {
    PhraseShape(years, months);
  }

  function Plural(n: nat): string {
    if n == 1 then "" else "s"
  }

  /** The count a non-empty phrase starts with. */
  function Lead(years: nat, months: nat): nat {
    if years != 0 then years else months
  }

  /** What follows the leading count and its space. */
  function Tail(years: nat, months: nat): string {
    if years == 0 then "month" + Plural(months)
    else if months == 0 then "year" + Plural(years)
    else "year" + Plural(years) + " and " + Quantity(months, "month")
  }

  lemma PhraseSplit(years: nat, months: nat)
    requires years != 0 || months != 0
    ensures Phrase(years, months) == NatToString(Lead(years, months)) + " " + Tail(years, months)
  {
    var parts := NonZeroParts(years, months);
    if years != 0 && months != 0 {
      assert parts == [Quantity(years, "year"), Quantity(months, "month")];
      assert parts[1..] == [Quantity(months, "month")];
      assert JoinWithAnd(parts[1..]) == Quantity(months, "month");
      assert Phrase(years, months) == Quantity(years, "year") + " and " + Quantity(months, "month");
    }
  }

  /** Equal texts that both start with a count and a space have equal counts
      and equal remainders. */
  lemma LeadingCountUnique(a: nat, b: nat, r1: string, r2: string)
    requires NatToString(a) + " " + r1 == NatToString(b) + " " + r2
    ensures a == b && r1 == r2
  {
    assert NatToString(a) + " " + r1 == NatToString(a) + (" " + r1);
    assert NatToString(b) + " " + r2 == NatToString(b) + (" " + r2);
    DigitPrefixUnique(NatToString(a), " " + r1, NatToString(b), " " + r2);
    NatToStringInjective(a, b);
    assert r1 == (" " + r1)[1..] && r2 == (" " + r2)[1..];
  }

  /** The phrase names its counts: equal phrases mean equal counts. */
  lemma PhraseInjective(y1: nat, m1: nat, y2: nat, m2: nat)
    requires Phrase(y1, m1) == Phrase(y2, m2)
    ensures y1 == y2 && m1 == m2
  {
    PhraseShape(y1, m1);
    PhraseShape(y2, m2);
    if y1 != 0 || m1 != 0 {
      PhraseSplit(y1, m1);
      PhraseSplit(y2, m2);
      LeadingCountUnique(Lead(y1, m1), Lead(y2, m2), Tail(y1, m1), Tail(y2, m2));
      TailInjective(y1, m1, y2, m2);
    }
  }

  lemma TailInjective(y1: nat, m1: nat, y2: nat, m2: nat)
    requires y1 != 0 || m1 != 0
    requires y2 != 0 || m2 != 0
    requires Lead(y1, m1) == Lead(y2, m2) && Tail(y1, m1) == Tail(y2, m2)
    ensures y1 == y2 && m1 == m2
  {
    var t1, t2 := Tail(y1, m1), Tail(y2, m2);
    if y1 != 0 && m1 != 0 && y2 != 0 && m2 != 0 {
      var k := |"year" + Plural(y1) + " and "|;
      assert t1[k..] == NatToString(m1) + " " + ("month" + Plural(m1));
      assert t2[k..] == NatToString(m2) + " " + ("month" + Plural(m2));
      LeadingCountUnique(m1, m2, "month" + Plural(m1), "month" + Plural(m2));
    }
  }
}
