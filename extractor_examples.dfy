/** Worked examples of the extraction rules on concrete messages. */
module ExtractorExamples {
  import opened Options
  import opened Strings
  import opened Decimals
  import opened Scan
  import opened Extractor

  /** `parseInt("7500000")` */
  lemma SevenAndAHalfMillion()
    ensures DigitsValue("7500000") == 7500000
  {
    assert "7500000"[..6] == "750000";
    assert "750000"[..5] == "75000";
    assert "75000"[..4] == "7500";
    assert "7500"[..3] == "750";
    assert "750"[..2] == "75";
    assert "75"[..1] == "7";
  }

  /** A large bare number under a budget cue is raw currency: "budget is 7500000" is 75 lakhs. */
  lemma RawCurrencyExample()
    ensures BudgetInMessage("budget is 7500000").Some?
    ensures Value(BudgetInMessage("budget is 7500000").value) == 75.0
  {
    ContainsAt("budget is 7500000", "budget", 0);
    RawCurrencyCued("budget is 7500000");
  }

  lemma RawCurrencyCued(s: string)
    requires s == "budget is 7500000"
    ensures CuedAmount(s).Some?
    ensures Value(CuedAmount(s).value) == 75.0
  {
    TrailingNumberHasNoUnit(s, IndianUnits, true, 10);
    TrailingNumberHasNoUnit(s, WesternUnits, true, 10);
    RawCurrencyMatch(s);
    var n := Decimal(7500000, 0);
    assert BareAmount(s) == Some(RawOrLakhs(n));
    assert Value(n) == 7500000.0;
    assert Pow10(5) == 100000;
  }

  lemma RawCurrencyMatch(s: string)
    requires s == "budget is 7500000"
    ensures FirstMatch(s, BareNumber, true) == Some(NumberMatch(10, Decimal(7500000, 0), 0))
  {
    assert |s| == 17;
    assert forall i :: 0 <= i < 10 ==> !IsDigit(s[i]);
    assert forall i :: 10 <= i < 17 ==> IsDigit(s[i]);
    OneDigitRun(s, BareNumber, true, 10, 17);
    assert DigitRunEnd(s, 10) == 17;
    assert s[10..17] == "7500000";
    SevenAndAHalfMillion();
    assert NumberAt(s, 10, true) == (Decimal(7500000, 0), 17);
    assert OccursAt(s, BareNumber[0], SkipSpaces(s, 17));
  }

  /** "2k budget" is two thousand, which is 0.2 lakhs. */
  lemma ThousandsExample()
    ensures BudgetInMessage("2k budget").Some?
    ensures Value(BudgetInMessage("2k budget").value) == 0.2
  {
    ContainsAt("2k budget", "budget", 3);
    ThousandsCued("2k budget");
  }

  lemma ThousandsCued(s: string)
    requires s == "2k budget"
    ensures CuedAmount(s).Some?
    ensures Value(CuedAmount(s).value) == 0.2
  {
    ThousandsNoIndianMatch(s);
    ThousandsWesternMatch(s);
    assert UnitOf(WesternUnits, NumberMatch(0, Decimal(2, 0), 0)) == "k";
    assert Value(Decimal(2, 0)) == 2.0;
  }

  lemma ThousandsNoIndianMatch(s: string)
    requires s == "2k budget"
    ensures FirstMatch(s, IndianUnits, true).None?
  {
    assert |s| == 9 && IsDigit(s[0]);
    assert forall i :: 1 <= i < 9 ==> !IsDigit(s[i]);
    OneDigitRun(s, IndianUnits, true, 0, 1);
    assert DigitRunEnd(s, 0) == 1;
    assert NumberAt(s, 0, true).1 == 1;
    assert SkipSpaces(s, 1) == 1;
    NoUnitStartsWith(s, IndianUnits, 1);
  }

  lemma ThousandsWesternMatch(s: string)
    requires s == "2k budget"
    ensures FirstMatch(s, WesternUnits, true) == Some(NumberMatch(0, Decimal(2, 0), 0))
  {
    assert |s| == 9 && IsDigit(s[0]);
    assert forall i :: 1 <= i < 9 ==> !IsDigit(s[i]);
    OneDigitRun(s, WesternUnits, true, 0, 1);
    assert DigitRunEnd(s, 0) == 1;
    assert SkipSpaces(s, 1) == 1;
    assert OccursAt(s, "k", 1);
    assert FirstAt(s, WesternUnits, 1) == Some(0);
    assert s[0..1] == "2";
    assert DigitsValue(s[0..1]) == 2;
  }

  /** "2 years" is 24 months. */
  lemma YearsExample(monthIndex: MonthIndex)
    ensures TimelineInMessage("2 years", monthIndex) == Some(24)
  {
    var s := "2 years";
    assert DigitRunEnd(s, 0) == 1;
    assert SkipSpaces(s, 1) == 2;
    assert OccursAt(s, "year", 2);
    assert FirstAt(s, TimeUnits, 2) == Some(4);
    assert s[0..1] == "2";
  }

  /** "3 weeks" rounds up to one month. */
  lemma WeeksExample(monthIndex: MonthIndex)
    ensures TimelineInMessage("3 weeks", monthIndex) == Some(1)
  {
    var s := "3 weeks";
    assert DigitRunEnd(s, 0) == 1;
    assert SkipSpaces(s, 1) == 2;
    assert OccursAt(s, "week", 2);
    assert FirstAt(s, TimeUnits, 2) == Some(2);
    assert s[0..1] == "3";
  }

  /** "10 days" rounds up to one month. */
  lemma DaysExample(monthIndex: MonthIndex)
    ensures TimelineInMessage("10 days", monthIndex) == Some(1)
  {
    var s := "10 days";
    assert DigitRunEnd(s, 0) == 2;
    assert SkipSpaces(s, 2) == 3;
    NoUnitStartsWith(s, TimeUnits[..6], 3);
    assert OccursAt(s, "day", 3);
    assert FirstAt(s, TimeUnits, 3) == Some(6);
    assert s[0..2] == "10";
    assert DigitsValue("10") == 10 by { assert "10"[..1] == "1"; }
  }

  /** "asap" is one month. */
  lemma AsapExample(monthIndex: MonthIndex)
    ensures TimelineInMessage("asap", monthIndex) == Some(1)
  {
    assert forall i :: 0 <= i < 4 ==> !IsDigit("asap"[i]);
    assert FirstMatch("asap", TimeUnits, false).None?;
    ContainsAt("asap", "asap", 0);
  }

  /** A city is returned with only its first letter upper-cased: "new york" gives "New york". */
  lemma CityExample()
    ensures LocationInMessage("new york") == Some("New york")
  {
    var s := "new york";
    NotContainsMissingChar(s, "looking in", 0);
    NotContainsMissingChar(s, "interested in", 0);
    NotContainsMissingChar(s, "location", 0);
    forall k | 0 <= k < 10
      ensures !OccursAt(s, Cities[k], 0)
    {
      OccursAtFirstChar(s, Cities[k], 0);
    }
    assert OccursAt(s, Cities[10], 0);
    assert CityAt(s, 0) == Some(10);
    assert Capitalize("new york") == "New york";
  }
}
