/**
 * The "number, optional whitespace, unit" regular expressions of the
 * extractors, such as `/(\d+(?:\.\d+)?)\s*(l|lakh|lakhs|cr|crore|crores)/`
 * or `/(\d+)\s*(month|months|week|weeks|year|years|day|days)/`.
 *
 * `String.prototype.match` returns the leftmost match. At a start index the
 * engine reads the longest digit run (and, when the pattern has the
 * `(?:\.\d+)?` group, a point and the longest digit run after it), skips
 * whitespace greedily and then tries the unit alternatives in order.
 * Backtracking into a shorter number or a shorter whitespace run never
 * helps: the next character would then be a digit, a point or whitespace,
 * and no unit begins with one of those. So a match at index `i` is exactly
 * `MatchAt(s, i, ...)` below, and the regular expression's result is the
 * first index where it succeeds.
 */
module Scan {
  import opened Options
  import opened Strings
  import opened Decimals

  /** The index just past the run of digits starting at `i`. */
  function DigitRunEnd(s: string, i: nat): (j: nat)
    requires i <= |s|
    decreases |s| - i
    ensures i <= j <= |s|
    ensures forall k :: i <= k < j ==> IsDigit(s[k])
    ensures j == |s| || !IsDigit(s[j])
  {
    if i < |s| && IsDigit(s[i]) then DigitRunEnd(s, i + 1) else i
  }

  /** `\s*` read greedily from index `i`. */
  function SkipSpaces(s: string, i: nat): (j: nat)
    requires i <= |s|
    decreases |s| - i
    ensures i <= j <= |s|
    ensures forall k :: i <= k < j ==> IsSpace(s[k])
    ensures j == |s| || !IsSpace(s[j])
  {
    if i < |s| && IsSpace(s[i]) then SkipSpaces(s, i + 1) else i
  }

  /**
   * `(\d+)` (or `(\d+(?:\.\d+)?)` when `withFraction`) read greedily from a
   * digit at `i`, passed through `parseInt` (or `parseFloat`): the value, and
   * the index just past the number.
   */
  function NumberAt(s: string, i: nat, withFraction: bool): (r: (Decimal, nat))
    requires i < |s| && IsDigit(s[i])
    ensures i < r.1 <= |s|
    ensures !withFraction ==> r.0 == Decimal(DigitsValue(s[i..r.1]), 0)
  {
    var j := DigitRunEnd(s, i);
    if withFraction && j + 1 < |s| && s[j] == '.' && IsDigit(s[j + 1]) then
      var k := DigitRunEnd(s, j + 1);
      (Decimal(DigitsValue(s[i..j] + s[j + 1..k]), k - j - 1), k)
    else
      (Decimal(DigitsValue(s[i..j]), 0), j)
  }

  /** A match: where the number starts, its value, and which unit alternative matched. */
  datatype NumberMatch = NumberMatch(start: nat, value: Decimal, unit: nat)

  /** The pattern "number, `\s*`, one of `units`", tried at index `i` alone. */
  function MatchAt(s: string, i: nat, units: seq<string>, withFraction: bool): (r: Option<NumberMatch>)
    ensures r.Some? ==> r.value.start == i && i < |s| && IsDigit(s[i]) && r.value.unit < |units|
    ensures r.Some? ==> r.value.value == NumberAt(s, i, withFraction).0
  {
    if i < |s| && IsDigit(s[i]) then
      var (d, e) := NumberAt(s, i, withFraction);
      match FirstAt(s, units, SkipSpaces(s, e))
      case Some(u) => Some(NumberMatch(i, d, u))
      case None => None
    else None
  }

  /** The leftmost match starting at or after `from`. */
  function FirstMatchFrom(s: string, units: seq<string>, withFraction: bool, from: nat): (r: Option<NumberMatch>)
    decreases |s| - from
    ensures r.Some? ==> from <= r.value.start && MatchAt(s, r.value.start, units, withFraction) == r
    ensures forall i :: from <= i && MatchAt(s, i, units, withFraction).Some? ==> r.Some? && r.value.start <= i
  {
    if from >= |s| then None
    else if MatchAt(s, from, units, withFraction).Some? then MatchAt(s, from, units, withFraction)
    else FirstMatchFrom(s, units, withFraction, from + 1)
  }

  /** `s.match(pattern)`: the leftmost match, or `null`. */
  function FirstMatch(s: string, units: seq<string>, withFraction: bool): Option<NumberMatch> {
    FirstMatchFrom(s, units, withFraction, 0)
  }

  /** The unit alternative that a match chose. */
  function UnitOf(units: seq<string>, m: NumberMatch): string {
    if m.unit < |units| then units[m.unit] else ""
  }

  /** `(\d+(?:\.\d+)?)` with nothing after it: the unit list holding just the empty string. */
  const BareNumber: seq<string> := [""]

  /** A bare number is found exactly when the text has a digit, and it starts at the first digit. */
  lemma BareNumberAtFirstDigit(s: string, withFraction: bool)
    ensures FirstMatch(s, BareNumber, withFraction).Some? <==> exists i :: 0 <= i < |s| && IsDigit(s[i])
    ensures forall i :: 0 <= i < |s| && IsDigit(s[i]) ==>
      FirstMatch(s, BareNumber, withFraction).Some? && FirstMatch(s, BareNumber, withFraction).value.start <= i
  {
    forall i | 0 <= i < |s| && IsDigit(s[i])
      ensures MatchAt(s, i, BareNumber, withFraction).Some?
    {
      var e := NumberAt(s, i, withFraction).1;
      assert OccursAt(s, BareNumber[0], SkipSpaces(s, e));
    }
  }

  /** No alternative matches at `j` when none of them starts with the character there. */
  lemma NoUnitStartsWith(s: string, units: seq<string>, j: nat)
    requires forall k :: 0 <= k < |units| ==> units[k] != [] && (j >= |s| || units[k][0] != s[j])
    ensures FirstAt(s, units, j).None?
  {
    forall k | 0 <= k < |units|
      ensures !OccursAt(s, units[k], j)
    {
      OccursAtFirstChar(s, units[k], j);
    }
  }

  /** A text whose only digits form one run at its end has no "number then unit" match. */
  lemma TrailingNumberHasNoUnit(s: string, units: seq<string>, withFraction: bool, start: nat)
    requires start <= |s|
    requires forall i :: 0 <= i < start ==> !IsDigit(s[i])
    requires forall i :: start <= i < |s| ==> IsDigit(s[i])
    requires forall k :: 0 <= k < |units| ==> units[k] != []
    ensures FirstMatch(s, units, withFraction).None?
  {
    forall i | start <= i < |s|
      ensures MatchAt(s, i, units, withFraction).None?
    {
      assert DigitRunEnd(s, i) == |s|;
      NoUnitStartsWith(s, units, |s|);
    }
  }

  /** When all the digits of `s` form the one run `s[start..end]`, the leftmost match is the one at `start`, or none. */
  lemma {:induction false} OneDigitRun(s: string, units: seq<string>, withFraction: bool, start: nat, end: nat)
    requires start < end <= |s|
    requires forall i :: 0 <= i < start ==> !IsDigit(s[i])
    requires forall i :: start <= i < end ==> IsDigit(s[i])
    requires forall i :: end <= i < |s| ==> !IsDigit(s[i])
    ensures FirstMatch(s, units, withFraction) == MatchAt(s, start, units, withFraction)
  {
    var r := FirstMatch(s, units, withFraction);
    if r.Some? {
      var k := r.value.start;
      assert MatchAt(s, k, units, withFraction) == r;
      assert start <= k < end;
      assert DigitRunEnd(s, k) == end && DigitRunEnd(s, start) == end;
      assert NumberAt(s, k, withFraction).1 == NumberAt(s, start, withFraction).1;
      assert MatchAt(s, start, units, withFraction).Some?;
    } else {
      assert MatchAt(s, start, units, withFraction).None?;
    }
  }
}
