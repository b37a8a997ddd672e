/**
 * The standalone metadata extractor: deterministic first-match rules over
 * the lower-cased user messages of a conversation. Each field has its own
 * per-message rule; the field's value comes from the earliest message for
 * which that rule yields one.
 */
module Extractor {
  import opened Options
  import opened Strings
  import opened Decimals
  import opened Scan
  import opened Leads

  /** `new Date().getMonth()`: January is 0. */
  type MonthIndex = m: nat | m < 12

  /**
   * `for (const msg of messages) { ...; if (found) return value; } return null;`:
   * the value of the earliest message for which `f` yields one.
   */
  function FirstFound<T>(msgs: seq<string>, f: string -> Option<T>): (r: Option<T>)
    ensures r.Some? ==> exists i :: 0 <= i < |msgs| && f(msgs[i]) == r && forall j :: 0 <= j < i ==> f(msgs[j]).None?
    ensures r.None? ==> forall i :: 0 <= i < |msgs| ==> f(msgs[i]).None?
  {
    if msgs == [] then None
    else if f(msgs[0]).Some? then f(msgs[0])
    else
      var r := FirstFound(msgs[1..], f);
      assert forall i :: 1 <= i < |msgs| ==> msgs[i] == msgs[1..][i - 1];
      r
  }

  /** The search stops at the first message that yields a value. */
  lemma FirstFoundAt<T>(msgs: seq<string>, f: string -> Option<T>, i: nat)
    requires i < |msgs| && f(msgs[i]).Some?
    requires forall j :: 0 <= j < i ==> f(msgs[j]).None?
    ensures FirstFound(msgs, f) == f(msgs[i])
  {
    var r := FirstFound(msgs, f);
    var k :| 0 <= k < |msgs| && f(msgs[k]) == r && forall j :: 0 <= j < k ==> f(msgs[j]).None?;
    if k < i {
      assert false;
    } else if i < k {
      assert false;
    }
  }

  /**
   * `v` is the value of the earliest message for which `f` yields one, or
   * none when no message yields a value: the search stated without the loop.
   */
  ghost predicate Earliest<T>(msgs: seq<string>, f: string -> Option<T>, v: Option<T>) {
    && (v.None? ==> forall i :: 0 <= i < |msgs| ==> f(msgs[i]).None?)
    && (v.Some? ==> exists i :: 0 <= i < |msgs| && f(msgs[i]) == v && forall j :: 0 <= j < i ==> f(msgs[j]).None?)
  }

  /** The search computes exactly the earliest value, and no other value is the earliest. */
  lemma EarliestIsFirstFound<T>(msgs: seq<string>, f: string -> Option<T>, v: Option<T>)
    ensures Earliest(msgs, f, v) <==> v == FirstFound(msgs, f)
  {
    if Earliest(msgs, f, v) {
      if v.Some? {
        var i :| 0 <= i < |msgs| && f(msgs[i]) == v && forall j :: 0 <= j < i ==> f(msgs[j]).None?;
        FirstFoundAt(msgs, f, i);
      }
    }
  }

  // ---------------------------------------------------------------- location

  /** The markers the source splits on; only the first three open the rule. */
  const LocationMarkers: seq<string> := ["looking in", "interested in", "location", "area"]

  const NeighbourhoodMarkers: seq<string> := ["near", "around"]

  const Cities: seq<string> := [
    "mumbai", "delhi", "bangalore", "pune", "hyderabad", "chennai", "kolkata", "ahmedabad",
    "jaipur", "surat", "new york", "london", "toronto", "los angeles", "chicago", "san francisco"]

  /** `\b` just before index `i` of a match that starts with a word character. */
  predicate BoundaryBefore(s: string, i: nat) {
    i == 0 || (i <= |s| && !IsWordChar(s[i - 1]))
  }

  /** `\b` at index `j`, just after a match that ends with a word character. */
  predicate BoundaryAfter(s: string, j: nat) {
    j >= |s| || !IsWordChar(s[j])
  }

  /** The first city of the alternation, from the `k`-th on, that matches at `i` and ends on a boundary. */
  function CityAt(s: string, i: nat, k: nat := 0): (r: Option<nat>)
    requires k <= |Cities|
    decreases |Cities| - k
    ensures r.Some? ==> k <= r.value < |Cities| && OccursAt(s, Cities[r.value], i)
    ensures r.Some? ==> BoundaryAfter(s, i + |Cities[r.value]|)
  {
    if k == |Cities| then None
    else if OccursAt(s, Cities[k], i) && BoundaryAfter(s, i + |Cities[k]|) then Some(k)
    else CityAt(s, i, k + 1)
  }

  /** `s.match(/\b(mumbai|...|san francisco)\b/i)[0]`, searching from `from` on. */
  function CityFrom(s: string, from: nat): (r: Option<string>)
    decreases |s| + 1 - from
    ensures r.Some? ==> r.value in Cities
  {
    if from > |s| then None
    else if BoundaryBefore(s, from) && CityAt(s, from).Some? then Some(Cities[CityAt(s, from).value])
    else CityFrom(s, from + 1)
  }

  /**
   * The part after the first marker, stripped of non-word characters at
   * both ends, when it is longer than two characters.
   */
  function MarkedPlace(msg: string, markers: seq<string>): (r: Option<string>)
    ensures r.Some? ==> |r.value| > 2 && IsWordChar(r.value[0]) && IsWordChar(r.value[|r.value| - 1])
  {
    match SecondSplitPart(msg, markers)
    case None => None
    case Some(part) =>
      var place := StripNonWord(part);
      if |place| > 2 then Some(place) else None
  }

  /**
   * `locationPart.length > 2` counts UTF-16 code units; on a stripped place,
   * which starts and ends with an ASCII word character, that is the same test
   * as on characters.
   */
  lemma PlaceLengthInCodeUnits(place: string)
    requires place != [] && IsWordChar(place[0]) && IsWordChar(place[|place| - 1])
    ensures |place| > 2 <==> Utf16Length(place) > 2
  {
    if |place| <= 2 {
      assert forall i :: 0 <= i < |place| ==> !Astral(place[i]) by {
        forall i | 0 <= i < |place|
          ensures !Astral(place[i])
        {
          assert i == 0 || i == |place| - 1;
        }
      }
    }
  }

  /** The location rule for one message: marker phrase, then known city, then "near"/"around". */
  function LocationInMessage(msg: string): Option<string> {
    var marked :=
      if Contains(msg, "looking in") || Contains(msg, "interested in") || Contains(msg, "location")
      then MarkedPlace(msg, LocationMarkers) else None;
    if marked.Some? then marked
    else match CityFrom(msg, 0)
      case Some(city) => Some(Capitalize(city))
      case None =>
        if Contains(msg, "near") || Contains(msg, "around") then
          match MarkedPlace(msg, NeighbourhoodMarkers)
          case Some(place) => if !Contains(place, "not sure") then Some(place) else None
          case None => None
        else None
  }

  /** `extractLocation` */
  function ExtractLocation(msgs: seq<string>): (r: Option<string>)
    ensures Earliest(msgs, LocationInMessage, r)
  {
    FirstFound(msgs, LocationInMessage)
  }

  // ---------------------------------------------------------------- budget

  const IndianUnits: seq<string> := ["l", "lakh", "lakhs", "cr", "crore", "crores"]
  const WesternUnits: seq<string> := ["k", "thousand", "m", "million", "$"]

  predicate BudgetCue(msg: string) {
    Contains(msg, "budget") || Contains(msg, "afford") || Contains(msg, "price") || Contains(msg, "cost")
  }

  predicate MaxCue(msg: string) {
    Contains(msg, "max") && Contains(msg, "up to")
  }

  /** A bare amount: above 100000 it is taken as raw currency and converted to lakhs. */
  function RawOrLakhs(n: Decimal): (r: Decimal)
    ensures Value(n) > 100000.0 ==> Value(r) == Value(n) / 100000.0
    ensures Value(n) <= 100000.0 ==> r == n
  {
    if Value(n) > 100000.0 then DivPow10(n, 5) else n
  }

  /** The Indian-format step: a lakh unit keeps the number, a crore unit multiplies it by 100. */
  function IndianAmount(m: NumberMatch): (r: Option<Decimal>)
    ensures StartsWith(UnitOf(IndianUnits, m), "l") ==> r == Some(m.value)
    ensures StartsWith(UnitOf(IndianUnits, m), "cr") ==> r.Some? && Value(r.value) == 100.0 * Value(m.value)
    ensures m.unit < |IndianUnits| ==> r.Some?
  {
    var unit := UnitOf(IndianUnits, m);
    assert StartsWith(unit, "l") ==> unit[0] == 'l' by { if StartsWith(unit, "l") { assert unit[..1] == "l"; } }
    assert StartsWith(unit, "cr") ==> unit[0] == 'c' by { if StartsWith(unit, "cr") { assert unit[..2] == "cr"; } }
    if StartsWith(unit, "l") then Some(m.value)
    else if StartsWith(unit, "cr") then Some(TimesPow10(m.value, 2))
    else None
  }

  /** The Western-format step: thousands and millions to lakhs, dollars to lakhs. */
  function WesternAmount(m: NumberMatch): (r: Option<Decimal>)
    ensures UnitOf(WesternUnits, m) in {"k", "thousand"} ==> r.Some? && Value(r.value) == Value(m.value) / 10.0
    ensures UnitOf(WesternUnits, m) in {"m", "million"} ==> r.Some? && Value(r.value) == 10.0 * Value(m.value)
    ensures UnitOf(WesternUnits, m) == "$" ==> r.Some? && Value(r.value) == Value(m.value) / 100000.0
    ensures m.unit < |WesternUnits| ==> r.Some?
  {
    var unit := UnitOf(WesternUnits, m);
    if unit == "k" || unit == "thousand" then Some(DivPow10(m.value, 1))
    else if unit == "m" || unit == "million" then Some(TimesPow10(m.value, 1))
    else if unit == "$" then Some(DivPow10(m.value, 5))
    else None
  }

  /** The steps of the budget rule taken when the message has a budget cue. */
  function CuedAmount(msg: string): (r: Option<Decimal>)
    ensures var m := FirstMatch(msg, IndianUnits, true); m.Some? ==> r == IndianAmount(m.value)
    ensures var m := FirstMatch(msg, WesternUnits, true);
      FirstMatch(msg, IndianUnits, true).None? && m.Some? ==> r == WesternAmount(m.value)
    ensures FirstMatch(msg, IndianUnits, true).None? && FirstMatch(msg, WesternUnits, true).None? ==> r == BareAmount(msg)
  {
    var indian := match FirstMatch(msg, IndianUnits, true) case Some(m) => IndianAmount(m) case None => None;
    var western := match FirstMatch(msg, WesternUnits, true) case Some(m) => WesternAmount(m) case None => None;
    if indian.Some? then indian else if western.Some? then western else BareAmount(msg)
  }

  /** The budget rule for one message, in lakhs. */
  function BudgetInMessage(msg: string): (r: Option<Decimal>)
    ensures r.Some? ==> BudgetCue(msg) || MaxCue(msg)
    ensures BudgetCue(msg) && CuedAmount(msg).Some? ==> r == CuedAmount(msg)
    ensures var m := FirstMatch(msg, BareNumber, true);
      !BudgetCue(msg) && MaxCue(msg) ==> r == (if m.Some? then Some(m.value.value) else None)
  {
    var fromCue := if BudgetCue(msg) then CuedAmount(msg) else None;
    if fromCue.Some? then fromCue
    else if MaxCue(msg) then
      match FirstMatch(msg, BareNumber, true)
      case Some(m) => Some(m.value)
      case None => None
    else None
  }

  /** `msg.match(/(\d+(?:\.\d+)?)/)`, converted to lakhs when it is above 100000. */
  function BareAmount(msg: string): (r: Option<Decimal>)
    ensures r.Some? <==> exists i :: 0 <= i < |msg| && IsDigit(msg[i])
  {
    BareNumberAtFirstDigit(msg, true);
    match FirstMatch(msg, BareNumber, true)
    case Some(m) => Some(RawOrLakhs(m.value))
    case None => None
  }

  /** `extractBudget` */
  function ExtractBudget(msgs: seq<string>): (r: Option<Decimal>)
    ensures Earliest(msgs, BudgetInMessage, r)
  {
    FirstFound(msgs, BudgetInMessage)
  }

  // ---------------------------------------------------------------- property type

  /** The keyword table, in the insertion order that `Object.entries` follows. */
  const PropertyTypes: seq<(string, string)> := [
    ("flat", "Apartment/Flat"), ("apartment", "Apartment/Flat"), ("1bhk", "1BHK"),
    ("2bhk", "2BHK"), ("3bhk", "3BHK"), ("4bhk", "4BHK"), ("studio", "Studio Apartment"),
    ("villa", "Villa"), ("house", "House"), ("bungalow", "Bungalow"), ("plot", "Plot/Land"),
    ("land", "Plot/Land"), ("commercial", "Commercial"), ("office", "Office Space"),
    ("shop", "Shop/Retail")]

  /** The first entry of `table`, from the `k`-th on, whose keyword `msg` contains. */
  function FirstKeyword(msg: string, table: seq<(string, string)>, k: nat := 0): (r: Option<nat>)
    requires k <= |table|
    decreases |table| - k
    ensures r.Some? ==> k <= r.value < |table| && Contains(msg, table[r.value].0)
    ensures r.Some? ==> forall j :: k <= j < r.value ==> !Contains(msg, table[j].0)
    ensures r.None? ==> forall j :: k <= j < |table| ==> !Contains(msg, table[j].0)
  {
    if k == |table| then None
    else if Contains(msg, table[k].0) then Some(k)
    else FirstKeyword(msg, table, k + 1)
  }

  function PropertyTypeInMessage(msg: string): Option<string> {
    match FirstKeyword(msg, PropertyTypes)
    case Some(k) => Some(PropertyTypes[k].1)
    case None => None
  }

  /** `extractPropertyType` */
  function ExtractPropertyType(msgs: seq<string>): (r: Option<string>)
    ensures Earliest(msgs, PropertyTypeInMessage, r)
  {
    FirstFound(msgs, PropertyTypeInMessage)
  }

  // ---------------------------------------------------------------- timeline

  const TimeUnits: seq<string> := ["month", "months", "week", "weeks", "year", "years", "day", "days"]

  /** `Math.ceil(n / d)` */
  function CeilDiv(n: nat, d: nat): (r: nat)
    requires d > 0
    ensures r * d >= n && (r == 0 || (r - 1) * d < n)
  {
    (n + d - 1) / d
  }

  /** The timeline rule for one message, in months. */
  function TimelineInMessage(msg: string, monthIndex: MonthIndex): (r: Option<nat>)
    ensures var m := FirstMatch(msg, TimeUnits, false);
      m.Some? ==> r.Some? && var n := m.value.value.mantissa;
        var unit := UnitOf(TimeUnits, m.value);
        (unit in {"month", "months"} ==> r.value == n)
        && (unit in {"week", "weeks"} ==> r.value * 4 >= n && (r.value == 0 || (r.value - 1) * 4 < n))
        && (unit in {"year", "years"} ==> r.value == 12 * n)
        && (unit in {"day", "days"} ==> r.value * 30 >= n && (r.value == 0 || (r.value - 1) * 30 < n))
    ensures FirstMatch(msg, TimeUnits, false).None? ==> r == TimelinePhrase(msg, monthIndex)
  {
    match FirstMatch(msg, TimeUnits, false)
    case Some(m) =>
      var n := m.value.mantissa;
      var unit := UnitOf(TimeUnits, m);
      TimeUnitKinds(unit);
      if StartsWith(unit, "month") then Some(n)
      else if StartsWith(unit, "week") then Some(CeilDiv(n, 4))
      else if StartsWith(unit, "year") then Some(n * 12)
      else if StartsWith(unit, "day") then Some(CeilDiv(n, 30))
      else TimelinePhrase(msg, monthIndex)
    case None => TimelinePhrase(msg, monthIndex)
  }

  /** Which of the `startsWith` tests of the timeline rule each unit word passes first. */
  lemma TimeUnitKinds(unit: string)
    requires unit in TimeUnits
    ensures unit in {"month", "months"} ==> StartsWith(unit, "month")
    ensures unit in {"week", "weeks"} ==> !StartsWith(unit, "month") && StartsWith(unit, "week")
    ensures unit in {"year", "years"} ==>
      !StartsWith(unit, "month") && !StartsWith(unit, "week") && StartsWith(unit, "year")
    ensures unit in {"day", "days"} ==>
      !StartsWith(unit, "month") && !StartsWith(unit, "week") && !StartsWith(unit, "year") && StartsWith(unit, "day")
  {
    assert unit[0] in {'m', 'w', 'y', 'd'};
  }

  /** The phrase steps of the timeline rule. */
  function TimelinePhrase(msg: string, monthIndex: MonthIndex): (r: Option<nat>)
    ensures r.Some? ==> 1 <= r.value <= 12
    ensures ShortTermPhrase(msg) ==> r == Some(1)
    ensures !ShortTermPhrase(msg) && FewMonthsPhrase(msg) ==> r == Some(3)
    ensures !ShortTermPhrase(msg) && !FewMonthsPhrase(msg) && YearEndPhrase(msg) ==> r == Some(12 - monthIndex)
    ensures r.None? <==> !ShortTermPhrase(msg) && !FewMonthsPhrase(msg) && !YearEndPhrase(msg)
  {
    if Contains(msg, "asap") || Contains(msg, "as soon as possible") || Contains(msg, "right away") then Some(1)
    else if Contains(msg, "next month") || Contains(msg, "within a month") then Some(1)
    else if Contains(msg, "couple of months") || Contains(msg, "few months") then Some(3)
    else if Contains(msg, "end of the year") || Contains(msg, "by year end") then
      Some(12 - (monthIndex + 1) + 1)
    else None
  }

  /** The phrases that mean one month. */
  predicate ShortTermPhrase(msg: string) {
    Contains(msg, "asap") || Contains(msg, "as soon as possible") || Contains(msg, "right away")
    || Contains(msg, "next month") || Contains(msg, "within a month")
  }

  predicate FewMonthsPhrase(msg: string) {
    Contains(msg, "couple of months") || Contains(msg, "few months")
  }

  predicate YearEndPhrase(msg: string) {
    Contains(msg, "end of the year") || Contains(msg, "by year end")
  }

  /** `extractTimeline` */
  function ExtractTimeline(msgs: seq<string>, monthIndex: MonthIndex): (r: Option<nat>)
    ensures Earliest(msgs, msg => TimelineInMessage(msg, monthIndex), r)
  {
    FirstFound(msgs, msg => TimelineInMessage(msg, monthIndex))
  }

  // ---------------------------------------------------------------- purpose

  predicate PersonalCue(msg: string) {
    Contains(msg, "personal") || Contains(msg, "live in") || Contains(msg, "staying")
    || Contains(msg, "residence") || Contains(msg, "home")
  }

  predicate InvestmentCue(msg: string) {
    Contains(msg, "invest") || Contains(msg, "rental") || Contains(msg, "return")
    || Contains(msg, "income") || Contains(msg, "flip")
  }

  function PurposeInMessage(msg: string): Option<string> {
    if PersonalCue(msg) then Some("personal use")
    else if InvestmentCue(msg) then Some("investment")
    else None
  }

  /** `extractPurpose` */
  function ExtractPurpose(msgs: seq<string>): (r: Option<string>)
    ensures Earliest(msgs, PurposeInMessage, r)
  {
    FirstFound(msgs, PurposeInMessage)
  }

  // ---------------------------------------------------------------- intent

  predicate BuyPhrase(msg: string) {
    Contains(msg, "want to buy") || Contains(msg, "looking to buy")
    || Contains(msg, "interested in buying") || Contains(msg, "purchase")
  }

  predicate RentPhrase(msg: string) {
    Contains(msg, "want to rent") || Contains(msg, "looking to rent")
    || Contains(msg, "interested in renting") || Contains(msg, "lease")
  }

  predicate BrowsePhrase(msg: string) {
    Contains(msg, "just browsing") || Contains(msg, "just looking")
    || Contains(msg, "gathering information") || Contains(msg, "exploring options")
  }

  predicate SellPhrase(msg: string) {
    Contains(msg, "want to sell") || Contains(msg, "looking to sell") || Contains(msg, "interested in selling")
  }

  /** The phrase scan for one message: buy, then rent, then browsing, then sell. */
  function IntentInMessage(msg: string): Option<string> {
    var text := Lower(msg);
    if BuyPhrase(text) then Some("buy")
    else if RentPhrase(text) then Some("rent")
    else if BrowsePhrase(text) then Some("browsing")
    else if SellPhrase(text) then Some("sell")
    else None
  }

  /** The single-word fallback on all messages joined by spaces; it has no "sell" step. */
  function IntentKeyword(allText: string): (r: Option<string>)
    ensures r.Some? ==> r.value in {"buy", "rent", "browsing"}
  {
    var text := Lower(allText);
    if Contains(text, "buy") then Some("buy")
    else if Contains(text, "rent") then Some("rent")
    else if Contains(text, "browsing") || Contains(text, "looking around") then Some("browsing")
    else None
  }

  /** `extractIntent` */
  function ExtractIntent(msgs: seq<string>): (r: Option<string>)
    ensures r.Some? ==> r.value in {"buy", "rent", "browsing", "sell"}
    ensures r == Some("sell") ==> exists i :: 0 <= i < |msgs| && SellPhrase(Lower(msgs[i]))
    ensures FirstFound(msgs, IntentInMessage).Some? ==> Earliest(msgs, IntentInMessage, r)
    ensures FirstFound(msgs, IntentInMessage).None? ==> r == IntentKeyword(Join(msgs, " "))
  {
    var phrased := FirstFound(msgs, IntentInMessage);
    if phrased.Some? then phrased else IntentKeyword(Join(msgs, " "))
  }

  // ---------------------------------------------------------------- company size

  const SizeUnits: seq<string> := ["employee", "employees", "people", "staff"]

  function CompanySizeInMessage(msg: string): Option<nat> {
    match FirstMatch(msg, SizeUnits, false)
    case Some(m) => Some(m.value.mantissa)
    case None =>
      if Contains(msg, "small company") || Contains(msg, "startup") then Some(20)
      else if Contains(msg, "medium") || Contains(msg, "mid-size") then Some(100)
      else if Contains(msg, "large") || Contains(msg, "enterprise") then Some(500)
      else None
  }

  /** `extractCompanySize` */
  function ExtractCompanySize(msgs: seq<string>): (r: Option<nat>)
    ensures Earliest(msgs, CompanySizeInMessage, r)
  {
    FirstFound(msgs, CompanySizeInMessage)
  }

  // ---------------------------------------------------------------- decision maker

  predicate AuthorityPhrase(msg: string) {
    Contains(msg, "i decide") || Contains(msg, "i am the decision")
    || Contains(msg, "i make the decision") || Contains(msg, "my decision")
  }

  predicate DeferralPhrase(msg: string) {
    Contains(msg, "need approval") || Contains(msg, "need to consult")
    || Contains(msg, "team decision") || Contains(msg, "not my decision")
  }

  function DecisionMakerInMessage(msg: string): Option<bool> {
    if AuthorityPhrase(msg) then Some(true)
    else if DeferralPhrase(msg) then Some(false)
    else None
  }

  /** `extractDecisionMaker` */
  function ExtractDecisionMaker(msgs: seq<string>): (r: Option<bool>)
    ensures Earliest(msgs, DecisionMakerInMessage, r)
  {
    FirstFound(msgs, DecisionMakerInMessage)
  }

  // ---------------------------------------------------------------- all fields

  /** The lower-cased texts of the user messages. */
  function LoweredUserTexts(conversation: seq<Message>): (r: seq<string>)
    ensures |r| == |UserTexts(conversation)|
    ensures forall i :: 0 <= i < |r| ==> r[i] == Lower(UserTexts(conversation)[i])
  {
    LowerAll(UserTexts(conversation))
  }

  /** `extractMetadata`: the fields of the conversation's industry, from its user messages. */
  function ExtractMetadata(conversation: seq<Message>, industry: IndustryConfig, monthIndex: MonthIndex): (r: Metadata)
    ensures industry.id != RealEstateId && industry.id != SoftwareId ==> r == NoMetadata
    ensures industry.id == RealEstateId ==> r.companySize.None? && r.decisionMaker.None?
    ensures industry.id == SoftwareId ==> r.location.None? && r.propertyType.None? && r.purpose.None?
    ensures var msgs := LoweredUserTexts(conversation);
      industry.id == RealEstateId ==>
        && r.location == ExtractLocation(msgs) && r.budget == ExtractBudget(msgs)
        && r.propertyType == ExtractPropertyType(msgs) && r.timeline == ExtractTimeline(msgs, monthIndex)
        && r.purpose == ExtractPurpose(msgs) && r.intent == ExtractIntent(msgs)
    ensures var msgs := LoweredUserTexts(conversation);
      industry.id == SoftwareId ==>
        && r.budget == ExtractBudget(msgs) && r.timeline == ExtractTimeline(msgs, monthIndex)
        && r.companySize == ExtractCompanySize(msgs) && r.decisionMaker == ExtractDecisionMaker(msgs)
        && r.intent == ExtractIntent(msgs)
  {
    var msgs := LoweredUserTexts(conversation);
    if industry.id == RealEstateId then
      NoMetadata.(
        location := ExtractLocation(msgs),
        budget := ExtractBudget(msgs),
        propertyType := ExtractPropertyType(msgs),
        timeline := ExtractTimeline(msgs, monthIndex),
        purpose := ExtractPurpose(msgs),
        intent := ExtractIntent(msgs))
    else if industry.id == SoftwareId then
      NoMetadata.(
        budget := ExtractBudget(msgs),
        timeline := ExtractTimeline(msgs, monthIndex),
        companySize := ExtractCompanySize(msgs),
        decisionMaker := ExtractDecisionMaker(msgs),
        intent := ExtractIntent(msgs))
    else NoMetadata
  }

  // ---------------------------------------------------------------- properties

  /** The first-match search over `a + b` finishes in `a` when `a` yields a value, and goes on into `b` otherwise. */
  lemma {:induction false} FirstFoundAppend<T>(a: seq<string>, b: seq<string>, f: string -> Option<T>)
    ensures FirstFound(a + b, f) == if FirstFound(a, f).Some? then FirstFound(a, f) else FirstFound(b, f)
  {
    if a == [] {
      assert a + b == b;
    } else {
      assert (a + b)[0] == a[0];
      if f(a[0]).None? {
        assert (a + b)[1..] == a[1..] + b;
        FirstFoundAppend(a[1..], b, f);
      }
    }
  }

  /** A later message never changes an extracted field that an earlier message already fixed. */
  lemma ExtractionIsStable<T>(msgs: seq<string>, msg: string, f: string -> Option<T>)
    ensures FirstFound(msgs, f).Some? ==> FirstFound(msgs + [msg], f) == FirstFound(msgs, f)
    ensures FirstFound(msgs, f).None? ==> FirstFound(msgs + [msg], f) == f(msg)
  {
    FirstFoundAppend(msgs, [msg], f);
  }

  /** Within a message the personal-use cues are checked before the investment cues. */
  lemma PurposeOrder(msg: string)
    ensures PurposeInMessage(msg) == Some("personal use") <==> PersonalCue(msg)
    ensures PurposeInMessage(msg) == Some("investment") <==> !PersonalCue(msg) && InvestmentCue(msg)
    ensures PurposeInMessage(msg).None? <==> !PersonalCue(msg) && !InvestmentCue(msg)
  {
  }

  /** The purpose comes from the earliest message that has a cue of either kind. */
  lemma ExtractPurposeEarliest(msgs: seq<string>)
    ensures ExtractPurpose(msgs).Some? <==> exists i :: 0 <= i < |msgs| && (PersonalCue(msgs[i]) || InvestmentCue(msgs[i]))
    ensures forall i :: 0 <= i < |msgs| && (PersonalCue(msgs[i]) || InvestmentCue(msgs[i]))
                 && (forall j :: 0 <= j < i ==> !PersonalCue(msgs[j]) && !InvestmentCue(msgs[j]))
                 ==> ExtractPurpose(msgs) == PurposeInMessage(msgs[i])
  {
    var r := ExtractPurpose(msgs);
    if r.Some? {
      var k :| 0 <= k < |msgs| && PurposeInMessage(msgs[k]) == r && forall j :: 0 <= j < k ==> PurposeInMessage(msgs[j]).None?;
      PurposeOrder(msgs[k]);
    } else {
      forall i | 0 <= i < |msgs|
        ensures !PersonalCue(msgs[i]) && !InvestmentCue(msgs[i])
      {
        PurposeOrder(msgs[i]);
      }
    }
    forall i | 0 <= i < |msgs| && (PersonalCue(msgs[i]) || InvestmentCue(msgs[i]))
               && (forall j :: 0 <= j < i ==> !PersonalCue(msgs[j]) && !InvestmentCue(msgs[j]))
      ensures r == PurposeInMessage(msgs[i])
    {
      forall j | 0 <= j < i
        ensures PurposeInMessage(msgs[j]).None?
      {
        PurposeOrder(msgs[j]);
      }
      PurposeOrder(msgs[i]);
      FirstFoundAt(msgs, PurposeInMessage, i);
    }
  }

  /** A message with "flat" in it always yields "Apartment/Flat", whatever other keyword it has, e.g. "1bhk flat". */
  lemma FlatComesFirst(msg: string)
    requires Contains(msg, "flat")
    ensures PropertyTypeInMessage(msg) == Some("Apartment/Flat")
  {
  }

  /** Only the entries for "plot" and "land" give "Plot/Land", the one type name of nine characters. */
  lemma PlotLandEntries(i: nat)
    requires i < |PropertyTypes| && PropertyTypes[i].1 == "Plot/Land"
    ensures PropertyTypes[i].0 == "plot" || PropertyTypes[i].0 == "land"
  {
    assert |PropertyTypes[i].1| == 9;
  }

  /** "plot" and "land" are two keywords for the one type "Plot/Land". */
  lemma PlotAndLandAgree(msg: string)
    ensures PropertyTypeInMessage(msg) == Some("Plot/Land") ==> Contains(msg, "plot") || Contains(msg, "land")
    ensures Contains(msg, "plot") || Contains(msg, "land") ==> PropertyTypeInMessage(msg).Some?
  {
    var r := FirstKeyword(msg, PropertyTypes);
    if r.Some? && PropertyTypes[r.value].1 == "Plot/Land" {
      PlotLandEntries(r.value);
    }
    if Contains(msg, "plot") {
      assert Contains(msg, PropertyTypes[10].0);
    }
    if Contains(msg, "land") {
      assert Contains(msg, PropertyTypes[11].0);
    }
  }

  /** "1bhk flat" is Apartment/Flat: "flat" is listed before "1bhk". */
  lemma OneBhkFlatExample()
    ensures PropertyTypeInMessage("1bhk flat") == Some("Apartment/Flat")
  {
    ContainsAt("1bhk flat", "flat", 5);
    FlatComesFirst("1bhk flat");
  }

  /** A deferral phrase that contains an authority phrase is read as authority: "not my decision" yields true. */
  lemma NotMyDecisionIsAuthority(msg: string)
    requires Contains(msg, "not my decision")
    ensures DecisionMakerInMessage(msg) == Some(true)
  {
    var a, b := "not ", "my decision";
    assert (a + b)[|a|..|a| + |b|] == b;
    ContainsAt(a + b, b, |a|);
    assert a + b == "not my decision";
    ContainsTransitive(msg, a + b, b);
  }

  /** Authority phrases win over deferral phrases; with neither, nothing is extracted. */
  lemma DecisionMakerOrder(msg: string)
    ensures DecisionMakerInMessage(msg) == Some(true) <==> AuthorityPhrase(msg)
    ensures DecisionMakerInMessage(msg) == Some(false) <==> !AuthorityPhrase(msg) && DeferralPhrase(msg)
    ensures DecisionMakerInMessage(msg).None? <==> !AuthorityPhrase(msg) && !DeferralPhrase(msg)
  {
  }

  /** The phrase scan runs first; the keyword fallback runs only when no message has an intent phrase. */
  lemma IntentFallbackOnlyWithoutPhrases(msgs: seq<string>)
    ensures (exists i :: 0 <= i < |msgs| && IntentInMessage(msgs[i]).Some?) ==> ExtractIntent(msgs) == FirstFound(msgs, IntentInMessage)
    ensures (forall i :: 0 <= i < |msgs| ==> IntentInMessage(msgs[i]).None?) ==> ExtractIntent(msgs) == IntentKeyword(Join(msgs, " "))
  {
  }

  /** A single word "buy" anywhere makes the fallback answer "buy". */
  lemma BuyWordFallback(msgs: seq<string>, k: nat)
    requires k < |msgs| && Contains(Lower(msgs[k]), "buy")
    requires forall i :: 0 <= i < |msgs| ==> IntentInMessage(msgs[i]).None?
    ensures ExtractIntent(msgs) == Some("buy")
  {
    LowerJoin(msgs, " ");
    assert Lower(" ") == " ";
    ContainsJoined(LowerAll(msgs), " ", k, "buy");
  }
}
