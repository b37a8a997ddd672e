/**
 * The lead classifier: an Invalid short-circuit built from gibberish and
 * responsiveness tests, then a Hot score and a Cold score and a strict
 * decision between them.
 *
 * Each score is built step by step: every satisfied signal adds one to the
 * score, one to the factor count and one reason. The signals themselves are
 * listed, in the order the code tests them, by `HotSignals` and
 * `ColdSignals`; the methods are proved to produce exactly the reasons of
 * the satisfied signals, and from that the score is always 0 or 1.
 */
module Classifier {
  import opened Options
  import opened Strings
  import opened Decimals
  import opened Leads

  datatype Status = Hot | Cold | Invalid

  datatype Classification = Classification(status: Status, confidence: real, reasons: seq<string>)

  /**
   * A score as the counters that build it: `score` and `totalFactors`, and
   * the reasons pushed alongside; `FinalScore` is the ratio the code returns.
   */
  datatype Score = Score(score: nat, totalFactors: nat, reasons: seq<string>) {
    /** `totalFactors > 0 ? score / totalFactors : 0` */
    function FinalScore(): (r: real)
      ensures r >= 0.0
    {
      if totalFactors > 0 then score as real / totalFactors as real else 0.0
    }
  }

  /** One test of a score: whether it holds, and the reason it contributes when it does. */
  datatype Signal = Signal(holds: bool, reason: string)

  /** The reasons of the satisfied signals, in order. */
  function Fired(signals: seq<Signal>): (r: seq<string>)
    ensures |r| <= |signals|
  {
    if signals == [] then []
    else
      var last := signals[|signals| - 1];
      Fired(signals[..|signals| - 1]) + (if last.holds then [last.reason] else [])
  }

  /** What one signal contributes: its reason when it holds, nothing otherwise. */
  function Emit(s: Signal): seq<string> {
    if s.holds then [s.reason] else []
  }

  /** Testing one more signal extends the reasons by what it emits. */
  lemma FiredSnoc(front: seq<Signal>, s: Signal)
    ensures Fired(front + [s]) == Fired(front) + Emit(s)
  {
    assert (front + [s])[..|front|] == front;
  }

  lemma FiredThree(a: Signal, b: Signal, c: Signal)
    ensures Fired([a, b, c]) == Emit(a) + Emit(b) + Emit(c)
  {
    FiredSnoc([], a);
    assert [] + [a] == [a];
    FiredSnoc([a], b);
    assert [a] + [b] == [a, b];
    FiredSnoc([a, b], c);
    assert [a, b] + [c] == [a, b, c];
  }

  lemma FiredFour(a: Signal, b: Signal, c: Signal, d: Signal)
    ensures Fired([a, b, c, d]) == Emit(a) + Emit(b) + Emit(c) + Emit(d)
  {
    FiredThree(a, b, c);
    FiredSnoc([a, b, c], d);
    assert [a, b, c] + [d] == [a, b, c, d];
  }

  lemma FiredFive(a: Signal, b: Signal, c: Signal, d: Signal, e: Signal)
    ensures Fired([a, b, c, d, e]) == Emit(a) + Emit(b) + Emit(c) + Emit(d) + Emit(e)
  {
    FiredFour(a, b, c, d);
    FiredSnoc([a, b, c, d], e);
    assert [a, b, c, d] + [e] == [a, b, c, d, e];
  }

  /** The number of satisfied signals. */
  function CountHolding(signals: seq<Signal>): nat {
    if signals == [] then 0 else (if signals[0].holds then 1 else 0) + CountHolding(signals[1..])
  }

  /** One reason for each satisfied signal. */
  lemma {:induction false} FiredCount(signals: seq<Signal>)
    ensures |Fired(signals)| == CountHolding(signals)
  {
    if signals != [] {
      var front := signals[..|signals| - 1];
      FiredCount(front);
      CountHoldingSnoc(front, signals[|signals| - 1]);
      assert front + [signals[|signals| - 1]] == signals;
    }
  }

  lemma {:induction false} CountHoldingSnoc(signals: seq<Signal>, s: Signal)
    ensures CountHolding(signals + [s]) == CountHolding(signals) + (if s.holds then 1 else 0)
  {
    if signals != [] {
      assert (signals + [s])[1..] == signals[1..] + [s];
      CountHoldingSnoc(signals[1..], s);
    }
  }

  /** The reasons are exactly the satisfied signals' reasons: none when no signal holds, each one's otherwise. */
  lemma {:induction false} FiredEmpty(signals: seq<Signal>)
    ensures Fired(signals) == [] <==> forall i :: 0 <= i < |signals| ==> !signals[i].holds
  {
    if signals != [] {
      var front := signals[..|signals| - 1];
      FiredEmpty(front);
      assert forall i :: 0 <= i < |front| ==> front[i] == signals[i];
    }
  }

  /** Every factor that counts also scores, so the final score is 1 when some factor counted and 0 otherwise. */
  lemma FinalScoreIsZeroOrOne(s: Score)
    requires s.score == s.totalFactors == |s.reasons|
    ensures s.FinalScore() == if s.reasons == [] then 0.0 else 1.0
  {
    if s.reasons != [] {
      var n := s.totalFactors as real;
      assert n > 0.0 && s.score as real == n;
      assert n / n == 1.0;
    }
  }

  // ---------------------------------------------------------------- message tests

  /** `/^[a-z]{1,3}$/` */
  predicate ShortLetters(t: string) {
    1 <= |t| <= 3 && forall i :: 0 <= i < |t| ==> 'a' <= t[i] <= 'z'
  }

  /** `/^[0-9]+$/` */
  predicate AllDigits(t: string) {
    1 <= |t| && forall i :: 0 <= i < |t| ==> IsDigit(t[i])
  }

  /** `/^(test|asdf|qwerty|123)/` */
  predicate TestPrefix(t: string) {
    StartsWith(t, "test") || StartsWith(t, "asdf") || StartsWith(t, "qwerty") || StartsWith(t, "123")
  }

  /**
   * The gibberish test of the Invalid check, on the lower-cased text; it
   * includes "shorter than 2", in UTF-16 code units.
   */
  predicate Gibberish(text: string) {
    var t := Lower(text);
    ShortLetters(t) || AllDigits(t) || TestPrefix(t) || Utf16Length(t) < 2
  }

  /** The gibberish test of the reasons: the same patterns, without the length test. */
  predicate GibberishPattern(text: string) {
    ShortLetters(Lower(text)) || AllDigits(text) || TestPrefix(Lower(text))
  }

  /** `msg.text.length < 5 || /^[0-9]+$/.test(msg.text)`, the length in UTF-16 code units. */
  predicate NonMeaningful(text: string) {
    Utf16Length(text) < 5 || AllDigits(text)
  }

  predicate SomeGibberish(users: seq<string>) {
    exists i :: 0 <= i < |users| && Gibberish(users[i])
  }

  predicate SomeGibberishPattern(users: seq<string>) {
    exists i :: 0 <= i < |users| && GibberishPattern(users[i])
  }

  /** `userMessages.length > 1 && userMessages.every(...)` */
  predicate AllNonMeaningful(users: seq<string>) {
    |users| > 1 && forall i :: 0 <= i < |users| ==> NonMeaningful(users[i])
  }

  /** Only one user message after more than four messages in all. */
  predicate Unresponsive(conversation: seq<Message>) {
    |UserTexts(conversation)| == 1 && |conversation| > 4
  }

  /**
   * `isInvalidLead`. A conversation without user messages is never Invalid;
   * a single reply after more than four messages always is.
   */
  predicate IsInvalidLead(conversation: seq<Message>)
    ensures IsInvalidLead(conversation) ==> UserTexts(conversation) != []
    ensures |UserTexts(conversation)| == 1 && |conversation| > 4 ==> IsInvalidLead(conversation)
  {
    var users := UserTexts(conversation);
    SomeGibberish(users) || AllNonMeaningful(users) || Unresponsive(conversation)
  }

  const GibberishReason := "Contains gibberish or test messages"
  const UnresponsiveReason := "Unresponsive to questions"
  const NonMeaningfulReason := "Consistently providing non-meaningful responses"

  function GibberishSignal(conversation: seq<Message>): Signal {
    Signal(SomeGibberishPattern(UserTexts(conversation)), GibberishReason)
  }

  function UnresponsiveSignal(conversation: seq<Message>): Signal {
    Signal(Unresponsive(conversation), UnresponsiveReason)
  }

  function NonMeaningfulSignal(conversation: seq<Message>): Signal {
    Signal(AllNonMeaningful(UserTexts(conversation)), NonMeaningfulReason)
  }

  /** The three tests of `getInvalidReasons`, in order. */
  function InvalidSignals(conversation: seq<Message>): seq<Signal> {
    [GibberishSignal(conversation), UnresponsiveSignal(conversation), NonMeaningfulSignal(conversation)]
  }

  /** The invalid reasons, test by test. */
  lemma InvalidFired(conversation: seq<Message>)
    ensures Fired(InvalidSignals(conversation)) ==
      Emit(GibberishSignal(conversation)) + Emit(UnresponsiveSignal(conversation)) + Emit(NonMeaningfulSignal(conversation))
  {
    FiredThree(GibberishSignal(conversation), UnresponsiveSignal(conversation), NonMeaningfulSignal(conversation));
  }

  /** `getInvalidReasons` */
  method GetInvalidReasons(conversation: seq<Message>) returns (reasons: seq<string>)
    ensures reasons == Fired(InvalidSignals(conversation))
  {
    reasons := [];
    var users := UserTexts(conversation);
    if SomeGibberishPattern(users) {
      reasons := reasons + [GibberishReason];
    }
    if |users| == 1 && |conversation| > 4 {
      reasons := reasons + [UnresponsiveReason];
    }
    if |users| > 1 && forall i :: 0 <= i < |users| ==> NonMeaningful(users[i]) {
      reasons := reasons + [NonMeaningfulReason];
    }
    InvalidFired(conversation);
  }

  // ---------------------------------------------------------------- hot score

  /** `${value}` of an optional field, used only when the field is present. */
  function AmountText(o: Option<Decimal>): string {
    if o.Some? then Render(o.value) else ""
  }

  function CountText(o: Option<nat>): string {
    if o.Some? then NatToString(o.value) else ""
  }

  function TextOf(o: Option<string>): string {
    o.GetOr("")
  }

  predicate UrgentWithin(timeline: Option<nat>, months: nat) {
    TruthyCount(timeline) && timeline.value <= months
  }

  /** A location given, longer than three UTF-16 code units, and not "not sure". */
  predicate SpecificPlace(m: Metadata) {
    TruthyText(m.location) && Utf16Length(m.location.value) > 3 && m.location != Some("not sure")
  }

  predicate StatedPurpose(m: Metadata) {
    m.purpose == Some("personal use") || m.purpose == Some("investment")
  }

  predicate LargeCompany(m: Metadata) {
    TruthyCount(m.companySize) && m.companySize.value > 50
  }

  predicate BuyingIntent(m: Metadata) {
    m.intent == Some("buy") || m.intent == Some("purchase")
  }

  /** The reason texts, with the field values interpolated. */
  function ClearBudgetReason(m: Metadata): string {
    "Clear budget: " + AmountText(m.budget)
  }

  function SpecificLocationReason(m: Metadata): string {
    "Specific location: " + TextOf(m.location)
  }

  function UrgentTimelineReason(m: Metadata): string {
    "Urgent timeline: " + CountText(m.timeline) + " months"
  }

  function ClearPurposeReason(m: Metadata): string {
    "Clear purpose: " + TextOf(m.purpose)
  }

  function SpecificPropertyTypeReason(m: Metadata): string {
    "Specific property type: " + TextOf(m.propertyType)
  }

  function HasBudgetReason(m: Metadata): string {
    "Has budget: " + AmountText(m.budget)
  }

  function GoodCompanySizeReason(m: Metadata): string {
    "Good company size: " + CountText(m.companySize) + " employees"
  }

  function DistantTimelineReason(m: Metadata): string {
    "Distant timeline: " + CountText(m.timeline) + " months"
  }

  const DecisionMakerReason := "Is a decision maker"
  const BuyingIntentReason := "Clear buying intent"
  const NoBudgetReason := "No clear budget provided"
  const NoLocationReason := "No specific location preference"
  const BrowsingReason := "Just browsing, no clear intent"
  const LowEngagementReason := "Mostly short, low-engagement responses"

  function ClearBudget(m: Metadata): Signal {
    Signal(TruthyAmount(m.budget), ClearBudgetReason(m))
  }

  function SpecificLocation(m: Metadata): Signal {
    Signal(SpecificPlace(m), SpecificLocationReason(m))
  }

  function UrgentTimeline(m: Metadata, months: nat): Signal {
    Signal(UrgentWithin(m.timeline, months), UrgentTimelineReason(m))
  }

  function ClearPurpose(m: Metadata): Signal {
    Signal(StatedPurpose(m), ClearPurposeReason(m))
  }

  function SpecificPropertyType(m: Metadata): Signal {
    Signal(TruthyText(m.propertyType), SpecificPropertyTypeReason(m))
  }

  function HasBudget(m: Metadata): Signal {
    Signal(TruthyAmount(m.budget), HasBudgetReason(m))
  }

  /** `decisionMaker === 'yes'` cannot occur: the field only ever holds a boolean. */
  function DecisionAuthority(m: Metadata): Signal {
    Signal(m.decisionMaker == Some(true), DecisionMakerReason)
  }

  function GoodCompanySize(m: Metadata): Signal {
    Signal(LargeCompany(m), GoodCompanySizeReason(m))
  }

  function ClearBuyingIntent(m: Metadata): Signal {
    Signal(BuyingIntent(m), BuyingIntentReason)
  }

  function RealEstateHotSignals(m: Metadata): seq<Signal> {
    [ClearBudget(m), SpecificLocation(m), UrgentTimeline(m, 6), ClearPurpose(m), SpecificPropertyType(m)]
  }

  function SoftwareHotSignals(m: Metadata): seq<Signal> {
    [HasBudget(m), UrgentTimeline(m, 3), DecisionAuthority(m), GoodCompanySize(m)]
  }

  /** The industry-specific hot signals: none for an industry other than these two. */
  function IndustryHotSignals(m: Metadata, industryId: string): seq<Signal> {
    if industryId == RealEstateId then RealEstateHotSignals(m)
    else if industryId == SoftwareId then SoftwareHotSignals(m)
    else []
  }

  /** Every hot signal of `calculateHotScore`, in the order it tests them. */
  function HotSignals(m: Metadata, industryId: string): seq<Signal> {
    IndustryHotSignals(m, industryId) + [ClearBuyingIntent(m)]
  }

  /** The real-estate hot reasons, signal by signal. */
  lemma RealEstateFired(m: Metadata)
    ensures Fired(RealEstateHotSignals(m)) ==
      Emit(ClearBudget(m)) + Emit(SpecificLocation(m)) + Emit(UrgentTimeline(m, 6)) + Emit(ClearPurpose(m))
      + Emit(SpecificPropertyType(m))
  {
    FiredFive(ClearBudget(m), SpecificLocation(m), UrgentTimeline(m, 6), ClearPurpose(m), SpecificPropertyType(m));
  }

  /** The software hot reasons, signal by signal. */
  lemma SoftwareFired(m: Metadata)
    ensures Fired(SoftwareHotSignals(m)) ==
      Emit(HasBudget(m)) + Emit(UrgentTimeline(m, 3)) + Emit(DecisionAuthority(m)) + Emit(GoodCompanySize(m))
  {
    FiredFour(HasBudget(m), UrgentTimeline(m, 3), DecisionAuthority(m), GoodCompanySize(m));
  }

  /** The buying-intent reason always comes last. */
  lemma HotFired(m: Metadata, industryId: string)
    ensures Fired(HotSignals(m, industryId)) ==
      Fired(IndustryHotSignals(m, industryId)) + Emit(ClearBuyingIntent(m))
  {
    FiredSnoc(IndustryHotSignals(m, industryId), ClearBuyingIntent(m));
  }

  /** The real-estate block of `calculateHotScore`. */
  method RealEstateHotScore(metadata: Metadata) returns (r: Score)
    ensures r.reasons == Fired(RealEstateHotSignals(metadata))
    ensures r.score == r.totalFactors == |r.reasons|
  {
    var score, totalFactors := 0, 0;
    var reasons: seq<string> := [];
    if TruthyAmount(metadata.budget) {
      score, totalFactors := score + 1, totalFactors + 1;
      reasons := reasons + [ClearBudgetReason(metadata)];
    }
    ghost var sofar := Emit(ClearBudget(metadata));
    assert reasons == sofar && score == totalFactors == |reasons|;
    if SpecificPlace(metadata) {
      score, totalFactors := score + 1, totalFactors + 1;
      reasons := reasons + [SpecificLocationReason(metadata)];
    }
    sofar := sofar + Emit(SpecificLocation(metadata));
    assert reasons == sofar && score == totalFactors == |reasons|;
    if UrgentWithin(metadata.timeline, 6) {
      score, totalFactors := score + 1, totalFactors + 1;
      reasons := reasons + [UrgentTimelineReason(metadata)];
    }
    sofar := sofar + Emit(UrgentTimeline(metadata, 6));
    assert reasons == sofar && score == totalFactors == |reasons|;
    if StatedPurpose(metadata) {
      score, totalFactors := score + 1, totalFactors + 1;
      reasons := reasons + [ClearPurposeReason(metadata)];
    }
    sofar := sofar + Emit(ClearPurpose(metadata));
    assert reasons == sofar && score == totalFactors == |reasons|;
    if TruthyText(metadata.propertyType) {
      score, totalFactors := score + 1, totalFactors + 1;
      reasons := reasons + [SpecificPropertyTypeReason(metadata)];
    }
    RealEstateFired(metadata);
    r := Score(score, totalFactors, reasons);
  }

  /** The software block of `calculateHotScore`. */
  method SoftwareHotScore(metadata: Metadata) returns (r: Score)
    ensures r.reasons == Fired(SoftwareHotSignals(metadata))
    ensures r.score == r.totalFactors == |r.reasons|
  {
    var score, totalFactors := 0, 0;
    var reasons: seq<string> := [];
    if TruthyAmount(metadata.budget) {
      score, totalFactors := score + 1, totalFactors + 1;
      reasons := reasons + [HasBudgetReason(metadata)];
    }
    ghost var sofar := Emit(HasBudget(metadata));
    assert reasons == sofar && score == totalFactors == |reasons|;
    if UrgentWithin(metadata.timeline, 3) {
      score, totalFactors := score + 1, totalFactors + 1;
      reasons := reasons + [UrgentTimelineReason(metadata)];
    }
    sofar := sofar + Emit(UrgentTimeline(metadata, 3));
    assert reasons == sofar && score == totalFactors == |reasons|;
    if metadata.decisionMaker == Some(true) {
      score, totalFactors := score + 1, totalFactors + 1;
      reasons := reasons + [DecisionMakerReason];
    }
    sofar := sofar + Emit(DecisionAuthority(metadata));
    assert reasons == sofar && score == totalFactors == |reasons|;
    if LargeCompany(metadata) {
      score, totalFactors := score + 1, totalFactors + 1;
      reasons := reasons + [GoodCompanySizeReason(metadata)];
    }
    SoftwareFired(metadata);
    r := Score(score, totalFactors, reasons);
  }

  /** `calculateHotScore`: the industry's own factors, then buying intent for every industry. */
  method CalculateHotScore(metadata: Metadata, industry: IndustryConfig) returns (r: Score)
    ensures r.reasons == Fired(HotSignals(metadata, industry.id))
    ensures r.score == r.totalFactors == |r.reasons|
  {
    var score, totalFactors := 0, 0;
    var reasons: seq<string> := [];
    if industry.id == RealEstateId {
      var part := RealEstateHotScore(metadata);
      score, totalFactors, reasons := part.score, part.totalFactors, part.reasons;
    } else if industry.id == SoftwareId {
      var part := SoftwareHotScore(metadata);
      score, totalFactors, reasons := part.score, part.totalFactors, part.reasons;
    }
    assert reasons == Fired(IndustryHotSignals(metadata, industry.id));
    if BuyingIntent(metadata) {
      score, totalFactors := score + 1, totalFactors + 1;
      reasons := reasons + [BuyingIntentReason];
    }
    HotFired(metadata, industry.id);
    r := Score(score, totalFactors, reasons);
  }

  // ---------------------------------------------------------------- cold score

  /** `text.split(' ').length < 4`: fewer than three spaces. */
  predicate ShortResponse(text: string) {
    CountChar(text, ' ') + 1 < 4
  }

  /** `userMessages.filter(msg => msg.text.split(' ').length < 4).length` */
  function ShortCount(users: seq<string>): (n: nat)
    ensures n <= |users|
  {
    if users == [] then 0 else (if ShortResponse(users[0]) then 1 else 0) + ShortCount(users[1..])
  }

  /**
   * `shortResponses.length / userMessages.length > 0.7 && userMessages.length > 2`.
   * With no user messages the quotient is NaN and the test is false; the
   * guard on the count is checked first here so that no division by zero arises.
   */
  predicate LowEngagement(users: seq<string>) {
    |users| > 2 && ShortCount(users) as real / |users| as real > 0.7
  }

  predicate VagueLocation(m: Metadata) {
    !TruthyText(m.location) || m.location == Some("not sure") || m.location == Some("anywhere")
  }

  predicate BrowsingIntent(m: Metadata) {
    m.intent == Some("browsing") || m.intent == Some("just looking")
  }

  predicate DistantTimeline(m: Metadata) {
    TruthyCount(m.timeline) && m.timeline.value > 12
  }

  function NoClearBudget(m: Metadata): Signal {
    Signal(!TruthyAmount(m.budget), NoBudgetReason)
  }

  function NoSpecificLocation(m: Metadata): Signal {
    Signal(VagueLocation(m), NoLocationReason)
  }

  function JustBrowsing(m: Metadata): Signal {
    Signal(BrowsingIntent(m), BrowsingReason)
  }

  function Distant(m: Metadata): Signal {
    Signal(DistantTimeline(m), DistantTimelineReason(m))
  }

  function ShortResponses(conversation: seq<Message>): Signal {
    Signal(LowEngagement(UserTexts(conversation)), LowEngagementReason)
  }

  /** Every cold signal of `calculateColdScore`, in the order it tests them. */
  function ColdSignals(m: Metadata, conversation: seq<Message>): seq<Signal> {
    [NoClearBudget(m), NoSpecificLocation(m), JustBrowsing(m), Distant(m), ShortResponses(conversation)]
  }

  /** The cold reasons, signal by signal. */
  lemma ColdFired(m: Metadata, conversation: seq<Message>)
    ensures Fired(ColdSignals(m, conversation)) ==
      Emit(NoClearBudget(m)) + Emit(NoSpecificLocation(m)) + Emit(JustBrowsing(m)) + Emit(Distant(m))
      + Emit(ShortResponses(conversation))
  {
    FiredFive(NoClearBudget(m), NoSpecificLocation(m), JustBrowsing(m), Distant(m), ShortResponses(conversation));
  }

  /** `calculateColdScore`; the industry does not enter into it. */
  method CalculateColdScore(metadata: Metadata, conversation: seq<Message>, industry: IndustryConfig) returns (r: Score)
    ensures r.reasons == Fired(ColdSignals(metadata, conversation))
    ensures r.score == r.totalFactors == |r.reasons|
  {
    var score, totalFactors := 0, 0;
    var reasons: seq<string> := [];
    if !TruthyAmount(metadata.budget) {
      score, totalFactors := score + 1, totalFactors + 1;
      reasons := reasons + [NoBudgetReason];
    }
    ghost var sofar := Emit(NoClearBudget(metadata));
    assert reasons == sofar && score == totalFactors == |reasons|;
    if VagueLocation(metadata) {
      score, totalFactors := score + 1, totalFactors + 1;
      reasons := reasons + [NoLocationReason];
    }
    sofar := sofar + Emit(NoSpecificLocation(metadata));
    assert reasons == sofar && score == totalFactors == |reasons|;
    if BrowsingIntent(metadata) {
      score, totalFactors := score + 1, totalFactors + 1;
      reasons := reasons + [BrowsingReason];
    }
    sofar := sofar + Emit(JustBrowsing(metadata));
    assert reasons == sofar && score == totalFactors == |reasons|;
    if DistantTimeline(metadata) {
      score, totalFactors := score + 1, totalFactors + 1;
      reasons := reasons + [DistantTimelineReason(metadata)];
    }
    sofar := sofar + Emit(Distant(metadata));
    assert reasons == sofar && score == totalFactors == |reasons|;
    var users := UserTexts(conversation);
    if |users| > 2 && ShortCount(users) as real / |users| as real > 0.7 {
      score, totalFactors := score + 1, totalFactors + 1;
      reasons := reasons + [LowEngagementReason];
    }
    ColdFired(metadata, conversation);
    r := Score(score, totalFactors, reasons);
  }

  // ---------------------------------------------------------------- decision

  /** `parseFloat(x.toFixed(2))` for a non-negative `x`: the nearest hundredth, halves rounded up. */
  function Round2(x: real): real
    requires x >= 0.0
  {
    (x * 100.0 + 0.5).Floor as real / 100.0
  }

  /** Scores are 0 or 1, which two-decimal rounding keeps. */
  lemma Round2KeepsScores(x: real)
    requires x == 0.0 || x == 1.0
    ensures Round2(x) == x
  {
    if x == 1.0 {
      assert (x * 100.0 + 0.5).Floor == 100;
    } else {
      assert (x * 100.0 + 0.5).Floor == 0;
    }
  }

  /** A score of one point per fired signal, out of as many factors. */
  function ScoreOf(signals: seq<Signal>): (r: Score)
    ensures r.score == r.totalFactors == |r.reasons|
  {
    var reasons := Fired(signals);
    Score(|reasons|, |reasons|, reasons)
  }

  /**
   * What `classifyLead` computes: Invalid with confidence 0.9 first; otherwise
   * Hot when `hot > cold && hot > 0.6`, and Cold, with the cold score and
   * reasons, in every other case.
   */
  function Verdict(conversation: seq<Message>, metadata: Metadata, industryId: string): (r: Classification)
    ensures r.status == Invalid <==> IsInvalidLead(conversation)
    ensures r.status == Invalid ==> r.confidence == 0.9 && r.reasons == Fired(InvalidSignals(conversation))
  {
    if IsInvalidLead(conversation) then
      Classification(Invalid, 0.9, Fired(InvalidSignals(conversation)))
    else
      var hot, cold := ScoreOf(HotSignals(metadata, industryId)), ScoreOf(ColdSignals(metadata, conversation));
      if hot.FinalScore() > cold.FinalScore() && hot.FinalScore() > 0.6 then
        Classification(Hot, Round2(hot.FinalScore()), hot.reasons)
      else
        Classification(Cold, Round2(cold.FinalScore()), cold.reasons)
  }

  /** `classifyLead` */
  method ClassifyLead(conversation: seq<Message>, metadata: Metadata, industry: IndustryConfig) returns (r: Classification)
    ensures r == Verdict(conversation, metadata, industry.id)
  {
    if IsInvalidLead(conversation) {
      var reasons := GetInvalidReasons(conversation);
      return Classification(Invalid, 0.9, reasons);
    }
    var hotScore := CalculateHotScore(metadata, industry);
    var coldScore := CalculateColdScore(metadata, conversation, industry);
    assert hotScore == ScoreOf(HotSignals(metadata, industry.id));
    assert coldScore == ScoreOf(ColdSignals(metadata, conversation));
    var status, confidence, reasons;
    if hotScore.FinalScore() > coldScore.FinalScore() && hotScore.FinalScore() > 0.6 {
      status, confidence, reasons := Hot, hotScore.FinalScore(), hotScore.reasons;
    } else {
      status, confidence, reasons := Cold, coldScore.FinalScore(), coldScore.reasons;
    }
    r := Classification(status, Round2(confidence), reasons);
  }

  /**
   * The decision on 0-or-1 scores: an Invalid lead is never scored; a valid
   * lead is Hot, with confidence 1, exactly when some hot signal and no cold
   * signal holds; otherwise it is Cold with the cold reasons and a confidence
   * of 1 when it has any and 0 when it has none.
   */
  lemma VerdictRule(conversation: seq<Message>, metadata: Metadata, industryId: string)
    ensures var r := Verdict(conversation, metadata, industryId);
      && (IsInvalidLead(conversation) ==> r == Classification(Invalid, 0.9, Fired(InvalidSignals(conversation))))
      && (!IsInvalidLead(conversation) ==> r.status != Invalid)
      && (r.status == Hot <==>
            !IsInvalidLead(conversation)
            && Fired(HotSignals(metadata, industryId)) != [] && Fired(ColdSignals(metadata, conversation)) == [])
      && (r.status == Hot ==> r.confidence == 1.0 && r.reasons == Fired(HotSignals(metadata, industryId)))
      && (r.status == Cold ==>
            r.reasons == Fired(ColdSignals(metadata, conversation))
            && r.confidence == (if r.reasons == [] then 0.0 else 1.0))
  {
    var hot, cold := ScoreOf(HotSignals(metadata, industryId)), ScoreOf(ColdSignals(metadata, conversation));
    FinalScoreIsZeroOrOne(hot);
    FinalScoreIsZeroOrOne(cold);
    Round2KeepsScores(hot.FinalScore());
    Round2KeepsScores(cold.FinalScore());
  }

  // ---------------------------------------------------------------- properties

  /** On scores that are 0 or 1 the decision rule means "the hot score is 1 and the cold score is 0"; ties go to Cold. */
  lemma DecisionRuleOnUnitScores(hot: real, cold: real)
    requires hot == 0.0 || hot == 1.0
    requires cold == 0.0 || cold == 1.0
    ensures (hot > cold && hot > 0.6) <==> hot == 1.0 && cold == 0.0
  {
  }

  /**
   * The invalid reasons are drawn from the three fixed messages, each at most
   * once and in their fixed order; "unresponsive" (one user message) and
   * "non-meaningful" (more than one) never come together.
   */
  lemma InvalidReasonsShape(conversation: seq<Message>)
    ensures Fired(InvalidSignals(conversation)) in
      {[], [GibberishReason], [UnresponsiveReason], [NonMeaningfulReason],
       [GibberishReason, UnresponsiveReason], [GibberishReason, NonMeaningfulReason]}
  {
    InvalidFired(conversation);
    var g, u, n := GibberishSignal(conversation), UnresponsiveSignal(conversation), NonMeaningfulSignal(conversation);
    assert !(u.holds && n.holds);
    var front := if g.holds then [GibberishReason] else [];
    assert Emit(g) == front;
    if u.holds {
      assert Fired(InvalidSignals(conversation)) == front + [UnresponsiveReason];
      assert front + [UnresponsiveReason] == if g.holds then [GibberishReason, UnresponsiveReason] else [UnresponsiveReason];
    } else if n.holds {
      assert Fired(InvalidSignals(conversation)) == front + [NonMeaningfulReason];
      assert front + [NonMeaningfulReason] == if g.holds then [GibberishReason, NonMeaningfulReason] else [NonMeaningfulReason];
    } else {
      assert Fired(InvalidSignals(conversation)) == front;
    }
  }

  /** A conversation whose only user message is "!" is Invalid (it is shorter than 2) with no reason given. */
  lemma InvalidWithoutReasons()
    ensures IsInvalidLead([Message(User, "!")])
    ensures Fired(InvalidSignals([Message(User, "!")])) == []
  {
    var c := [Message(User, "!")];
    assert c[..0] == [];
    assert UserTexts(c) == ["!"];
    assert Lower("!") == "!";
    assert Gibberish(UserTexts(c)[0]);
    assert "!"[0] == '!';
    assert !GibberishPattern("!");
    InvalidFired(c);
  }

  /**
   * Lengths are UTF-16 code units: a lone thumbs-up reply is two units long,
   * so it is not "shorter than 2" and the lead is not Invalid.
   */
  lemma EmojiReplyIsValid(greeting: string)
    ensures !IsInvalidLead([Message(Bot, greeting), Message(User, "\U{1F44D}")])
  {
    var e := "\U{1F44D}";
    var c := [Message(Bot, greeting), Message(User, e)];
    TextsFromAppend([], Message(Bot, greeting), User);
    assert [Message(Bot, greeting)] + [Message(User, e)] == c;
    TextsFromAppend([Message(Bot, greeting)], Message(User, e), User);
    assert UserTexts(c) == [e];
    assert Lower(e) == e;
    assert e[1..] == [];
    assert Utf16Length(e) == 2;
    assert !TestPrefix(e);
  }

  /** Two replies of three emoji each are six code units long apiece: not non-meaningful. */
  lemma EmojiRepliesAreMeaningful(greeting: string)
    ensures NonMeaningfulReason !in
      Fired(InvalidSignals([Message(Bot, greeting), Message(User, "\U{1F600}\U{1F600}\U{1F600}"),
                            Message(User, "\U{1F600}\U{1F600}\U{1F600}")]))
  {
    var e := "\U{1F600}\U{1F600}\U{1F600}";
    var c := [Message(Bot, greeting), Message(User, e), Message(User, e)];
    TextsFromAppend([], Message(Bot, greeting), User);
    assert [Message(Bot, greeting)] + [Message(User, e)] == c[..2];
    TextsFromAppend([Message(Bot, greeting)], Message(User, e), User);
    assert c[..2] + [Message(User, e)] == c;
    TextsFromAppend(c[..2], Message(User, e), User);
    assert UserTexts(c) == [e, e];
    assert e[1..][1..][1..] == [];
    assert Utf16Length(e) == 6;
    assert !NonMeaningful(e) by { assert !IsDigit(e[0]); }
    assert !NonMeaningfulSignal(c).holds by { assert !NonMeaningful(UserTexts(c)[0]); }
    InvalidFired(c);
    assert |NonMeaningfulReason| != |GibberishReason| && |NonMeaningfulReason| != |UnresponsiveReason|;
    assert Fired(InvalidSignals(c)) == Emit(GibberishSignal(c)) + Emit(UnresponsiveSignal(c));
  }

  /** A single user message in a conversation of more than four messages makes the lead Invalid. */
  lemma SingleReplyIsInvalid(conversation: seq<Message>)
    requires |UserTexts(conversation)| == 1 && |conversation| > 4
    ensures IsInvalidLead(conversation)
    ensures UnresponsiveReason in Fired(InvalidSignals(conversation))
  {
    InvalidFired(conversation);
  }

  /** Lower-casing leaves a string of digits as it is. */
  lemma LowerKeepsDigits(t: string)
    requires AllDigits(t)
    ensures Lower(t) == t
  {
    assert forall i :: 0 <= i < |t| ==> Lower(t)[i] == t[i];
  }

  /** Every reason-giving gibberish message is also gibberish for the Invalid test. */
  lemma GibberishReasonImpliesInvalid(conversation: seq<Message>)
    requires GibberishReason in Fired(InvalidSignals(conversation))
    ensures IsInvalidLead(conversation)
  {
    var users := UserTexts(conversation);
    InvalidFired(conversation);
    assert |GibberishReason| != |UnresponsiveReason| && |GibberishReason| != |NonMeaningfulReason|;
    assert SomeGibberishPattern(users);
    var i :| 0 <= i < |users| && GibberishPattern(users[i]);
    if AllDigits(users[i]) {
      LowerKeepsDigits(users[i]);
    }
    assert Gibberish(users[i]);
  }

  /** Low engagement never fires with two or fewer user messages, in particular with none. */
  lemma LowEngagementNeedsThreeReplies(users: seq<string>)
    requires |users| <= 2
    ensures !LowEngagement(users)
  {
  }

  /**
   * A Hot lead has a budget and a specific location: without either, a cold
   * signal holds and the cold score is 1.
   */
  lemma HotNeedsBudgetAndLocation(m: Metadata, conversation: seq<Message>)
    requires Fired(ColdSignals(m, conversation)) == []
    ensures TruthyAmount(m.budget)
    ensures TruthyText(m.location) && m.location != Some("not sure") && m.location != Some("anywhere")
    ensures !BrowsingIntent(m) && !DistantTimeline(m) && !LowEngagement(UserTexts(conversation))
  {
    var signals := ColdSignals(m, conversation);
    FiredEmpty(signals);
    assert !signals[0].holds && !signals[1].holds && !signals[2].holds && !signals[3].holds && !signals[4].holds;
  }

  /** A lead with no buying intent in an industry without hot signals of its own is never Hot. */
  lemma OtherIndustryNeedsBuyingIntent(m: Metadata, industryId: string)
    requires industryId != RealEstateId && industryId != SoftwareId
    ensures Fired(HotSignals(m, industryId)) != [] <==> BuyingIntent(m)
  {
    var signals := HotSignals(m, industryId);
    assert signals == [Signal(BuyingIntent(m), BuyingIntentReason)];
    assert signals[..0] == [];
  }
}
