/**
 * The rule-based dialogue policy: the conversation stage, the reply chosen
 * for the real-estate, software and generic industries, the opening greeting
 * of each industry, and the budget and timeline readers the real-estate
 * rules use. The NLP component's intent and entities arrive as an
 * `NlpResult`; a reply is a `Reply` value, and `Text` is its wording.
 */
module Dialogue {
  import opened Options
  import opened Strings
  import opened Decimals
  import opened Scan
  import opened Leads

  // ---------------------------------------------------------------- stage

  datatype Stage = Greeting | InitialQuestion | InformationGathering | Qualification

  /** The stage for a conversation holding `userCount` user messages. */
  function StageOf(userCount: nat): (s: Stage)
    ensures s == Greeting <==> userCount == 0
    ensures s == InitialQuestion <==> userCount == 1
    ensures s == InformationGathering <==> 2 <= userCount <= 3
    ensures s == Qualification <==> userCount >= 4
  {
    if userCount == 0 then Greeting
    else if userCount == 1 then InitialQuestion
    else if userCount < 4 then InformationGathering
    else Qualification
  }

  /** The position of a stage in the order the conversation goes through them. */
  function Rank(s: Stage): nat {
    match s
    case Greeting => 0
    case InitialQuestion => 1
    case InformationGathering => 2
    case Qualification => 3
  }

  /** More user messages never move the conversation back to an earlier stage. */
  lemma StageMonotone(a: nat, b: nat)
    requires a <= b
    ensures Rank(StageOf(a)) <= Rank(StageOf(b))
  {
  }

  // ---------------------------------------------------------------- replies

  datatype Reply =
    // real estate
    | EstateGreeting(name: string)
    | LocationKnown(location: string)
    | AskLocation
    | AskPropertyType(location: string)
    | AskBudget(propertyType: string)
    | AskTimeline
    | AskPurpose
    | SiteVisit(propertyType: string, location: string, budget: Decimal, timeline: nat)
    | GladToBuy
    | AskRentBudget
    | OfferOptions
    | EstateFallback
    // software
    | SoftwareGreeting(name: string)
    | AskChallenges
    | AskCurrentSolution
    | AskImplementationTimeline
    | AskProjectBudget
    | AskDecisionMaker
    | OfferDemo
    | SoftwareFallback
    // other industries
    | GenericGreeting(name: string)
    | AskWhatLookingFor
    | AskMoreDetails
    | OfferCall
    | GenericFallback

  /** The name a greeting addresses, for the replies that greet the lead. */
  function Addressee(r: Reply): Option<string> {
    match r
    case EstateGreeting(name) => Some(name)
    case SoftwareGreeting(name) => Some(name)
    case GenericGreeting(name) => Some(name)
    case _ => None
  }

  /**
   * The wording of a reply, with the lead name and extracted values
   * interpolated; every greeting names the lead right after its salutation.
   */
  function Text(r: Reply): (t: string)
    ensures Addressee(r).Some? ==> OccursAt(t, Addressee(r).value, if r.GenericGreeting? then 6 else 3)
  {
    match r
    case EstateGreeting(name) => "Hi " + name + EstateGreetingRest
    case LocationKnown(location) => "Great! " + location + LocationKnownRest
    case AskLocation => AskLocationWords
    case AskPropertyType(location) => AskPropertyTypeStart + location + AskPropertyTypeEnd
    case AskBudget(propertyType) => AskBudgetStart + propertyType + "?"
    case AskTimeline => AskTimelineWords
    case AskPurpose => AskPurposeWords
    case SiteVisit(propertyType, location, budget, timeline) =>
      SiteVisitStart + propertyType + SiteVisitArea + location + SiteVisitBudget
      + (Render(budget) + SiteVisitTimeline + NatToString(timeline) + " months") + "?"
    case GladToBuy => GladToBuyWords
    case AskRentBudget => AskRentBudgetWords
    case OfferOptions => OfferOptionsWords
    case EstateFallback => EstateFallbackWords
    case SoftwareGreeting(name) => "Hi " + name + SoftwareGreetingRest
    case AskChallenges => AskChallengesWords
    case AskCurrentSolution => AskCurrentSolutionWords
    case AskImplementationTimeline => AskImplementationTimelineWords
    case AskProjectBudget => AskProjectBudgetWords
    case AskDecisionMaker => AskDecisionMakerWords
    case OfferDemo => OfferDemoWords
    case SoftwareFallback => SoftwareFallbackWords
    case GenericGreeting(name) => "Hello " + name + GenericGreetingRest
    case AskWhatLookingFor => AskWhatLookingForWords
    case AskMoreDetails => AskMoreDetailsWords
    case OfferCall => OfferCallWords
    case GenericFallback => GenericFallbackWords
  }

  // The fixed wording of the replies, named so that a reply's text is unfolded only where it is needed.

  const EstateGreetingRest := "! Thanks for reaching out to GrowEasy Realtors. I'm your personal real estate assistant. "
    + "Could you share which city or area you're interested in?"
  const LocationKnownRest := " is a wonderful area. Are you looking for a flat, villa, or plot? "
    + "Also, is this for investment or personal use?"
  const AskLocationWords := "Which city or location are you interested in for your property search?"
  const AskPropertyTypeStart := "What type of property are you looking for in "
  const AskPropertyTypeEnd := "? (e.g., apartment, villa, plot)"
  const AskBudgetStart := "What's your budget range for the "
  const AskTimelineWords := "Great! What's your timeline for moving in or making the purchase?"
  const AskPurposeWords := "Is this property for your personal use or as an investment?"
  const SiteVisitStart := "Would you like to schedule a site visit to see some "
  const SiteVisitArea := " properties in "
  const SiteVisitBudget := " that match your budget of "
  const SiteVisitTimeline := "L and timeline of "
  const GladToBuyWords := "That's great that you're looking to buy! Could you share more details about your requirements?"
  const AskRentBudgetWords := "I understand you're looking to rent. What's your monthly budget and preferred location?"
  const OfferOptionsWords :=
    "No problem! I'm happy to show you some options. Could you give me an idea of what areas you're interested in?"
  const EstateFallbackWords :=
    "Could you tell me more about your property requirements? I'm here to help find the perfect match for you."
  const SoftwareGreetingRest := "! I'm your GrowEasy " + "software solutions consultant." + " What industry is your business in?"
  const AskChallengesWords := "Thanks for sharing that. What specific " + "challenges are you looking to solve" + " with our software?"
  const AskCurrentSolutionWords := "Are you currently using any software solution for this?"
  const AskImplementationTimelineWords := "What's your timeline for implementing a new solution?"
  const AskProjectBudgetWords := "And what's your budget range for this project?"
  const AskDecisionMakerWords := "Are you the decision maker for this purchase, or will others be involved in the decision?"
  const OfferDemoWords := "Would you be interested in scheduling a demo of our software to see how it can address your needs?"
  const SoftwareFallbackWords :=
    "Thank you for sharing that information. Is there anything specific about our software solutions that you'd like to know?"
  const GenericGreetingRest := "! How can I assist you today?"
  const AskWhatLookingForWords := "Could you tell me more about what you're looking for?"
  const AskMoreDetailsWords :=
    "Thanks for sharing that information. What other details can you provide to help me understand your needs better?"
  const OfferCallWords :=
    "Based on what you've told me, I think we can help you. Would you like to schedule a call with one of our specialists?"
  const GenericFallbackWords := "I appreciate your interest. How else can I help you today?"
  const OpeningEstateRest := "! Thanks for reaching out. I'm your GrowEasy real estate assistant. "
    + "Could you share which city/location you're looking for?"
  const OpeningOtherRest := "! Thanks for contacting us. How can I assist you today?"

  /** The site-visit question quotes the budget in lakhs and the timeline in months. */
  lemma SiteVisitQuotesFigures(propertyType: string, location: string, budget: Decimal, timeline: nat)
    ensures Contains(Text(SiteVisit(propertyType, location, budget, timeline)),
                     Render(budget) + "L and timeline of " + NatToString(timeline) + " months")
  {
    var a := SiteVisitStart + propertyType + SiteVisitArea + location + SiteVisitBudget;
    var b := Render(budget) + SiteVisitTimeline + NatToString(timeline) + " months";
    ContainsAt(b, b, 0);
    ContainsInFactor(a, b, "?", b);
    assert Text(SiteVisit(propertyType, location, budget, timeline)) == a + b + "?";
  }

  // ---------------------------------------------------------------- budget and timeline

  const LakhUnits: seq<string> := ["l", "lakh", "lakhs"]
  const CroreUnits: seq<string> := ["cr", "crore", "crores"]

  /**
   * `extractBudget` of the dialogue policy, on the lower-cased message: the
   * first "number lakh" amount as it is, else the first "number crore" amount
   * times 100, else nothing. Amounts are in lakhs.
   */
  function UnitBudget(message: string): (r: Option<Decimal>)
    ensures FirstMatch(message, LakhUnits, true).Some? ==>
      r == Some(FirstMatch(message, LakhUnits, true).value.value)
    ensures FirstMatch(message, LakhUnits, true).None? && FirstMatch(message, CroreUnits, true).Some? ==>
      r == Some(TimesPow10(FirstMatch(message, CroreUnits, true).value.value, 2))
    ensures r.None? <==> FirstMatch(message, LakhUnits, true).None? && FirstMatch(message, CroreUnits, true).None?
  {
    match FirstMatch(message, LakhUnits, true)
    case Some(m) => Some(m.value)
    case None =>
      match FirstMatch(message, CroreUnits, true)
      case Some(m) => Some(TimesPow10(m.value, 2))
      case None => None
  }

  const MonthUnit: seq<string> := ["month"]
  const YearUnit: seq<string> := ["year"]
  const ImmediatePhrases: seq<string> := ["immediately", "asap", "right away"]

  predicate SaysAny(message: string, phrases: seq<string>) {
    exists k :: 0 <= k < |phrases| && Contains(message, phrases[k])
  }

  /**
   * `extractTimeline` of the dialogue policy, on the lower-cased message: the
   * first "number month" count, else the first "number year" count times 12,
   * else 1 for an immediate phrase, else nothing. Timelines are in months.
   */
  function UnitTimeline(message: string): (r: Option<nat>)
    ensures FirstMatch(message, MonthUnit, false).Some? ==>
      r == Some(FirstMatch(message, MonthUnit, false).value.value.mantissa)
    ensures FirstMatch(message, MonthUnit, false).None? && FirstMatch(message, YearUnit, false).Some? ==>
      r == Some(12 * FirstMatch(message, YearUnit, false).value.value.mantissa)
    ensures FirstMatch(message, MonthUnit, false).None? && FirstMatch(message, YearUnit, false).None? ==>
      (r.Some? <==> SaysAny(message, ImmediatePhrases)) && (r.Some? ==> r.value == 1)
  {
    match FirstMatch(message, MonthUnit, false)
    case Some(m) => Some(m.value.mantissa)
    case None =>
      match FirstMatch(message, YearUnit, false)
      case Some(m) => Some(m.value.mantissa * 12)
      case None =>
        if SaysAny(message, ImmediatePhrases) then Some(1) else None
  }

  /** The lakh pattern is tried first, so "1.5 crore" (which has no lakh amount) is 150 lakhs. */
  lemma CroreExample()
    ensures UnitBudget("1.5 crore").Some?
    ensures Value(UnitBudget("1.5 crore").value) == 150.0
  {
    CroreNoLakh("1.5 crore");
    CroreMatch("1.5 crore");
    assert Value(Decimal(15, 1)) == 1.5;
  }

  lemma CroreNoLakh(s: string)
    requires s == "1.5 crore"
    ensures FirstMatch(s, LakhUnits, true).None?
  {
    assert DigitRunEnd(s, 0) == 1 && DigitRunEnd(s, 2) == 3;
    assert SkipSpaces(s, 3) == 4;
    NoUnitStartsWith(s, LakhUnits, 4);
    assert MatchAt(s, 0, LakhUnits, true).None?;
    assert MatchAt(s, 2, LakhUnits, true).None?;
    assert forall i :: 0 <= i < |s| && i != 0 && i != 2 ==> !IsDigit(s[i]);
  }

  lemma CroreMatch(s: string)
    requires s == "1.5 crore"
    ensures FirstMatch(s, CroreUnits, true) == Some(NumberMatch(0, Decimal(15, 1), 0))
  {
    assert DigitRunEnd(s, 0) == 1 && DigitRunEnd(s, 2) == 3;
    assert SkipSpaces(s, 3) == 4;
    assert OccursAt(s, "cr", 4);
    assert s[0..1] + s[2..3] == "15";
    assert DigitsValue("15") == 15 by { assert "15"[..1] == "1"; }
    assert MatchAt(s, 0, CroreUnits, true) == Some(NumberMatch(0, Decimal(15, 1), 0));
  }

  // ---------------------------------------------------------------- real estate

  predicate HasLocation(nlp: NlpResult) { TruthyText(nlp.location) }
  predicate HasPropertyType(nlp: NlpResult) { TruthyText(nlp.propertyType) }
  predicate HasPurpose(nlp: NlpResult) { TruthyText(nlp.purpose) }

  /** The budget read from the latest message. */
  function BudgetIn(userMessage: string): Option<Decimal> {
    UnitBudget(Lower(userMessage))
  }

  /** The timeline read from the latest message. */
  function TimelineIn(userMessage: string): Option<nat> {
    UnitTimeline(Lower(userMessage))
  }

  /**
   * `generateRealEstateResponse`: the first rule that applies answers. The
   * entities are those of the latest message, and the budget and timeline
   * are read from it alone.
   */
  function EstateReply(stage: Stage, userMessage: string, nlp: NlpResult, name: string): (r: Reply)
    ensures IsGreeting(r) <==> stage == Greeting
    ensures r.SiteVisit? <==>
      Rank(stage) >= 2 && HasLocation(nlp) && HasPropertyType(nlp) && HasPurpose(nlp)
      && TruthyAmount(BudgetIn(userMessage)) && TruthyCount(TimelineIn(userMessage))
    ensures r.SiteVisit? ==>
      r == SiteVisit(nlp.propertyType.value, nlp.location.value, BudgetIn(userMessage).value, TimelineIn(userMessage).value)
  {
    EstateRule(stage, nlp, name, BudgetIn(userMessage), TimelineIn(userMessage))
  }

  /** The rule chain of `generateRealEstateResponse`, given the budget and timeline read from the message. */
  function EstateRule(stage: Stage, nlp: NlpResult, name: string, budget: Option<Decimal>, timeline: Option<nat>): (r: Reply)
    ensures IsGreeting(r) <==> stage == Greeting
    ensures IsGreeting(r) ==> r == EstateGreeting(name)
  {
    var hasBudget, hasTimeline := TruthyAmount(budget), TruthyCount(timeline);
    if stage == Greeting then EstateGreeting(name)
    else if stage == InitialQuestion then
      if HasLocation(nlp) then LocationKnown(nlp.location.value) else AskLocation
    else if HasLocation(nlp) && !HasPropertyType(nlp) then AskPropertyType(nlp.location.value)
    else if HasPropertyType(nlp) && !hasBudget then AskBudget(nlp.propertyType.value)
    else if hasBudget && !hasTimeline then AskTimeline
    else if hasTimeline && !HasPurpose(nlp) then AskPurpose
    else if HasLocation(nlp) && HasPropertyType(nlp) && hasBudget && hasTimeline then
      SiteVisit(nlp.propertyType.value, nlp.location.value, budget.value, timeline.value)
    else if nlp.intent == Some("intent.buy") then GladToBuy
    else if nlp.intent == Some("intent.rent") then AskRentBudget
    else if nlp.intent == Some("intent.browse") then OfferOptions
    else EstateFallback
  }

  /**
   * The site visit is offered exactly when the conversation is past its first
   * question and location, property type, budget, timeline and purpose are
   * all known: the purpose rule comes before it.
   */
  lemma SiteVisitNeedsAllFive(stage: Stage, nlp: NlpResult, name: string, budget: Option<Decimal>, timeline: Option<nat>)
    ensures EstateRule(stage, nlp, name, budget, timeline).SiteVisit? <==>
      Rank(stage) >= 2 && HasLocation(nlp) && HasPropertyType(nlp) && HasPurpose(nlp)
      && TruthyAmount(budget) && TruthyCount(timeline)
  {
  }

  /** The site visit quotes the location, property type, budget and timeline it was given. */
  lemma SiteVisitQuotesFields(stage: Stage, nlp: NlpResult, name: string, budget: Option<Decimal>, timeline: Option<nat>)
    requires EstateRule(stage, nlp, name, budget, timeline).SiteVisit?
    ensures EstateRule(stage, nlp, name, budget, timeline)
         == SiteVisit(nlp.propertyType.value, nlp.location.value, budget.value, timeline.value)
  {
  }

  /** One of the intent replies or the fallback. */
  predicate IsEstateDefault(r: Reply) {
    r == GladToBuy || r == AskRentBudget || r == OfferOptions || r == EstateFallback
  }

  /**
   * The intent replies and the fallback are reached exactly when no stage rule
   * or field rule applies: past the first question, no location, and each of
   * property type, budget and timeline is followed by the next.
   */
  lemma DefaultsOnlyWhenNoFieldRule(stage: Stage, nlp: NlpResult, name: string, budget: Option<Decimal>,
                                    timeline: Option<nat>)
    ensures IsEstateDefault(EstateRule(stage, nlp, name, budget, timeline)) <==>
      Rank(stage) >= 2 && !HasLocation(nlp)
      && (HasPropertyType(nlp) ==> TruthyAmount(budget)) && (TruthyAmount(budget) ==> TruthyCount(timeline))
      && (TruthyCount(timeline) ==> HasPurpose(nlp))
    ensures EstateRule(stage, nlp, name, budget, timeline) == GladToBuy <==>
      IsEstateDefault(EstateRule(stage, nlp, name, budget, timeline)) && nlp.intent == Some("intent.buy")
  {
  }

  // ---------------------------------------------------------------- software

  /** The earlier bot messages, lower-cased. */
  function BotHistory(conversation: seq<Message>): seq<string> {
    LowerAll(BotTexts(conversation))
  }

  /** Some text of `texts` contains one of `phrases`. */
  predicate AnySays(texts: seq<string>, phrases: seq<string>) {
    exists i :: 0 <= i < |texts| && SaysAny(texts[i], phrases)
  }

  const ChallengeWords: seq<string> := ["challenges", "solve"]
  const SolutionWords: seq<string> := ["currently using", "software solution"]
  const TimelineWords: seq<string> := ["timeline"]

  /** `generateSoftwareResponse`: by stage, and by what the bot has asked before while gathering information. */
  function SoftwareReply(stage: Stage, conversation: seq<Message>, name: string): (r: Reply)
    ensures r != SoftwareFallback
    ensures IsGreeting(r) <==> stage == Greeting
    ensures IsGreeting(r) ==> r == SoftwareGreeting(name)
    ensures stage == InformationGathering <==>
      r in {AskCurrentSolution, AskImplementationTimeline, AskProjectBudget, AskDecisionMaker}
  {
    if stage.Greeting? then SoftwareGreeting(name)
    else if stage.InitialQuestion? then AskChallenges
    else if stage.InformationGathering? then
      var history := BotHistory(conversation);
      if AnySays(history, ChallengeWords) then AskCurrentSolution
      else if AnySays(history, SolutionWords) then AskImplementationTimeline
      else if AnySays(history, TimelineWords) then AskProjectBudget
      else AskDecisionMaker
    else if stage.Qualification? then OfferDemo
    else SoftwareFallback
  }

  /** Lower-casing distributes over concatenation. */
  lemma LowerAppend(a: string, b: string)
    ensures Lower(a + b) == Lower(a) + Lower(b)
  {
    assert forall i :: 0 <= i < |a + b| ==> Lower(a + b)[i] == (Lower(a) + Lower(b))[i];
  }

  /** What a part of a text contains, lower-cased, the whole text contains, lower-cased. */
  lemma LowerPartContains(a: string, b: string, c: string, p: string)
    requires Contains(Lower(b), p)
    ensures Contains(Lower(a + b + c), p)
  {
    LowerAppend(a + b, c);
    LowerAppend(a, b);
    ContainsInFactor(Lower(a), Lower(b), Lower(c), p);
  }

  /** The lower-cased software greeting mentions "software solution", whatever the lead's name. */
  lemma GreetingMentionsSolution(name: string)
    ensures Contains(Lower(Text(SoftwareGreeting(name))), "software solution")
  {
    var a, rest := "Hi " + name, SoftwareGreetingRest;
    RestMentionsSolution();
    assert Text(SoftwareGreeting(name)) == a + rest;
    LowerAppend(a, rest);
    ContainsInFactor(Lower(a), Lower(rest), "", "software solution");
    assert Lower(a) + Lower(rest) + "" == Lower(a + rest);
  }

  lemma RestMentionsSolution()
    ensures Contains(Lower(SoftwareGreetingRest), "software solution")
  {
    var a, b, c := "! I'm your GrowEasy ", "software solutions consultant.", " What industry is your business in?";
    PieceMentions(b, "software solution");
    LowerPartContains(a, b, c, "software solution");
  }

  /** The lower-cased challenges question mentions "challenges". */
  lemma ChallengesMentioned()
    ensures Contains(Lower(Text(AskChallenges)), "challenges")
  {
    var a, b, c := "Thanks for sharing that. What specific ", "challenges are you looking to solve", " with our software?";
    assert Text(AskChallenges) == a + b + c;
    PieceMentions(b, "challenges");
    LowerPartContains(a, b, c, "challenges");
  }

  /** A lower-case text beginning with `p`, lower-cased, contains `p`. */
  lemma PieceMentions(b: string, p: string)
    requires |p| <= |b| && b[..|p|] == p
    requires forall i :: 0 <= i < |p| ==> 'a' <= p[i] <= 'z' || p[i] == ' '
    ensures Contains(Lower(b), p)
  {
    assert Lower(b)[..|p|] == p;
    ContainsAt(Lower(b), p, 0);
  }

  /** A bot message whose lower-cased text contains one of `phrases` makes the history say it. */
  lemma BotMessageSays(conversation: seq<Message>, k: nat, phrases: seq<string>, j: nat)
    requires k < |conversation| && conversation[k].sender == Bot
    requires j < |phrases| && Contains(Lower(conversation[k].text), phrases[j])
    ensures AnySays(BotHistory(conversation), phrases)
  {
    var i :| 0 <= i < |BotTexts(conversation)| && BotTexts(conversation)[i] == conversation[k].text
      by { BotTextPresent(conversation, k); }
    assert SaysAny(BotHistory(conversation)[i], phrases);
  }

  /** Every bot message's text is among the bot texts. */
  lemma {:induction false} BotTextPresent(conversation: seq<Message>, k: nat)
    requires k < |conversation| && conversation[k].sender == Bot
    ensures exists i :: 0 <= i < |BotTexts(conversation)| && BotTexts(conversation)[i] == conversation[k].text
  {
    var front := conversation[..|conversation| - 1];
    TextsFromAppend(front, conversation[|conversation| - 1], Bot);
    assert front + [conversation[|conversation| - 1]] == conversation;
    if k == |conversation| - 1 {
      var i := |BotTexts(conversation)| - 1;
      assert BotTexts(conversation)[i] == conversation[k].text;
    } else {
      BotTextPresent(front, k);
      var i :| 0 <= i < |BotTexts(front)| && BotTexts(front)[i] == front[k].text;
      assert BotTexts(conversation)[i] == BotTexts(front)[i];
    }
  }

  /**
   * Once the software greeting is in the history, information gathering only
   * ever asks about the current solution or, failing that, the timeline: its
   * "software solutions consultant" matches the second rule, so the budget and
   * decision-maker questions are never reached.
   */
  lemma GreetingShadowsLaterQuestions(conversation: seq<Message>, k: nat, name: string)
    requires k < |conversation| && conversation[k] == Message(Bot, Text(SoftwareGreeting(name)))
    ensures SoftwareReply(InformationGathering, conversation, name) in {AskCurrentSolution, AskImplementationTimeline}
  {
    GreetingMentionsSolution(name);
    BotMessageSays(conversation, k, SolutionWords, 1);
  }

  /** Once the challenges question has been asked, information gathering always asks about the current solution. */
  lemma ChallengesQuestionRepeats(conversation: seq<Message>, k: nat, name: string)
    requires k < |conversation| && conversation[k] == Message(Bot, Text(AskChallenges))
    ensures SoftwareReply(InformationGathering, conversation, name) == AskCurrentSolution
  {
    ChallengesMentioned();
    BotMessageSays(conversation, k, ChallengeWords, 0);
  }

  // ---------------------------------------------------------------- other industries

  /** `generateGenericResponse`: the reply depends on the stage alone. */
  function GenericReply(stage: Stage, name: string): (r: Reply)
    ensures r != GenericFallback
    ensures IsGreeting(r) <==> stage == Greeting
    ensures IsGreeting(r) ==> r == GenericGreeting(name)
  {
    if stage.Greeting? then GenericGreeting(name)
    else if stage.InitialQuestion? then AskWhatLookingFor
    else if stage.InformationGathering? then AskMoreDetails
    else if stage.Qualification? then OfferCall
    else GenericFallback
  }

  // ---------------------------------------------------------------- dispatch

  /**
   * The rule function of `generateRuleBasedResponse`: the stage from the
   * number of user messages in the conversation, then the industry's rules.
   */
  function RuleReply(industryId: string, name: string, conversation: seq<Message>, userMessage: string, nlp: NlpResult): (r: Reply)
    ensures var stage := StageOf(|UserTexts(conversation)|);
      && (industryId == RealEstateId ==> r == EstateReply(stage, userMessage, nlp, name))
      && (industryId != RealEstateId && industryId == SoftwareId ==> r == SoftwareReply(stage, conversation, name))
      && (industryId != RealEstateId && industryId != SoftwareId ==> r == GenericReply(stage, name))
  {
    var stage := StageOf(|UserTexts(conversation)|);
    if industryId == RealEstateId then EstateReply(stage, userMessage, nlp, name)
    else if industryId == SoftwareId then SoftwareReply(stage, conversation, name)
    else GenericReply(stage, name)
  }

  /** One of the three greeting replies of the stage rules. */
  predicate IsGreeting(r: Reply) {
    r.EstateGreeting? || r.SoftwareGreeting? || r.GenericGreeting?
  }

  /** Every industry greets exactly when the conversation has no user message yet. */
  lemma GreetsOnlyFirst(industryId: string, name: string, conversation: seq<Message>, userMessage: string, nlp: NlpResult)
    ensures IsGreeting(RuleReply(industryId, name, conversation, userMessage, nlp)) <==> UserTexts(conversation) == []
  {
    var stage := StageOf(|UserTexts(conversation)|);
    var r := RuleReply(industryId, name, conversation, userMessage, nlp);
    if industryId == RealEstateId {
      assert r == EstateRule(stage, nlp, name, BudgetIn(userMessage), TimelineIn(userMessage));
    } else if industryId == SoftwareId {
      assert r == SoftwareReply(stage, conversation, name);
    } else {
      assert r == GenericReply(stage, name);
    }
  }

  /** A reply to a user message, which is in the conversation by then, is never a greeting. */
  lemma UserTurnNeverGreets(industryId: string, name: string, before: seq<Message>, userMessage: string, nlp: NlpResult)
    ensures !IsGreeting(RuleReply(industryId, name, before + [Message(User, userMessage)], userMessage, nlp))
  {
    TextsFromAppend(before, Message(User, userMessage), User);
    GreetsOnlyFirst(industryId, name, before + [Message(User, userMessage)], userMessage, nlp);
  }

  // ---------------------------------------------------------------- the opening message

  /**
   * `generateInitialGreeting`: the message that opens a conversation, one
   * template per industry id, each naming the lead right after "Hi ".
   */
  function OpeningGreeting(industryId: string, name: string): (t: string)
    ensures OccursAt(t, "Hi ", 0) && OccursAt(t, name, 3)
  {
    if industryId == RealEstateId then "Hi " + name + OpeningEstateRest
    else if industryId == SoftwareId then "Hi " + name + SoftwareGreetingRest
    else "Hi " + name + OpeningOtherRest
  }

  /** The software opening is word for word the greeting of the software reply rules. */
  lemma SoftwareOpeningIsGreeting(name: string)
    ensures OpeningGreeting(SoftwareId, name) == Text(SoftwareGreeting(name))
  {
  }

  /**
   * The template is chosen by the industry id alone: real estate, software
   * and every other industry open with three different messages.
   */
  lemma OpeningsDiffer(name: string, otherId: string)
    requires otherId != RealEstateId && otherId != SoftwareId
    ensures OpeningGreeting(RealEstateId, name) != OpeningGreeting(SoftwareId, name)
    ensures OpeningGreeting(RealEstateId, name) != OpeningGreeting(otherId, name)
    ensures OpeningGreeting(SoftwareId, name) != OpeningGreeting(otherId, name)
    ensures forall id :: id != RealEstateId && id != SoftwareId ==> OpeningGreeting(id, name) == OpeningGreeting(otherId, name)
  {
    var estate, software, other := OpeningGreeting(RealEstateId, name), OpeningGreeting(SoftwareId, name), OpeningGreeting(otherId, name);
    assert |OpeningEstateRest| == 123 && |SoftwareGreetingRest| == 85 && |OpeningOtherRest| == 55;
    assert |estate| == |name| + 3 + |OpeningEstateRest|;
    assert |software| == |name| + 3 + |SoftwareGreetingRest|;
    assert |other| == |name| + 3 + |OpeningOtherRest|;
  }
}
