# Lead qualification engine: a verified model

This project models, in Dafny, the rule-based core of a chat agent that
qualifies sales leads. A lead chats with a bot. The bot asks questions by
industry (real estate, software, or any other). Facts are read from the lead's
messages: location, budget in lakhs, property type, timeline in months,
purpose, intent, company size and decision maker. Once enough is known, the
lead is classified as Hot, Cold or Invalid, with a confidence and reasons.

The model has four parts, one module per source file, plus shared modules:

| module | models | form |
|---|---|---|
| `Classifier` (classifier.dfy) | `src/models/classifier.js` | score builders are methods with counters, proved against signal-list functions; the decision is a function |
| `Extractor` (extractor.dfy), `ExtractorExamples` | `src/utils/metadataExtractor.js` | pure functions: a first-match search over the lower-cased user messages |
| `Chat` (chat.dfy) | `src/services/chatService.js` | a `ChatService` class holding a map of `Conversation` objects that its methods update in place; its own budget and timeline readers are functions |
| `Dialogue` (dialogue.dfy) | `src/models/localAI.js` | pure functions: the stage, an ordered rule chain per industry, a `Reply` datatype with its `Text`, and the opening message |
| `Scan` (scan.dfy) | the "number, `\s*`, unit" regular expressions of all three readers | the leftmost match, a maximal digit run, an optional fraction, skipped whitespace, and the first unit alternative |
| `Strings`, `Decimals`, `Leads`, `Options` | `includes`, `toLowerCase`, `split`, `join`, `String(n)`, exact budgets, shared records | functions and lemmas |

Budgets are exact decimals (`mantissa / 10^scale`). The source multiplies and
divides binary floating-point numbers by powers of ten, which can round; the
model computes the exact value instead (see "## Left out").

Text lengths (`text.length`) are counted in UTF-16 code units, as JavaScript
counts them: a character outside the Basic Multilingual Plane, such as an
emoji, counts twice (`Strings.Utf16Length`).

The NLP component's output for a message is an input (`NlpResult`: the intent
label and the `location`, `property_type` and `purpose` entities). So are the
conversation id, the current month and the minutes since the conversation
started.

Main results:
- Both scores are always 0 or 1. The decision rule therefore means "Hot exactly when some hot signal and no cold signal holds".
- The reasons are exactly the reasons of the satisfied signals, in order.
- A lead can be Invalid and still get no reason.
- Every extractor takes its value from the earliest message that yields one.
- The metadata merge never erases a field.
- A user turn is refused before any change when the conversation is unknown or belongs to another socket.
- A successful user turn appends exactly the user message and then the bot reply.
- The bot never answers a user message with a greeting.

## Model

| member | source | states |
|---|---|---|
| Classifier.Score.FinalScore | src/models/classifier.js:184 | the final score is the ratio of score to factors, and 0 with no factors; never negative |
| Classifier.Fired | src/models/classifier.js:102-244 | the reasons of the satisfied signals in test order; never more reasons than signals |
| Classifier.FiredSnoc | src/models/classifier.js:110-114 | testing one more signal appends its reason exactly when it holds |
| Classifier.FiredCount | src/models/classifier.js:102-244 | the number of reasons equals the number of satisfied signals |
| Classifier.CountHoldingSnoc | src/models/classifier.js:102-244 | one more signal adds one to the count of satisfied signals exactly when it holds |
| Classifier.FiredEmpty | src/models/classifier.js:102-244 | the reasons are empty if and only if no signal holds |
| Classifier.FinalScoreIsZeroOrOne | src/models/classifier.js:184 | a score whose counters rise together is 1 when it has reasons and 0 when it has none |
| Classifier.IsInvalidLead | src/models/classifier.js:50-73 | only a conversation with a user message can be invalid; a single user message in more than four messages always is |
| Classifier.InvalidFired | src/models/classifier.js:82-94 | the invalid reasons are the gibberish, unresponsive and non-meaningful reasons, each present when its test holds; lengths are counted in UTF-16 code units |
| Classifier.GetInvalidReasons | src/models/classifier.js:78-97 | the reasons pushed are exactly those of the three invalid tests, in order |
| Classifier.RealEstateFired | src/models/classifier.js:108-143 | the real-estate hot reasons come from budget, location, timeline up to 6 months, purpose and property type, in that order; the location must be longer than 3 UTF-16 code units |
| Classifier.SoftwareFired | src/models/classifier.js:146-174 | the software hot reasons come from budget, timeline up to 3 months, decision maker and company size over 50, in that order |
| Classifier.HotFired | src/models/classifier.js:176-181 | the buying-intent reason comes after every industry reason |
| Classifier.RealEstateHotScore | src/models/classifier.js:108-143 | the real-estate block produces the reasons of its satisfied signals, with score = factors = number of reasons |
| Classifier.SoftwareHotScore | src/models/classifier.js:146-174 | the software block produces the reasons of its satisfied signals, with score = factors = number of reasons |
| Classifier.CalculateHotScore | src/models/classifier.js:102-190 | the hot reasons are exactly the satisfied hot signals' reasons (industry ones, then buying intent), with score = factors = number of reasons |
| Classifier.ShortCount | src/models/classifier.js:229 | the number of short replies never exceeds the number of user messages |
| Classifier.ColdFired | src/models/classifier.js:200-235 | the cold reasons come from budget, location, browsing intent, distant timeline and low engagement, in that order |
| Classifier.CalculateColdScore | src/models/classifier.js:195-244 | the cold reasons are exactly the satisfied cold signals' reasons, with score = factors = number of reasons |
| Classifier.Round2KeepsScores | src/models/classifier.js:42 | two-decimal rounding keeps a score of 0 or 1 |
| Classifier.ScoreOf | src/models/classifier.js:184 | a score built from fired signals has score = factors = number of reasons |
| Classifier.Verdict | src/models/classifier.js:8-45 | the verdict is Invalid exactly when the Invalid test holds, and then has confidence 0.9 and the invalid reasons |
| Classifier.ClassifyLead | src/models/classifier.js:8-45 | `classifyLead` returns the verdict of the decision rule |
| Classifier.VerdictRule | src/models/classifier.js:15-38 | an invalid lead is Invalid with 0.9 and its reasons; otherwise Hot if and only if some hot and no cold signal holds (confidence 1, hot reasons), else Cold with the cold reasons and confidence 1 or 0 |
| Classifier.DecisionRuleOnUnitScores | src/models/classifier.js:30 | on 0/1 scores, `hot > cold && hot > 0.6` means hot is 1 and cold is 0; ties are Cold |
| Classifier.InvalidReasonsShape | src/models/classifier.js:78-97 | the invalid reasons are one of six lists: the three fixed reasons, each at most once, in fixed order, never unresponsive with non-meaningful |
| Classifier.InvalidWithoutReasons | src/models/classifier.js:61 | a single user message "!" makes the lead Invalid with no reason, because only the Invalid test has `length < 2` |
| Classifier.EmojiReplyIsValid | src/models/classifier.js:55-63 | a single reply of one emoji is 2 UTF-16 code units long, so the `length < 2` test does not make it invalid |
| Classifier.EmojiRepliesAreMeaningful | src/models/classifier.js:88-92 | a reply of three emoji is 6 UTF-16 code units long, so it is not given the non-meaningful reason |
| Classifier.SingleReplyIsInvalid | src/models/classifier.js:70 | one user message in more than four messages makes the lead Invalid, with the unresponsive reason |
| Classifier.LowerKeepsDigits | src/models/classifier.js:83 | lower-casing leaves an all-digit text as it is |
| Classifier.GibberishReasonImpliesInvalid | src/models/classifier.js:55-63 | whenever the gibberish reason is given, the Invalid test holds |
| Classifier.LowEngagementNeedsThreeReplies | src/models/classifier.js:231 | low engagement never fires with two or fewer user messages, with none in particular |
| Classifier.HotNeedsBudgetAndLocation | src/models/classifier.js:200-235 | with no cold signal, the lead has a truthy budget and a location that is neither "not sure" nor "anywhere" |
| Classifier.OtherIndustryNeedsBuyingIntent | src/models/classifier.js:176-181 | for another industry, some hot signal holds if and only if the intent is buy or purchase |
| Extractor.FirstFound | src/utils/metadataExtractor.js:228-240 | the result is the value of the earliest message yielding one; none when no message yields one |
| Extractor.EarliestIsFirstFound | src/utils/metadataExtractor.js:228-240 | "the value of the earliest message that yields one, or none when none does" holds of exactly one result: the search's |
| Extractor.FirstFoundAt | src/utils/metadataExtractor.js:228-240 | the search returns the value of a message that yields one when every earlier message yields none |
| Extractor.FirstFoundAppend | src/utils/metadataExtractor.js:228-240 | the search over `a + b` ends in `a` when `a` yields a value and continues into `b` otherwise |
| Extractor.ExtractionIsStable | src/utils/metadataExtractor.js:228-240 | a later message never changes a field an earlier message fixed |
| Extractor.CityAt | src/utils/metadataExtractor.js:63 | the city chosen occurs at the index and ends on a word boundary |
| Extractor.CityFrom | src/utils/metadataExtractor.js:63-64 | the matched city is one of the sixteen listed |
| Extractor.ExtractLocation | src/utils/metadataExtractor.js:48-83 | the location of the earliest user message that yields one; none when no message does |
| Extractor.PlaceLengthInCodeUnits | src/utils/metadataExtractor.js:55 | for a place that starts and ends with a word character, `length > 2` in code units agrees with its character count |
| Extractor.MarkedPlace | src/utils/metadataExtractor.js:52-57 | an accepted place is longer than two characters and starts and ends with a word character |
| Extractor.RawOrLakhs | src/utils/metadataExtractor.js:125-128 | a bare number above 100000 is divided by 100000; otherwise it is kept |
| Extractor.IndianAmount | src/utils/metadataExtractor.js:95-102 | a lakh unit keeps the number; a crore unit multiplies it by 100 |
| Extractor.WesternAmount | src/utils/metadataExtractor.js:108-117 | k/thousand gives n/10, m/million gives 10n, `$` gives n/100000 |
| Extractor.CuedAmount | src/utils/metadataExtractor.js:93-129 | an Indian match is used first, then a Western match, then a bare number |
| Extractor.BudgetInMessage | src/utils/metadataExtractor.js:91-138 | a budget is found only in a message with a budget cue or with both "max" and "up to"; the cue path comes first |
| Extractor.ExtractBudget | src/utils/metadataExtractor.js:88-142 | the budget of the earliest user message that yields one; none when no message does |
| Extractor.BareAmount | src/utils/metadataExtractor.js:121-129 | a bare amount is found if and only if the message has a digit |
| Extractor.FirstKeyword | src/utils/metadataExtractor.js:167-171 | the chosen keyword occurs in the message and no earlier keyword does |
| Extractor.ExtractPropertyType | src/utils/metadataExtractor.js:147-175 | the property type of the earliest user message that yields one; none when no message does |
| Extractor.CeilDiv | src/utils/metadataExtractor.js:193 | `Math.ceil(n / d)`: the least r with r·d ≥ n |
| Extractor.TimelineInMessage | src/utils/metadataExtractor.js:183-218 | n months gives n, n weeks gives ceil(n/4), n years gives 12n, n days gives ceil(n/30); without a match, the phrase rules apply |
| Extractor.ExtractTimeline | src/utils/metadataExtractor.js:180-222 | the timeline of the earliest user message that yields one; none when no message does |
| Extractor.TimeUnitKinds | src/utils/metadataExtractor.js:190-198 | each unit word passes the `startsWith` test of its own kind first |
| Extractor.TimelinePhrase | src/utils/metadataExtractor.js:202-218 | asap/as soon as possible/right away/next month/within a month give 1; few or couple of months give 3; end of the year gives the months left in the year; otherwise none |
| Extractor.IntentKeyword | src/utils/metadataExtractor.js:277-282 | the keyword fallback yields only buy, rent or browsing, never sell |
| Extractor.ExtractIntent | src/utils/metadataExtractor.js:246-283 | the intent is one of buy, rent, browsing or sell; sell only from a message with a sell phrase; the phrase of the earliest message that has one wins, and with no phrase anywhere the keyword test runs on the joined text |
| Extractor.LoweredUserTexts | src/utils/metadataExtractor.js:9-11 | the lower-cased texts of the user messages, one for each, in order |
| Extractor.ExtractMetadata | src/utils/metadataExtractor.js:7-43 | real estate fills no software field; software fills no real-estate field; another industry gives `{}`; every field it fills is the result of that field's extractor over the user messages |
| Extractor.ExtractPurpose | src/utils/metadataExtractor.js:227-241 | the purpose of the earliest user message that yields one; none when no message does |
| Extractor.ExtractCompanySize | src/utils/metadataExtractor.js:288-313 | the company size of the earliest user message that yields one; none when no message does |
| Extractor.ExtractDecisionMaker | src/utils/metadataExtractor.js:318-332 | the decision-maker answer of the earliest user message that yields one; none when no message does |
| Extractor.PurposeOrder | src/utils/metadataExtractor.js:229-237 | within a message, personal-use cues are checked before investment cues |
| Extractor.ExtractPurposeEarliest | src/utils/metadataExtractor.js:227-241 | a purpose is found if and only if some message has a cue, and it is that of the earliest such message |
| Extractor.FlatComesFirst | src/utils/metadataExtractor.js:148-172 | a message containing "flat" gives Apartment/Flat whatever else it contains |
| Extractor.PlotLandEntries | src/utils/metadataExtractor.js:159-160 | only the "plot" and "land" entries of the keyword table give "Plot/Land" |
| Extractor.PlotAndLandAgree | src/utils/metadataExtractor.js:159-160 | Plot/Land comes only from "plot" or "land", and either word gives a type |
| Extractor.OneBhkFlatExample | src/utils/metadataExtractor.js:148-172 | "1bhk flat" gives Apartment/Flat |
| Extractor.NotMyDecisionIsAuthority | src/utils/metadataExtractor.js:320-327 | "not my decision" yields true, since the true phrases are checked first |
| Extractor.DecisionMakerOrder | src/utils/metadataExtractor.js:318-332 | true-phrases win over false-phrases; with neither, the result is null |
| Extractor.IntentFallbackOnlyWithoutPhrases | src/utils/metadataExtractor.js:246-283 | the keyword fallback runs only when no message has an intent phrase |
| Extractor.BuyWordFallback | src/utils/metadataExtractor.js:277-278 | with no phrase anywhere, a message containing "buy" makes the intent buy |
| ExtractorExamples.SevenAndAHalfMillion | src/utils/metadataExtractor.js:123 | the digit run "7500000" reads as 7500000 |
| ExtractorExamples.RawCurrencyExample | src/utils/metadataExtractor.js:121-127 | "budget is 7500000" gives 75 lakhs |
| ExtractorExamples.RawCurrencyCued | src/utils/metadataExtractor.js:121-127 | the cue path on "budget is 7500000" gives 75 |
| ExtractorExamples.RawCurrencyMatch | src/utils/metadataExtractor.js:121 | the bare number of "budget is 7500000" starts at index 10 |
| ExtractorExamples.ThousandsExample | src/utils/metadataExtractor.js:111-112 | "2k budget" gives 0.2 lakhs |
| ExtractorExamples.ThousandsCued | src/utils/metadataExtractor.js:106-112 | the Western path on "2k budget" gives 0.2 |
| ExtractorExamples.ThousandsNoIndianMatch | src/utils/metadataExtractor.js:93 | "2k budget" has no Indian-unit match |
| ExtractorExamples.ThousandsWesternMatch | src/utils/metadataExtractor.js:106 | "2k budget" matches 2 with the unit "k" |
| ExtractorExamples.YearsExample | src/utils/metadataExtractor.js:194-195 | "2 years" gives 24 months |
| ExtractorExamples.WeeksExample | src/utils/metadataExtractor.js:192-193 | "3 weeks" gives 1 month |
| ExtractorExamples.DaysExample | src/utils/metadataExtractor.js:196-197 | "10 days" gives 1 month |
| ExtractorExamples.AsapExample | src/utils/metadataExtractor.js:202-203 | "asap" gives 1 month |
| ExtractorExamples.CityExample | src/utils/metadataExtractor.js:63-67 | "new york" gives "New york" |
| Scan.DigitRunEnd | src/utils/metadataExtractor.js:183 | `\d+` read greedily: the run ends at a non-digit or at the end |
| Scan.SkipSpaces | src/utils/metadataExtractor.js:183 | `\s*` read greedily |
| Scan.NumberAt | src/utils/metadataExtractor.js:93 | the greedy number ends after its start; without a fraction it is the integer of its digits |
| Scan.MatchAt | src/utils/metadataExtractor.js:93 | a match at an index starts at a digit there and names a listed unit |
| Scan.FirstMatchFrom | src/utils/metadataExtractor.js:184 | `match` returns the leftmost match: no match starts earlier |
| Scan.BareNumberAtFirstDigit | src/utils/metadataExtractor.js:121 | a bare number is found if and only if the text has a digit, and no later than the first digit |
| Scan.NoUnitStartsWith | src/utils/metadataExtractor.js:93 | no unit matches where no unit's first character is |
| Scan.TrailingNumberHasNoUnit | src/utils/metadataExtractor.js:93 | a text whose only digits end it has no number-then-unit match |
| Scan.OneDigitRun | src/utils/metadataExtractor.js:121 | when the digits form one run, the leftmost match is the one at its start |
| Dialogue.StageOf | src/models/localAI.js:137-147 | 0 user messages is greeting, 1 initial question, 2-3 information gathering, 4 or more qualification |
| Dialogue.StageMonotone | src/models/localAI.js:137-147 | more user messages never give an earlier stage |
| Dialogue.Text | src/models/localAI.js:184-295 | every greeting names the lead right after its "Hi " or "Hello " |
| Dialogue.SiteVisitQuotesFigures | src/models/localAI.js:213 | the site-visit question contains `${budget}L and timeline of ${timeline} months` |
| Dialogue.UnitBudget | src/models/localAI.js:300-313 | a lakh amount is used as it is, else a crore amount times 100, else none |
| Dialogue.UnitTimeline | src/models/localAI.js:318-336 | a month count first, else a year count times 12, else 1 for an immediate phrase, else none |
| Dialogue.CroreExample | src/models/localAI.js:300-313 | "1.5 crore" gives 150 lakhs |
| Dialogue.CroreNoLakh | src/models/localAI.js:302 | "1.5 crore" has no lakh match |
| Dialogue.CroreMatch | src/models/localAI.js:307 | "1.5 crore" matches 1.5 with the unit "cr" |
| Dialogue.EstateRule | src/models/localAI.js:184-230 | the real-estate chain greets exactly at the greeting stage |
| Dialogue.EstateReply | src/models/localAI.js:167-231 | with budget and timeline read from the latest message, the real-estate reply greets exactly at the greeting stage, and offers the site visit, quoting the property type, location, budget and timeline, exactly when the stage is past the first question and all five are known |
| Dialogue.SiteVisitNeedsAllFive | src/models/localAI.js:208-214 | the site visit is offered if and only if the stage is past the first question and location, property type, purpose, budget and timeline are all known |
| Dialogue.SiteVisitQuotesFields | src/models/localAI.js:212-213 | the site visit quotes the property type, location, budget and timeline it was given |
| Dialogue.DefaultsOnlyWhenNoFieldRule | src/models/localAI.js:196-230 | the intent replies and the fallback are reached if and only if no stage or field rule applies; buy is chosen by the buy intent |
| Dialogue.SoftwareReply | src/models/localAI.js:236-272 | the software fallback is unreachable; greets exactly at the greeting stage; the four history questions are exactly the information-gathering replies |
| Dialogue.LowerAppend | src/models/localAI.js:249 | lower-casing distributes over concatenation |
| Dialogue.LowerPartContains | src/models/localAI.js:251 | a lower-cased whole contains what its lower-cased part contains |
| Dialogue.GreetingMentionsSolution | src/models/localAI.js:239 | the lower-cased software greeting contains "software solution" |
| Dialogue.RestMentionsSolution | src/models/localAI.js:239 | the fixed part of the software greeting contains "software solution" |
| Dialogue.ChallengesMentioned | src/models/localAI.js:243 | the lower-cased challenges question contains "challenges" |
| Dialogue.PieceMentions | src/models/localAI.js:251 | a text that begins with a lower-case phrase contains it once lower-cased |
| Dialogue.BotMessageSays | src/models/localAI.js:247-251 | a bot message containing a phrase makes the bot history say it |
| Dialogue.BotTextPresent | src/models/localAI.js:247-249 | every bot message's text is among the filtered bot texts |
| Dialogue.GreetingShadowsLaterQuestions | src/models/localAI.js:246-263 | once the software greeting is in the history, information gathering asks only about the current solution or the timeline |
| Dialogue.ChallengesQuestionRepeats | src/models/localAI.js:251-252 | once the challenges question is in the history, information gathering always asks about the current solution |
| Dialogue.GenericReply | src/models/localAI.js:277-295 | the generic fallback is unreachable; greets exactly at the greeting stage |
| Dialogue.RuleReply | src/models/localAI.js:153-160 | the reply is the real-estate, software or generic rule for the stage of the conversation |
| Dialogue.GreetsOnlyFirst | src/models/localAI.js:184-186 | every industry greets if and only if the conversation has no user message |
| Dialogue.UserTurnNeverGreets | src/services/chatService.js:84-98 | the reply to a user message, already appended, is never a greeting |
| Dialogue.OpeningGreeting | src/models/localAI.js:341-349 | the opening message starts with "Hi " and names the lead right after it |
| Dialogue.SoftwareOpeningIsGreeting | src/models/localAI.js:345 | the software opening is word for word the software greeting of the reply rules (src/models/localAI.js:239) |
| Dialogue.OpeningsDiffer | src/models/localAI.js:341-349 | the template is chosen by the industry id alone: real estate, software and every other industry open with three different messages, and all other industries share one |
| Decimals.Pow10Add | src/utils/metadataExtractor.js:116 | powers of ten multiply by adding exponents |
| Decimals.FromNat | src/models/classifier.js:169 | a whole number as a decimal keeps its value |
| Decimals.TruthyIsPositive | src/models/classifier.js:110 | a budget is truthy if and only if it is above 0 |
| Decimals.TimesPow10 | src/utils/metadataExtractor.js:101 | multiplication by a power of ten, exactly |
| Decimals.DivPow10 | src/utils/metadataExtractor.js:112 | division by a power of ten, exactly |
| Decimals.Normalize | src/models/classifier.js:113 | dropping trailing fraction zeros leaves no trailing zero |
| Decimals.NormalizeValue | src/models/classifier.js:113 | dropping trailing fraction zeros keeps the value |
| Decimals.RenderWhole | src/models/classifier.js:113 | a whole-number budget renders as its digits |
| Decimals.RenderFraction | src/models/classifier.js:113 | a budget with a fraction renders with the point before its fraction digits |
| Strings.Lower | src/utils/metadataExtractor.js:11 | `toLowerCase` keeps the length and lower-cases each character |
| Strings.IndexFrom | src/utils/metadataExtractor.js:51 | the least index where the pattern occurs, or -1 |
| Strings.ContainsTransitive | src/utils/metadataExtractor.js:326 | a text containing a phrase contains every phrase inside it |
| Strings.FirstAt | src/utils/metadataExtractor.js:183 | the first alternative, in list order, that occurs at an index |
| Strings.FirstMarkerFrom | src/utils/metadataExtractor.js:52 | the leftmost index where a marker occurs |
| Strings.SecondSplitPart | src/utils/metadataExtractor.js:52-53 | the second part of a split exists if and only if a marker occurs |
| Strings.DropLeadingNonWord | src/utils/metadataExtractor.js:54 | removes exactly the leading run of non-word characters |
| Strings.DropTrailingNonWord | src/utils/metadataExtractor.js:54 | removes exactly the trailing run of non-word characters |
| Strings.StripNonWord | src/utils/metadataExtractor.js:54 | the result starts and ends with a word character, and is empty only when the text has none |
| Strings.ContainsJoined | src/utils/metadataExtractor.js:277 | the joined text contains what any of its parts contains |
| Strings.LowerJoin | src/utils/metadataExtractor.js:277 | lower-casing the joined text is joining the lower-cased parts |
| Strings.NatToString | src/models/classifier.js:127 | `String(n)` is a non-empty run of digits |
| Strings.NatToStringRoundTrip | src/models/classifier.js:127 | reading back `String(n)` gives n |
| Strings.Utf16Length | src/models/classifier.js:61 | `length` in UTF-16 code units: between the character count and twice it, and equal to it exactly when no character is outside the Basic Multilingual Plane |
| Strings.Utf16LengthAppend | src/models/classifier.js:92 | the code-unit length of a concatenation is the sum of the lengths |
| Strings.Utf16LengthLower | src/models/classifier.js:83 | lower-casing keeps the code-unit length |
| Strings.Capitalize | src/utils/metadataExtractor.js:67 | only the first character is upper-cased |
| Leads.TextsFromAppend | src/services/chatService.js:149 | appending a message adds its text to its own sender's list only |
| Chat.OrDefault | src/services/chatService.js:19 | `x \|\| fallback`: a truthy text is kept, anything else falls back |
| Chat.LeadOf | src/services/chatService.js:29-34 | the lead keeps its name and initial message; a missing or empty phone is "Not provided" and a missing or empty source is "Direct" |
| Chat.RecordOf | src/services/chatService.js:280-294 | the record holds the conversation id, the lead, the industry id, the verdict's status, confidence and reasons, the metadata and the whole transcript |
| Chat.ServiceBudget | src/services/chatService.js:326-352 | lakh and crore amounts first; otherwise, with budget, afford or spending, a bare number, divided by 100000 above 100000 |
| Chat.ServiceTimeline | src/services/chatService.js:357-391 | months, years and immediate phrases first; then next month gives 1, a few months 3, and the end of the year the months left |
| Chat.IntentOf | src/services/chatService.js:174-182 | intent.buy, intent.rent and intent.browse map to buy, rent and browsing; other labels leave the intent unchanged |
| Chat.MergeTurn | src/services/chatService.js:142-196 | merging a turn never erases a field, writes every truthy location, property type and purpose entity and every truthy budget and timeline read from the message, and leaves company size and decision maker as they were |
| Chat.MergeNeverErases | src/services/chatService.js:160-193 | the merge never erases a field; a field changes only to a truthy value from this turn, and every truthy value from this turn is written; the intent is mapped; company size and decision maker are never touched |
| Chat.MergeKeepsTruthy | src/services/chatService.js:160-193 | merging keeps every present field truthy |
| Chat.MergeIdempotent | src/services/chatService.js:160-193 | merging the same turn twice changes nothing more |
| Chat.ShouldClassify | src/services/chatService.js:201-228 | false under four user messages; then real estate needs (location or budget) and (timeline or property type), software needs budget and timeline, other industries more than 5 minutes |
| Chat.Conversation.constructor | src/services/chatService.js:26-41 | a new conversation is active with no messages and empty metadata |
| Chat.ClassificationLog.constructor | src/services/chatService.js:269 | a fresh classifications file holds no record |
| Chat.ClassificationLog.Append | src/services/chatService.js:297-301 | pushing a record appends it at the end and keeps every earlier record |
| Chat.ChatService.constructor | src/services/chatService.js:9 | the store starts empty and saves its records to the given classifications file |
| Chat.ChatService.AddMessage | src/services/chatService.js:118-137 | appends exactly one message with the given sender and text at the end; nothing else changes; an unknown id is an error |
| Chat.ChatService.UpdateMetadata | src/services/chatService.js:142-196 | merges the latest user message into the metadata; with no user message the metadata is kept; an unknown id is an error |
| Chat.ChatService.FinalizeConversation | src/services/chatService.js:233-254 | stores the classifier's verdict, marks the conversation classified, and appends its record (verdict, lead, metadata, whole transcript) to the classifications file, without a status guard; an unknown id is an error that saves nothing |
| Chat.ChatService.SaveClassification | src/services/chatService.js:259-307 | appends exactly the conversation's record, built from its stored verdict, to the classifications file |
| Chat.ChatService.ValidAfterSlotChange | src/services/chatService.js:9 | the store stays valid when only one conversation changed and it is valid |
| Chat.ChatService.RecordUserMessage | src/services/chatService.js:84-87 | appends the user message and merges the metadata with it |
| Chat.ChatService.ProcessUserMessage | src/services/chatService.js:69-113 | unknown id or another socket is refused with nothing changed; otherwise the user message and then the bot reply are appended, the metadata is merged, and the lead is classified exactly when the rule says so, judged before the reply; a classified turn saves one record with the merged metadata and the transcript ending in the bot reply, and any other turn saves nothing |
| Chat.ChatService.Respond | src/services/chatService.js:89-112 | decides on classifying first, appends the bot reply, and finalizes exactly when so decided, saving then one record whose transcript ends in that reply; otherwise nothing is saved |
| Chat.ChatService.OpenConversation | src/services/chatService.js:25-50 | stores a new active, unclassified conversation whose only message is the industry greeting |
| Chat.ChatService.ProcessInitialMessage | src/services/chatService.js:52-58 | processing the initial message appends it and then a reply; the first user message never classifies, so the status is kept and nothing is saved |
| Chat.ChatService.InitializeConversation | src/services/chatService.js:14-64 | a missing configuration is an error with nothing stored and nothing saved; otherwise one new conversation is stored that opens with the greeting, followed by the initial message and a reply when one was given, and with no metadata when none was; a new conversation is active and unclassified, and nothing is saved |

## Left out

- NLP training and `processWithNLP` (node-nlp): the intent label and entities of a message are an input, `NlpResult`.
- The LangChain prompt pipeline of `generateResponse`: the model calls the rule function directly. The catch branch's apology reply cannot arise in the model, because the rule function cannot fail here.
- File I/O in `saveClassification`: the classifications file is the `ClassificationLog` held by the service, as its sequence of records. Creating the data directory, a file that cannot be read or parsed (which the source replaces by an empty list), and a failed write are not modelled, and neither is the record's timestamp.
- Identifiers, time and the clock: the conversation id, message ids and timestamps are not modelled. `startTime` and `lastUpdateTime` are not modelled. The current month (`MonthIndex`, 0 for January) and the elapsed minutes are parameters.
- The industry configuration lookup is a map parameter (`configs`). Only `id`, `name` and `qualifyingAreas` are kept.
- `getConversation` and `getAllConversations`: these hand out the live objects and add no logic.
- Concurrency and `async`/`await`: each operation runs to completion, one after another.
- Floating point: budgets are exact decimals. `parseFloat`, the conversions and `String(x)` are exact here, where the source rounds in binary. For example `parseFloat("1.1") * 100` is 110.00000000000001 in JavaScript (src/services/chatService.js:335, src/models/localAI.js:309, src/utils/metadataExtractor.js:101): for "1.1 crore" the source renders "Clear budget: 110.00000000000001" (src/models/classifier.js:113) and quotes a budget of "110.00000000000001L" (src/models/localAI.js:213), where the model gives 110. Exponent notation for very large or very small numbers is not modelled. `toFixed(2)` is modelled as rounding half up on the reals (`Round2`); it only ever sees 0 and 1.
- Unicode case mapping: `toLowerCase` and `toUpperCase` act on ASCII letters only.
- Length and regular expressions: `length` is counted in UTF-16 code units (`Utf16Length`); the regular expressions are matched character by character. The two agree here, because no pattern of the core matches a character outside the Basic Multilingual Plane.
- Classifier.DecisionAuthority: `decisionMaker === 'yes'` is dropped, because the field only ever holds a boolean.
- `isLookingFor` in `generateRealEstateResponse` is computed but never used, so it is not modelled.
- Chat.ChatService.ProcessUserMessage: the real-NLP call inside `updateMetadata` and `generateResponse` is replaced by one `NlpResult` for the turn, the same for both calls.
- Chat.ChatService.RecordUserMessage, Respond, OpenConversation and ProcessInitialMessage are named halves of `processUserMessage` and `initializeConversation`. The split keeps each proof small; behaviour and order are unchanged.
- Chat.ChatService.InitializeConversation: for a turn on the initial message, its contract states only the shape (the user message, then one reply). `ProcessUserMessage` states the full turn.
- Extractor.ExtractMetadata: this function is not called from the service; it is modelled as the standalone extractor it is.
- Extractor.TimelinePhrase: `12 - currentMonth + 1` is stated as `12 - monthIndex`, the same number.

### Notes on the code's behaviour

- For real estate, the comment in `shouldClassifyLead` (src/services/chatService.js:211) asks for a location, a budget, and a timeline or property type. The code (src/services/chatService.js:213) accepts a location or a budget. `ShouldClassify` follows the code.
- There is no guard against finalizing twice. A conversation that is already classified is classified again whenever `shouldClassifyLead` holds, and another record is saved each time (`FinalizeConversation`).
- An Invalid lead can have no reasons: "!" is treated as gibberish only by the `length < 2` test, which the reasons list does not repeat (`InvalidWithoutReasons`).
- The software greeting contains "software solutions". So once it is in the history, information gathering never reaches the budget or decision-maker questions (`GreetingShadowsLaterQuestions`).
- The real-estate rules take the entities of the latest message only, and read budget and timeline from that message alone, not from the stored metadata. `EstateReply` passes them to the rule chain `EstateRule`, on which the rule lemmas are stated.
