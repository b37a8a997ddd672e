/**
 * The conversation store and the turn orchestration of the chat service. A
 * `ChatService` holds the conversations by id; a `Conversation` is updated in
 * place by appending messages, merging metadata and recording the final
 * classification. The identifiers, the clock, the NLP component and the
 * industry configuration lookup are parameters.
 */
module Chat {
  import opened Options
  import opened Strings
  import opened Decimals
  import opened Scan
  import opened Leads
  import Extractor
  import Classifier
  import Dialogue

  // ---------------------------------------------------------------- values

  /** The lead as stored on the conversation. */
  datatype Lead = Lead(name: string, phone: string, source: string, initialMessage: Option<string>)

  /** The lead data a conversation is started with; `None` stands for a missing property. */
  datatype LeadData = LeadData(
    name: string, phone: Option<string>, source: Option<string>, industry: Option<string>,
    initialMessage: Option<string>)

  datatype ConversationStatus = Active | Classified

  datatype Error =
    | IndustryNotFound(requested: Option<string>)
    | ConversationNotFound(conversationId: string)
    | Unauthorized

  datatype Result<T> = Ok(value: T) | Err(error: Error)

  /** What `initializeConversation` returns. */
  datatype Started = Started(conversationId: string, greeting: string)

  /** What `processUserMessage` returns. */
  datatype Turn = Turn(botResponse: string, classification: Option<Classifier.Classification>)

  /** The record `saveClassification` appends to the classifications file. */
  datatype ClassificationRecord = ClassificationRecord(
    id: string, lead: Lead, industry: string, status: Classifier.Status, confidence: real,
    reasons: seq<string>, metadata: Metadata, transcript: seq<Message>)

  /** `leadData.x || fallback` on an optional text. */
  function OrDefault(o: Option<string>, fallback: string): (r: string)
    ensures TruthyText(o) ==> r == o.value
    ensures !TruthyText(o) ==> r == fallback
  {
    if TruthyText(o) then o.value else fallback
  }

  /** The stored lead: a missing or empty phone is "Not provided", a missing or empty source is "Direct". */
  function LeadOf(data: LeadData): (r: Lead)
    ensures r.name == data.name && r.initialMessage == data.initialMessage
    ensures r.phone == (if TruthyText(data.phone) then data.phone.value else "Not provided")
    ensures r.source == (if TruthyText(data.source) then data.source.value else "Direct")
  {
    Lead(data.name, OrDefault(data.phone, "Not provided"), OrDefault(data.source, "Direct"), data.initialMessage)
  }

  /** The transcript and classification of a finalized conversation, as saved. */
  function RecordOf(id: string, lead: Lead, industry: IndustryConfig, classification: Classifier.Classification,
                    metadata: Metadata, messages: seq<Message>): (r: ClassificationRecord)
    ensures r.id == id && r.lead == lead && r.industry == industry.id && r.metadata == metadata
    ensures r.status == classification.status && r.confidence == classification.confidence
    ensures r.reasons == classification.reasons
    ensures r.transcript == messages
  {
    ClassificationRecord(id, lead, industry.id, classification.status, classification.confidence,
                         classification.reasons, metadata, messages)
  }

  // ---------------------------------------------------------------- budget and timeline of the service

  const BudgetWords: seq<string> := ["budget", "afford", "spending"]

  /**
   * The service's `extractBudget`, on the lower-cased message: the lakh and
   * crore amounts of the dialogue policy first; then, in a message about the
   * budget, the first number, read as raw currency when above 100000.
   */
  function ServiceBudget(message: string): (r: Option<Decimal>)
    ensures Dialogue.UnitBudget(message).Some? ==> r == Dialogue.UnitBudget(message)
    ensures Dialogue.UnitBudget(message).None? ==>
      (r.Some? <==> Dialogue.SaysAny(message, BudgetWords) && exists i :: 0 <= i < |message| && IsDigit(message[i]))
    ensures Dialogue.UnitBudget(message).None? && r.Some? ==>
      FirstMatch(message, BareNumber, true).Some? &&
      var n := FirstMatch(message, BareNumber, true).value.value;
      (Value(n) > 100000.0 ==> Value(r.value) == Value(n) / 100000.0) && (Value(n) <= 100000.0 ==> r.value == n)
  {
    BareNumberAtFirstDigit(message, true);
    match Dialogue.UnitBudget(message)
    case Some(b) => Some(b)
    case None =>
      if Dialogue.SaysAny(message, BudgetWords) then
        match FirstMatch(message, BareNumber, true)
        case Some(m) => Some(Extractor.RawOrLakhs(m.value))
        case None => None
      else None
  }

  const NextMonthWords: seq<string> := ["next month", "within a month"]
  const FewMonthsWords: seq<string> := ["few months", "couple of months"]
  const YearEndWords: seq<string> := ["end of year", "by december"]

  /**
   * The service's `extractTimeline`, on the lower-cased message: the months,
   * years and immediate rules of the dialogue policy first; then 1 for next
   * month, 3 for a few months, and the months left in the year for the end of
   * the year, counting the current month (`monthIndex` is 0 for January).
   */
  function ServiceTimeline(message: string, monthIndex: Extractor.MonthIndex): (r: Option<nat>)
    ensures Dialogue.UnitTimeline(message).Some? ==> r == Dialogue.UnitTimeline(message)
    ensures Dialogue.UnitTimeline(message).None? ==>
      var next, few, yearEnd :=
        Dialogue.SaysAny(message, NextMonthWords), Dialogue.SaysAny(message, FewMonthsWords),
        Dialogue.SaysAny(message, YearEndWords);
      && (next ==> r == Some(1))
      && (!next && few ==> r == Some(3))
      && (!next && !few && yearEnd ==> r == Some(12 - monthIndex) && 1 <= r.value <= 12)
      && (r.None? <==> !next && !few && !yearEnd)
  {
    match Dialogue.UnitTimeline(message)
    case Some(n) => Some(n)
    case None =>
      if Dialogue.SaysAny(message, NextMonthWords) then Some(1)
      else if Dialogue.SaysAny(message, FewMonthsWords) then Some(3)
      else if Dialogue.SaysAny(message, YearEndWords) then
        var remaining := 12 - monthIndex;
        Some(if remaining > 0 then remaining else 1)
      else None
  }

  // ---------------------------------------------------------------- metadata merge

  /** The NLP intent label as a metadata intent; any other label keeps the old one. */
  function IntentOf(intentLabel: Option<string>, previous: Option<string>): (r: Option<string>)
    ensures intentLabel == Some("intent.buy") ==> r == Some("buy")
    ensures intentLabel == Some("intent.rent") ==> r == Some("rent")
    ensures intentLabel == Some("intent.browse") ==> r == Some("browsing")
    ensures intentLabel !in {Some("intent.buy"), Some("intent.rent"), Some("intent.browse")} ==> r == previous
  {
    if intentLabel == Some("intent.buy") then Some("buy")
    else if intentLabel == Some("intent.rent") then Some("rent")
    else if intentLabel == Some("intent.browse") then Some("browsing")
    else previous
  }

  /** `if (value) field = value`: a truthy new text replaces the old one. */
  function MergeText(previous: Option<string>, given: Option<string>): Option<string> {
    if TruthyText(given) then given else previous
  }

  /**
   * The metadata update of `updateMetadata` for the latest user message: the
   * NLP entities and intent, and the service's budget and timeline of the
   * lower-cased message, each written only when truthy.
   */
  function MergeTurn(m: Metadata, nlp: NlpResult, latest: string, monthIndex: Extractor.MonthIndex): (r: Metadata)
    ensures NoneErased(m, r)
    ensures r.companySize == m.companySize && r.decisionMaker == m.decisionMaker
    ensures TruthyText(nlp.location) ==> r.location == nlp.location
    ensures TruthyText(nlp.propertyType) ==> r.propertyType == nlp.propertyType
    ensures TruthyText(nlp.purpose) ==> r.purpose == nlp.purpose
    ensures TruthyAmount(ServiceBudget(Lower(latest))) ==> r.budget == ServiceBudget(Lower(latest))
    ensures TruthyCount(ServiceTimeline(Lower(latest), monthIndex)) ==> r.timeline == ServiceTimeline(Lower(latest), monthIndex)
  {
    var lower := Lower(latest);
    var budget, timeline := ServiceBudget(lower), ServiceTimeline(lower, monthIndex);
    m.(location := MergeText(m.location, nlp.location),
       propertyType := MergeText(m.propertyType, nlp.propertyType),
       purpose := MergeText(m.purpose, nlp.purpose),
       intent := IntentOf(nlp.intent, m.intent),
       budget := if TruthyAmount(budget) then budget else m.budget,
       timeline := if TruthyCount(timeline) then timeline else m.timeline)
  }

  /** Every field present in `m` is present in `n`. */
  predicate NoneErased(m: Metadata, n: Metadata) {
    && (m.location.Some? ==> n.location.Some?)
    && (m.budget.Some? ==> n.budget.Some?)
    && (m.propertyType.Some? ==> n.propertyType.Some?)
    && (m.timeline.Some? ==> n.timeline.Some?)
    && (m.purpose.Some? ==> n.purpose.Some?)
    && (m.intent.Some? ==> n.intent.Some?)
    && (m.companySize.Some? ==> n.companySize.Some?)
    && (m.decisionMaker.Some? ==> n.decisionMaker.Some?)
  }

  /** Every field that is present is truthy, and the fields the service never writes are missing. */
  predicate Truthy(m: Metadata) {
    && (m.location.Some? ==> TruthyText(m.location))
    && (m.budget.Some? ==> TruthyAmount(m.budget))
    && (m.propertyType.Some? ==> TruthyText(m.propertyType))
    && (m.timeline.Some? ==> TruthyCount(m.timeline))
    && (m.purpose.Some? ==> TruthyText(m.purpose))
    && m.companySize.None? && m.decisionMaker.None?
  }

  /**
   * The merge never erases a field, changes a field exactly when this turn
   * gives it a truthy value (the NLP entity or the amount read from the
   * message) that differs, maps the intent, and leaves the company size and
   * decision maker alone.
   */
  lemma MergeNeverErases(m: Metadata, nlp: NlpResult, latest: string, monthIndex: Extractor.MonthIndex)
    ensures var n := MergeTurn(m, nlp, latest, monthIndex);
      && NoneErased(m, n)
      && (n.location != m.location ==> TruthyText(n.location) && n.location == nlp.location)
      && (n.propertyType != m.propertyType ==> TruthyText(n.propertyType) && n.propertyType == nlp.propertyType)
      && (n.purpose != m.purpose ==> TruthyText(n.purpose) && n.purpose == nlp.purpose)
      && (n.budget != m.budget ==> TruthyAmount(n.budget) && n.budget == ServiceBudget(Lower(latest)))
      && (n.timeline != m.timeline ==> TruthyCount(n.timeline) && n.timeline == ServiceTimeline(Lower(latest), monthIndex))
      && (TruthyText(nlp.location) ==> n.location == nlp.location)
      && (TruthyText(nlp.propertyType) ==> n.propertyType == nlp.propertyType)
      && (TruthyText(nlp.purpose) ==> n.purpose == nlp.purpose)
      && (TruthyAmount(ServiceBudget(Lower(latest))) ==> n.budget == ServiceBudget(Lower(latest)))
      && (TruthyCount(ServiceTimeline(Lower(latest), monthIndex)) ==> n.timeline == ServiceTimeline(Lower(latest), monthIndex))
      && n.intent == IntentOf(nlp.intent, m.intent)
      && n.companySize == m.companySize && n.decisionMaker == m.decisionMaker
  {
  }

  /** Merging keeps every present field truthy. */
  lemma MergeKeepsTruthy(m: Metadata, nlp: NlpResult, latest: string, monthIndex: Extractor.MonthIndex)
    requires Truthy(m)
    ensures Truthy(MergeTurn(m, nlp, latest, monthIndex))
  {
  }

  /** Merging the same turn twice changes nothing more. */
  lemma MergeIdempotent(m: Metadata, nlp: NlpResult, latest: string, monthIndex: Extractor.MonthIndex)
    ensures MergeTurn(MergeTurn(m, nlp, latest, monthIndex), nlp, latest, monthIndex) == MergeTurn(m, nlp, latest, monthIndex)
  {
  }

  // ---------------------------------------------------------------- when to classify

  /**
   * `shouldClassifyLead`: never before four user messages; then real estate
   * needs a location or budget and a timeline or property type, software a
   * budget and a timeline, and other industries more than five minutes.
   */
  function ShouldClassify(messages: seq<Message>, m: Metadata, industryId: string, elapsedMinutes: real): (r: bool)
    ensures |UserTexts(messages)| < 4 ==> !r
    ensures |UserTexts(messages)| >= 4 && industryId == RealEstateId ==>
      (r <==> (TruthyText(m.location) || TruthyAmount(m.budget)) && (TruthyCount(m.timeline) || TruthyText(m.propertyType)))
    ensures |UserTexts(messages)| >= 4 && industryId == SoftwareId ==>
      (r <==> TruthyAmount(m.budget) && TruthyCount(m.timeline))
    ensures |UserTexts(messages)| >= 4 && industryId != RealEstateId && industryId != SoftwareId ==>
      (r <==> elapsedMinutes > 5.0)
  {
    var users := UserTexts(messages);
    if |users| >= 4 then
      if industryId == RealEstateId then
        (TruthyText(m.location) || TruthyAmount(m.budget)) && (TruthyCount(m.timeline) || TruthyText(m.propertyType))
      else if industryId == SoftwareId then
        TruthyAmount(m.budget) && TruthyCount(m.timeline)
      else
        |users| >= 3 && elapsedMinutes > 5.0
    else
      false
  }

  // ---------------------------------------------------------------- the store

  class Conversation {
    const id: string
    const socketId: string
    const lead: Lead
    const industry: IndustryConfig
    var messages: seq<Message>
    var metadata: Metadata
    var status: ConversationStatus
    var classification: Option<Classifier.Classification>

    /** A new conversation: active, with no messages and empty metadata. */
    constructor (id: string, socketId: string, lead: Lead, industry: IndustryConfig)
      ensures this.id == id && this.socketId == socketId && this.lead == lead && this.industry == industry
      ensures messages == [] && metadata == NoMetadata && status == Active && classification.None?
    {
      this.id, this.socketId, this.lead, this.industry := id, socketId, lead, industry;
      messages, metadata, status, classification := [], NoMetadata, Active, None;
    }

    /** Opened by the bot, with truthy metadata, and classified only with a classification stored. */
    predicate Valid()
      reads this
    {
      messages != [] && messages[0].sender == Bot
      && Truthy(metadata)
      && (status == Classified ==> classification.Some?)
    }
  }

  /** The classifications file, as the sequence of records it holds. */
  class ClassificationLog {
    var records: seq<ClassificationRecord>

    constructor ()
      ensures records == []
    {
      records := [];
    }

    /** `classifications.push(record)`, then the file is written back. */
    method Append(record: ClassificationRecord)
      modifies this
      ensures records == old(records) + [record]
    {
      records := records + [record];
    }
  }

  class ChatService {
    var conversations: map<string, Conversation>
    /** Where `saveClassification` appends its records. */
    const log: ClassificationLog

    /** Every stored conversation is valid and is stored under its own id, so no two ids share one. */
    predicate Valid()
      reads this, conversations.Values
    {
      forall k :: k in conversations ==> conversations[k].id == k && conversations[k].Valid()
    }

    /** The conversation stored under `conversationId`, as a frame. */
    function Slot(conversationId: string): set<object>
      reads this
    {
      if conversationId in conversations then {conversations[conversationId]} else {}
    }

    constructor (log: ClassificationLog)
      ensures conversations == map[] && this.log == log && Valid()
    {
      conversations := map[];
      this.log := log;
    }

    /** `addMessage`: appends one message at the end of the conversation. */
    method AddMessage(conversationId: string, sender: Sender, text: string) returns (r: Result<Message>)
      modifies Slot(conversationId)
      ensures conversationId !in conversations ==> r == Err(ConversationNotFound(conversationId))
      ensures conversationId in conversations ==>
        var c := conversations[conversationId];
        && r == Ok(Message(sender, text))
        && c.messages == old(c.messages) + [Message(sender, text)]
        && c.metadata == old(c.metadata) && c.status == old(c.status) && c.classification == old(c.classification)
    {
      if conversationId !in conversations {
        return Err(ConversationNotFound(conversationId));
      }
      var c := conversations[conversationId];
      var message := Message(sender, text);
      c.messages := c.messages + [message];
      r := Ok(message);
    }

    /**
     * `updateMetadata`, with the NLP result of the latest user message: the
     * metadata is merged with that message; without user messages it is kept.
     */
    method UpdateMetadata(conversationId: string, nlp: NlpResult, monthIndex: Extractor.MonthIndex)
      returns (r: Result<Metadata>)
      modifies Slot(conversationId)
      ensures conversationId !in conversations ==> r == Err(ConversationNotFound(conversationId))
      ensures conversationId in conversations ==>
        var c := conversations[conversationId];
        var users := UserTexts(c.messages);
        && c.messages == old(c.messages) && c.status == old(c.status) && c.classification == old(c.classification)
        && (users == [] ==> c.metadata == old(c.metadata))
        && (users != [] ==> c.metadata == MergeTurn(old(c.metadata), nlp, users[|users| - 1], monthIndex))
        && r == Ok(c.metadata)
    {
      if conversationId !in conversations {
        return Err(ConversationNotFound(conversationId));
      }
      var c := conversations[conversationId];
      var users := UserTexts(c.messages);
      if users == [] {
        return Ok(c.metadata);
      }
      c.metadata := MergeTurn(c.metadata, nlp, users[|users| - 1], monthIndex);
      r := Ok(c.metadata);
    }

    /**
     * `finalizeConversation`: classifies the lead, marks the conversation
     * classified and saves its record; it may run again.
     */
    method FinalizeConversation(conversationId: string) returns (r: Result<Classifier.Classification>)
      modifies Slot(conversationId), log
      ensures conversationId !in conversations ==>
        r == Err(ConversationNotFound(conversationId)) && log.records == old(log.records)
      ensures conversationId in conversations ==>
        var c := conversations[conversationId];
        var verdict := Classifier.Verdict(c.messages, c.metadata, c.industry.id);
        && c.messages == old(c.messages) && c.metadata == old(c.metadata)
        && r == Ok(verdict) && c.status == Classified && c.classification == Some(verdict)
        && log.records == old(log.records) + [RecordOf(c.id, c.lead, c.industry, verdict, c.metadata, c.messages)]
    {
      if conversationId !in conversations {
        return Err(ConversationNotFound(conversationId));
      }
      var c := conversations[conversationId];
      var classification := Classifier.ClassifyLead(c.messages, c.metadata, c.industry);
      c.status := Classified;
      c.classification := Some(classification);
      SaveClassification(c);
      r := Ok(classification);
    }

    /** `saveClassification`: appends the conversation's record to the classifications file. */
    method SaveClassification(c: Conversation)
      requires c.classification.Some?
      modifies log
      ensures log.records == old(log.records) + [RecordOf(c.id, c.lead, c.industry, c.classification.value, c.metadata, c.messages)]
    {
      log.Append(RecordOf(c.id, c.lead, c.industry, c.classification.value, c.metadata, c.messages));
    }

    /** The store stays valid when only the conversation in one slot changed and it is still valid. */
    twostate lemma ValidAfterSlotChange(conversationId: string)
      requires old(Valid()) && conversationId in conversations && conversations == old(conversations)
      requires conversations[conversationId].Valid()
      requires forall k :: k in conversations && k != conversationId ==> unchanged(conversations[k])
      ensures Valid()
    {
    }

    /** Appends a user message and merges the metadata with it, as the first half of a user turn. */
    method RecordUserMessage(conversationId: string, message: string, nlp: NlpResult, monthIndex: Extractor.MonthIndex)
      requires Valid() && conversationId in conversations
      modifies Slot(conversationId)
      ensures Valid()
      ensures var c := conversations[conversationId];
        && c.messages == old(c.messages) + [Message(User, message)]
        && c.metadata == MergeTurn(old(c.metadata), nlp, message, monthIndex)
        && c.status == old(c.status) && c.classification == old(c.classification)
    {
      var c := conversations[conversationId];
      ghost var before := c.messages;
      var _ := AddMessage(conversationId, User, message);
      TextsFromAppend(before, Message(User, message), User);
      var _ := UpdateMetadata(conversationId, nlp, monthIndex);
      MergeKeepsTruthy(old(c.metadata), nlp, message, monthIndex);
      assert c.messages[0] == old(c.messages)[0];
      ValidAfterSlotChange(conversationId);
    }

    /**
     * `processUserMessage`: refuses an unknown conversation or another socket
     * before changing anything; otherwise appends the user message, merges the
     * metadata, decides whether to classify, appends the bot reply and, when
     * so decided, finalizes the conversation.
     */
    method ProcessUserMessage(socketId: string, conversationId: string, message: string, nlp: NlpResult,
                              monthIndex: Extractor.MonthIndex, elapsedMinutes: real) returns (r: Result<Turn>)
      requires Valid()
      modifies Slot(conversationId), log
      ensures Valid()
      ensures conversationId !in conversations ==>
        r == Err(ConversationNotFound(conversationId)) && log.records == old(log.records)
      ensures conversationId in conversations && conversations[conversationId].socketId != socketId ==>
        r == Err(Unauthorized) && unchanged(conversations[conversationId]) && log.records == old(log.records)
      ensures conversationId in conversations && conversations[conversationId].socketId == socketId ==>
        var c := conversations[conversationId];
        var afterUser := old(c.messages) + [Message(User, message)];
        var merged := MergeTurn(old(c.metadata), nlp, message, monthIndex);
        var reply := Dialogue.Text(Dialogue.RuleReply(c.industry.id, c.lead.name, afterUser, message, nlp));
        var classify := ShouldClassify(afterUser, merged, c.industry.id, elapsedMinutes);
        && r.Ok? && r.value.botResponse == reply
        && c.messages == afterUser + [Message(Bot, reply)]
        && c.metadata == merged
        && (classify ==>
              var verdict := Classifier.Verdict(c.messages, merged, c.industry.id);
              && c.status == Classified && c.classification == Some(verdict) && r.value.classification == Some(verdict)
              && log.records == old(log.records) + [RecordOf(c.id, c.lead, c.industry, verdict, merged, c.messages)])
        && (!classify ==>
              && c.status == old(c.status) && c.classification == old(c.classification) && r.value.classification.None?
              && log.records == old(log.records))
    {
      if conversationId !in conversations {
        return Err(ConversationNotFound(conversationId));
      }
      var c := conversations[conversationId];
      if c.socketId != socketId {
        return Err(Unauthorized);
      }
      RecordUserMessage(conversationId, message, nlp, monthIndex);
      r := Respond(conversationId, message, nlp, elapsedMinutes);
    }

    /**
     * The second half of a user turn: decides whether to classify, appends the
     * bot reply to the conversation and, when so decided, finalizes it.
     */
    method Respond(conversationId: string, message: string, nlp: NlpResult, elapsedMinutes: real) returns (r: Result<Turn>)
      requires Valid() && conversationId in conversations
      modifies Slot(conversationId), log
      ensures Valid()
      ensures var c := conversations[conversationId];
        var reply := Dialogue.Text(Dialogue.RuleReply(c.industry.id, c.lead.name, old(c.messages), message, nlp));
        var classify := ShouldClassify(old(c.messages), old(c.metadata), c.industry.id, elapsedMinutes);
        && r.Ok? && r.value.botResponse == reply
        && c.messages == old(c.messages) + [Message(Bot, reply)]
        && c.metadata == old(c.metadata)
        && (classify ==>
              var verdict := Classifier.Verdict(c.messages, c.metadata, c.industry.id);
              && c.status == Classified && c.classification == Some(verdict) && r.value.classification == Some(verdict)
              && log.records == old(log.records) + [RecordOf(c.id, c.lead, c.industry, verdict, c.metadata, c.messages)])
        && (!classify ==>
              && c.status == old(c.status) && c.classification == old(c.classification) && r.value.classification.None?
              && log.records == old(log.records))
    {
      var c := conversations[conversationId];
      var shouldClassify := ShouldClassify(c.messages, c.metadata, c.industry.id, elapsedMinutes);
      var botResponse := Dialogue.Text(Dialogue.RuleReply(c.industry.id, c.lead.name, c.messages, message, nlp));
      var _ := AddMessage(conversationId, Bot, botResponse);
      var classification := None;
      if shouldClassify {
        var finalized := FinalizeConversation(conversationId);
        classification := Some(finalized.value);
      }
      r := Ok(Turn(botResponse, classification));
      assert c.messages[0] == old(c.messages)[0];
      ValidAfterSlotChange(conversationId);
    }

    /** Stores a new active conversation under `conversationId` and greets the lead in it. */
    method OpenConversation(conversationId: string, socketId: string, lead: Lead, industry: IndustryConfig)
      returns (c: Conversation, greeting: string)
      requires Valid()
      modifies this
      ensures Valid()
      ensures conversations == old(conversations)[conversationId := c]
      ensures fresh(c) && c.id == conversationId && c.socketId == socketId && c.lead == lead && c.industry == industry
      ensures greeting == Dialogue.OpeningGreeting(industry.id, lead.name)
      ensures c.messages == [Message(Bot, greeting)] && c.metadata == NoMetadata && c.status == Active
      ensures c.classification.None?
    {
      c := new Conversation(conversationId, socketId, lead, industry);
      conversations := conversations[conversationId := c];
      greeting := Dialogue.OpeningGreeting(industry.id, lead.name);
      var _ := AddMessage(conversationId, Bot, greeting);
    }

    /**
     * The initial message of a freshly opened conversation, processed as a
     * user turn; the bot reply follows it. With a single user message the lead
     * is never classified, so nothing is saved.
     */
    method ProcessInitialMessage(socketId: string, conversationId: string, message: string, nlp: NlpResult,
                                 monthIndex: Extractor.MonthIndex, elapsedMinutes: real)
      requires Valid() && conversationId in conversations
      requires conversations[conversationId].socketId == socketId
      requires UserTexts(conversations[conversationId].messages) == []
      modifies Slot(conversationId), log
      ensures Valid()
      ensures var c := conversations[conversationId];
        && |c.messages| == |old(c.messages)| + 2
        && c.messages[..|old(c.messages)|] == old(c.messages)
        && c.messages[|old(c.messages)|] == Message(User, message)
        && c.status == old(c.status) && c.classification == old(c.classification)
        && log.records == old(log.records)
    {
      var c := conversations[conversationId];
      TextsFromAppend(c.messages, Message(User, message), User);
      var _ := ProcessUserMessage(socketId, conversationId, message, nlp, monthIndex, elapsedMinutes);
    }

    /**
     * `initializeConversation`, with the new id, the configuration lookup and
     * the inputs of the first user turn as parameters: refuses a missing
     * industry configuration; otherwise stores an active conversation that
     * opens with the industry's greeting and, when the lead came with a
     * non-blank first message, processes it as a user turn.
     */
    method InitializeConversation(conversationId: string, socketId: string, data: LeadData,
                                  configs: map<string, IndustryConfig>, nlp: NlpResult,
                                  monthIndex: Extractor.MonthIndex, elapsedMinutes: real) returns (r: Result<Started>)
      requires Valid()
      modifies this, log
      ensures Valid()
      ensures var key := OrDefault(data.industry, RealEstateId);
        key !in configs ==>
          r == Err(IndustryNotFound(data.industry)) && conversations == old(conversations) && log.records == old(log.records)
      ensures var key := OrDefault(data.industry, RealEstateId);
        key in configs ==>
          && conversations.Keys == old(conversations.Keys) + {conversationId}
          && (forall k :: k in old(conversations) && k != conversationId ==> conversations[k] == old(conversations[k]))
          && var c := conversations[conversationId];
          var greeting := Dialogue.OpeningGreeting(configs[key].id, data.name);
          && fresh(c) && c.industry == configs[key] && c.lead == LeadOf(data) && c.socketId == socketId
          && r == Ok(Started(conversationId, greeting))
          && c.messages[0] == Message(Bot, greeting)
          && c.status == Active && c.classification.None? && log.records == old(log.records)
          && (TruthyText(data.initialMessage) && HasNonSpace(data.initialMessage.value) ==>
                |c.messages| == 3 && c.messages[1] == Message(User, data.initialMessage.value))
          && (!(TruthyText(data.initialMessage) && HasNonSpace(data.initialMessage.value)) ==>
                c.messages == [Message(Bot, greeting)] && c.metadata == NoMetadata)
    {
      var key := OrDefault(data.industry, RealEstateId);
      if key !in configs {
        return Err(IndustryNotFound(data.industry));
      }
      var c, greeting := OpenConversation(conversationId, socketId, LeadOf(data), configs[key]);
      if TruthyText(data.initialMessage) && HasNonSpace(data.initialMessage.value) {
        assert UserTexts(c.messages) == [] by { TextsFromAppend([], Message(Bot, greeting), User); }
        ProcessInitialMessage(socketId, conversationId, data.initialMessage.value, nlp, monthIndex, elapsedMinutes);
        assert conversations[conversationId] == c;
      }
      r := Ok(Started(conversationId, greeting));
    }
  }
}
