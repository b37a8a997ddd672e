/**
 * The values every part of the lead engine shares: chat messages, the
 * industry configuration, the extracted metadata, and the NLP result
 * (intent label and entity options) that the chat service and the dialogue
 * policy receive from an external NLP component.
 */
module Leads {
  import opened Options
  import opened Decimals

  datatype Sender = User | Bot

  /** A chat message; its generated id and its timestamp are not modelled. */
  datatype Message = Message(sender: Sender, text: string)

  /** An industry configuration, as loaded from the configuration directory. */
  datatype IndustryConfig = IndustryConfig(id: string, name: string, qualifyingAreas: seq<string>)

  const RealEstateId: string := "real_estate"
  const SoftwareId: string := "software"

  /**
   * The metadata object. Every field may be missing (`None` stands for
   * both `undefined` and `null`). Budgets are in lakhs, timelines in months.
   */
  datatype Metadata = Metadata(
    location: Option<string>,
    budget: Option<Decimal>,
    propertyType: Option<string>,
    timeline: Option<nat>,
    purpose: Option<string>,
    intent: Option<string>,
    companySize: Option<nat>,
    decisionMaker: Option<bool>)

  /** `{}` */
  const NoMetadata: Metadata := Metadata(None, None, None, None, None, None, None, None)

  /** JavaScript truthiness of an optional string: present and not empty. */
  predicate TruthyText(o: Option<string>) {
    o.Some? && o.value != ""
  }

  /** JavaScript truthiness of an optional count: present and not zero. */
  predicate TruthyCount(o: Option<nat>) {
    o.Some? && o.value != 0
  }

  /** JavaScript truthiness of an optional amount: present and not zero. */
  predicate TruthyAmount(o: Option<Decimal>) {
    o.Some? && IsTruthy(o.value)
  }

  /**
   * The output of the NLP component for one message: the intent label
   * (`intent.buy`, `intent.rent`, `intent.browse`, or another) and the
   * `location`, `property_type` and `purpose` entities.
   */
  datatype NlpResult = NlpResult(
    intent: Option<string>,
    location: Option<string>,
    propertyType: Option<string>,
    purpose: Option<string>)

  /** `conversation.filter(msg => msg.sender === sender).map(msg => msg.text)` */
  function TextsFrom(msgs: seq<Message>, sender: Sender): (r: seq<string>)
    ensures |r| <= |msgs|
  {
    if msgs == [] then []
    else
      var last := msgs[|msgs| - 1];
      TextsFrom(msgs[..|msgs| - 1], sender) + (if last.sender == sender then [last.text] else [])
  }

  function UserTexts(msgs: seq<Message>): seq<string> {
    TextsFrom(msgs, User)
  }

  function BotTexts(msgs: seq<Message>): seq<string> {
    TextsFrom(msgs, Bot)
  }

  /** Appending one message adds its text to the filtered list of its sender only. */
  lemma TextsFromAppend(msgs: seq<Message>, m: Message, sender: Sender)
    ensures TextsFrom(msgs + [m], sender)
         == TextsFrom(msgs, sender) + (if m.sender == sender then [m.text] else [])
  {
    assert (msgs + [m])[..|msgs|] == msgs;
  }
}
