/**
 * The proof-of-concept settings store (SummaryPluginPoc/SettingsPlugin.cs):
 * the same topic and length, a four-topic enumeration without Comedy, and a
 * prompt built from the settings alone, with no description file.
 */
module PocSettings {
  import opened Outcomes
  import opened Topics
  import opened PromptText

  /** The topics of this revision, in declaration order. */
  datatype PocTopic = Generic | Development | Marketing | Legal

  /** The four topics of this revision. */
  function AllPocTopics(): set<PocTopic> {
    {PocTopic.Generic, PocTopic.Development, PocTopic.Marketing, PocTopic.Legal}
  }

  /** The enumeration has exactly four values. */
  lemma PocTopicHasFourValues()
    ensures |AllPocTopics()| == 4
    ensures forall p: PocTopic :: p in AllPocTopics()
  {
    assert |{PocTopic.Generic, PocTopic.Development}| == 2;
    assert |{PocTopic.Generic, PocTopic.Development, PocTopic.Marketing}| == 3;
    forall p: PocTopic ensures p in AllPocTopics() {
      match p
      case Generic =>
      case Development =>
      case Marketing =>
      case Legal =>
    }
  }

  /** The topic of the later revisions with the same name. */
  function AsTopic(p: PocTopic): (t: Topic)
    ensures TopicName(t) == PocTopicName(p)
    ensures t != Topic.Comedy
  {
    match p
    case Generic => Topic.Generic
    case Development => Topic.Development
    case Marketing => Topic.Marketing
    case Legal => Topic.Legal
  }

  /** The enum's `ToString()`. */
  function PocTopicName(p: PocTopic): (s: string)
    ensures ' ' !in s
  {
    match p
    case Generic => "Generic"
    case Development => "Development"
    case Marketing => "Marketing"
    case Legal => "Legal"
  }

  /** The name-matching part of `Enum.Parse` for this enumeration; "Comedy" is not a member. */
  function ParsePocTopic(s: string): (r: Option<PocTopic>)
    ensures r.Some? ==> PocTopicName(r.value) == s
    ensures r.None? ==> forall p: PocTopic :: PocTopicName(p) != s
    ensures s == TopicName(Topic.Comedy) ==> r.None?
  {
    if s == "Generic" then Some(PocTopic.Generic)
    else if s == "Development" then Some(PocTopic.Development)
    else if s == "Marketing" then Some(PocTopic.Marketing)
    else if s == "Legal" then Some(PocTopic.Legal)
    else None
  }

  lemma PocTopicNameRoundTrip(p: PocTopic)
    ensures ParsePocTopic(PocTopicName(p)) == Some(p)
  {
  }

  const DefaultTopic := PocTopic.Generic
  const DefaultPromptLength := 10
  const FramingOpening := " Given input can be anything and you need to frame it for "
  const FramingClosing := " only! Summarize the text without any excuses!"

  /**
   * The prompt of this revision: the lead sentence, then an instruction to
   * frame the input for the topic, which names the topic a second time.
   */
  function PocSummaryPrompt(topic: PocTopic, length: int): (r: string)
    ensures LeadSentence(PocTopicName(topic), length) <= r
  {
    LeadSentence(PocTopicName(topic), length) + Framing(PocTopicName(topic))
  }

  /** The instruction after the lead sentence, which names the topic a second time. */
  function Framing(topicName: string): string {
    FramingOpening + topicName + FramingClosing
  }

  /** Reads a prompt of this revision back into its topic and length; both mentions of the topic must agree. */
  function ParsePocPrompt(s: string): Option<(PocTopic, int)> {
    match ParseLead(s)
    case None => None
    case Some((name, length, rest)) =>
      match ParsePocTopic(name)
      case None => None
      case Some(topic) =>
        if rest == Framing(name) then Some((topic, length)) else None
  }

  lemma {:induction false} PocSummaryPromptRoundTrip(topic: PocTopic, length: int)
    ensures ParsePocPrompt(PocSummaryPrompt(topic, length)) == Some((topic, length))
  {
    var name := PocTopicName(topic);
    var rest := Framing(name);
    var s := PocSummaryPrompt(topic, length);
    LeadSentenceRoundTrip(name, length, rest);
    PocTopicNameRoundTrip(topic);
    ReadPocPrompt(s, name, length, rest, topic);
  }

  lemma ReadPocPrompt(s: string, name: string, length: int, rest: string, topic: PocTopic)
    requires ParseLead(s) == Some((name, length, rest))
    requires ParsePocTopic(name) == Some(topic)
    requires rest == Framing(name)
    ensures ParsePocPrompt(s) == Some((topic, length))
  {
  }

  /** The prompt determines the settings it was built from. */
  lemma PocSummaryPromptInjective(t1: PocTopic, n1: int, t2: PocTopic, n2: int)
    requires PocSummaryPrompt(t1, n1) == PocSummaryPrompt(t2, n2)
    ensures t1 == t2 && n1 == n2
  {
    PocSummaryPromptRoundTrip(t1, n1);
    PocSummaryPromptRoundTrip(t2, n2);
  }

  class SettingsPlugin {
    var topic: PocTopic
    var promptLength: int

    constructor ()
      ensures topic == DefaultTopic && promptLength == DefaultPromptLength
    {
      topic := DefaultTopic;
      promptLength := DefaultPromptLength;
    }

    method GetTopic() returns (t: PocTopic)
      ensures t == topic
    {
      t := topic;
    }

    method SetTopic(newTopic: PocTopic)
      modifies this`topic
      ensures topic == newTopic
      ensures promptLength == old(promptLength)
    {
      topic := newTopic;
    }

    method GetPromptLength() returns (n: int)
      ensures n == promptLength
    {
      n := promptLength;
    }

    /** Stores any length, with no validation. */
    method SetPromptLength(newPromptLength: int)
      modifies this`promptLength
      ensures promptLength == newPromptLength
      ensures topic == old(topic)
    {
      promptLength := newPromptLength;
    }

    /** Builds the prompt from the current settings; reads no file and changes nothing. */
    method GetSummaryPrompt() returns (r: string)
      ensures r == PocSummaryPrompt(topic, promptLength)
      ensures ParsePocPrompt(r) == Some((topic, promptLength))
    {
      var t := GetTopic();
      var n := GetPromptLength();
      var again := GetTopic();
      r := LeadSentence(PocTopicName(t), n) + Framing(PocTopicName(again));
      PocSummaryPromptRoundTrip(topic, promptLength);
    }
  }
}
