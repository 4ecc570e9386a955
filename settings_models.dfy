/**
 * The settings store with logging (Plugins/Models/SettingsPlugin.cs): a topic
 * and a prompt length that callers set, and the summary prompt built from
 * them and from the topic's description file.
 */
module ModelsSettings {
  import opened Outcomes
  import opened Host
  import opened Topics
  import opened PromptText

  const DefaultTopic := Generic
  const DefaultPromptLength := 10
  const PromptsForTopicsKey := "PromptsForTopics"
  const DescriptionIntro := "\nUse the following description for the topic:\n"
  const EmptyFolderMessage := "Path for folder 'PromptsForTopics' cannot be empty!"

  /** The file holding a topic's description: "{topic}.txt". */
  function TopicFileName(topic: Topic): (name: string)
    ensures |name| > 0 && Separator !in name
  {
    TopicName(topic) + ".txt"
  }

  /** The prompt: the lead sentence, a line break, the description intro, then the description verbatim. */
  function SummaryPrompt(topic: Topic, length: int, description: string): (r: string)
    ensures LeadSentence(TopicName(topic), length) <= r
    ensures |description| <= |r| && r[|r| - |description|..] == description
  {
    LeadSentence(TopicName(topic), length) + (DescriptionIntro + description)
  }

  /** Reads a summary prompt back into its topic, length and description. */
  function ParseSummaryPrompt(s: string): Option<(Topic, int, string)> {
    match ParseLead(s)
    case None => None
    case Some((name, length, rest)) =>
      match ParseTopic(name)
      case None => None
      case Some(topic) =>
        if DescriptionIntro <= rest then Some((topic, length, rest[|DescriptionIntro|..])) else None
  }

  lemma {:induction false} SummaryPromptRoundTrip(topic: Topic, length: int, description: string)
    ensures ParseSummaryPrompt(SummaryPrompt(topic, length, description)) == Some((topic, length, description))
  {
    var rest := DescriptionIntro + description;
    LeadSentenceRoundTrip(TopicName(topic), length, rest);
    TopicNameRoundTrip(topic);
    assert rest[|DescriptionIntro|..] == description;
    ReadSummaryPrompt(SummaryPrompt(topic, length, description), TopicName(topic), length, rest, topic);
  }

  lemma ReadSummaryPrompt(s: string, name: string, length: int, rest: string, topic: Topic)
    requires ParseLead(s) == Some((name, length, rest))
    requires ParseTopic(name) == Some(topic)
    requires DescriptionIntro <= rest
    ensures ParseSummaryPrompt(s) == Some((topic, length, rest[|DescriptionIntro|..]))
  {
  }

  /** Different settings or descriptions never give the same prompt. */
  lemma SummaryPromptInjective(t1: Topic, n1: int, d1: string, t2: Topic, n2: int, d2: string)
    requires SummaryPrompt(t1, n1, d1) == SummaryPrompt(t2, n2, d2)
    ensures t1 == t2 && n1 == n2 && d1 == d2
  {
    SummaryPromptRoundTrip(t1, n1, d1);
    SummaryPromptRoundTrip(t2, n2, d2);
  }

  /** The prompt for Comedy and 5 words, spelled out. */
  lemma ComedyFiveWords(description: string)
    ensures SummaryPrompt(Comedy, 5, description)
         == "Summarize the above text for the topic Comedy in at most 5 words."
            + "\nUse the following description for the topic:\n" + description
  {
    assert DigitChar(5) == '5';
    assert DecimalString(5) == "5";
    assert LeadSentence("Comedy", 5) == "Summarize the above text for the topic Comedy in at most 5 words.";
  }

  /** The path of the topic's description file; fails when the folder setting is null or empty. */
  function TopicFilePath(configuration: Configuration, topic: Topic): (r: Result<string, Error>)
    ensures r.Success? <==> !IsNullOrEmpty(ConfigValue(configuration, PromptsForTopicsKey))
    ensures r.Failure? ==> r.error == NullReference(EmptyFolderMessage)
    ensures r.Success? ==> InFolder(r.value, configuration[PromptsForTopicsKey])
    ensures r.Success? ==> FileName(r.value) == TopicFileName(topic)
  {
    var folder := ConfigValue(configuration, PromptsForTopicsKey);
    if IsNullOrEmpty(folder) then Failure(NullReference(EmptyFolderMessage))
    else Success(Combine(folder.value, TopicFileName(topic)))
  }

  /** What `GetSummaryPrompt` produces for the given settings, configuration and files. */
  function PromptFor(configuration: Configuration, fs: FileSystem, topic: Topic, length: int): (r: Result<string, Error>)
    ensures TopicFilePath(configuration, topic).Failure? ==> r == Failure(NullReference(EmptyFolderMessage))
    ensures r.Success? <==> TopicFilePath(configuration, topic).Success? && TopicFilePath(configuration, topic).value in fs
    ensures r.Success? ==> ParseSummaryPrompt(r.value) == Some((topic, length, fs[TopicFilePath(configuration, topic).value]))
    ensures TopicFilePath(configuration, topic).Success? && r.Failure?
         ==> r.error == FileNotFound(TopicFilePath(configuration, topic).value)
  {
    match TopicFilePath(configuration, topic)
    case Failure(e) => Failure(e)
    case Success(path) =>
      match ReadAllText(fs, path)
      case Failure(e) => Failure(e)
      case Success(description) =>
        SummaryPromptRoundTrip(topic, length, description);
        Success(SummaryPrompt(topic, length, description))
  }

  /** A logger, which the store only needs to be non-null. */
  type Logger = ()

  class SettingsPlugin {
    var topic: Topic
    var promptLength: int
    const configuration: Configuration

    /** The store as constructed once its arguments are known to be non-null. */
    constructor (configuration: Configuration)
      ensures topic == DefaultTopic && promptLength == DefaultPromptLength
      ensures this.configuration == configuration
    {
      topic := DefaultTopic;
      promptLength := DefaultPromptLength;
      this.configuration := configuration;
    }

    /** The constructor with its null checks: the configuration first, then the logger. */
    static method Create(configuration: Option<Configuration>, logger: Option<Logger>)
      returns (r: Result<SettingsPlugin, Error>)
      ensures configuration.None? ==> r == Failure(ArgumentNull("configuration"))
      ensures configuration.Some? && logger.None? ==> r == Failure(ArgumentNull("logger"))
      ensures configuration.Some? && logger.Some? ==>
        && r.Success? && fresh(r.value)
        && r.value.topic == DefaultTopic && r.value.promptLength == DefaultPromptLength
        && r.value.configuration == configuration.value
    {
      if configuration.None? {
        return Failure(ArgumentNull("configuration"));
      }
      if logger.None? {
        return Failure(ArgumentNull("logger"));
      }
      var store := new SettingsPlugin(configuration.value);
      r := Success(store);
    }

    method GetTopic() returns (t: Topic)
      ensures t == topic
    {
      t := topic;
    }

    method SetTopic(newTopic: Topic)
      modifies this`topic
      ensures topic == newTopic
      ensures promptLength == old(promptLength)
    {
      topic := newTopic;
    }

    method GetPromptLength() returns (n: int)
      ensures n == promptLength
    {
      n := promptLength;
    }

    /** Stores any length, with no validation. */
    method SetPromptLength(newPromptLength: int)
      modifies this`promptLength
      ensures promptLength == newPromptLength
      ensures topic == old(topic)
    {
      promptLength := newPromptLength;
    }

    method GetSummaryPrompt(fs: FileSystem) returns (r: Result<string, Error>)
      ensures r == PromptFor(configuration, fs, topic, promptLength)
    {
      var path := GetTopicFilePath();
      if path.Failure? {
        return Failure(path.error);
      }
      var description := ReadAllText(fs, path.value);
      if description.Failure? {
        return Failure(description.error);
      }
      var t := GetTopic();
      var n := GetPromptLength();
      r := Success(SummaryPrompt(t, n, description.value));
    }

    method GetTopicFilePath() returns (r: Result<string, Error>)
      ensures r == TopicFilePath(configuration, topic)
    {
      var folder := ConfigValue(configuration, PromptsForTopicsKey);
      if IsNullOrEmpty(folder) {
        return Failure(NullReference(EmptyFolderMessage));
      }
      var t := GetTopic();
      r := Success(Combine(folder.value, TopicFileName(t)));
    }
  }
}
