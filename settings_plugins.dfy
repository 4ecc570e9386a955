/**
 * The settings store without logging (Plugins/Plugins/SettingsPlugin.cs).
 * It builds the same prompt as the logging revision, but its folder check
 * rejects only a missing `PromptsForTopics` setting: an empty one is passed
 * to `Path.Combine`, which then yields the bare "{topic}.txt".
 */
module PluginsSettings {
  import opened Outcomes
  import opened Host
  import opened Topics
  import M = ModelsSettings

  /** The path of the topic's description file; fails only when the folder setting is null. */
  function TopicFilePath(configuration: Configuration, topic: Topic): (r: Result<string, Error>)
    ensures r.Success? <==> M.PromptsForTopicsKey in configuration
    ensures r.Failure? ==> r.error == NullReference(DefaultNullReferenceMessage)
    ensures r.Success? ==> FileName(r.value) == M.TopicFileName(topic)
    ensures r.Success? && configuration[M.PromptsForTopicsKey] != "" ==> InFolder(r.value, configuration[M.PromptsForTopicsKey])
    ensures r.Success? && configuration[M.PromptsForTopicsKey] == "" ==> r.value == M.TopicFileName(topic)
  {
    match ConfigValue(configuration, M.PromptsForTopicsKey)
    case None => Failure(NullReference(DefaultNullReferenceMessage))
    case Some(folder) => Success(Combine(folder, M.TopicFileName(topic)))
  }

  /** What `GetSummaryPrompt` produces for the given settings, configuration and files. */
  function PromptFor(configuration: Configuration, fs: FileSystem, topic: Topic, length: int): (r: Result<string, Error>)
    ensures TopicFilePath(configuration, topic).Failure? ==> r == Failure(NullReference(DefaultNullReferenceMessage))
    ensures r.Success? <==> TopicFilePath(configuration, topic).Success? && TopicFilePath(configuration, topic).value in fs
    ensures r.Success? ==> M.ParseSummaryPrompt(r.value) == Some((topic, length, fs[TopicFilePath(configuration, topic).value]))
    ensures TopicFilePath(configuration, topic).Success? && r.Failure?
         ==> r.error == FileNotFound(TopicFilePath(configuration, topic).value)
  {
    match TopicFilePath(configuration, topic)
    case Failure(e) => Failure(e)
    case Success(path) =>
      match ReadAllText(fs, path)
      case Failure(e) => Failure(e)
      case Success(description) =>
        M.SummaryPromptRoundTrip(topic, length, description);
        Success(M.SummaryPrompt(topic, length, description))
  }

  /** With a non-empty folder setting the two revisions build the same prompt from the same file. */
  lemma RevisionsAgreeOnNonEmptyFolder(configuration: Configuration, fs: FileSystem, topic: Topic, length: int)
    requires M.PromptsForTopicsKey in configuration && configuration[M.PromptsForTopicsKey] != ""
    ensures PromptFor(configuration, fs, topic, length) == M.PromptFor(configuration, fs, topic, length)
  {
  }

  /** With an empty folder setting the logging revision fails before reading, while this one reads "{topic}.txt". */
  lemma RevisionsDifferOnEmptyFolder(configuration: Configuration, fs: FileSystem, topic: Topic, length: int)
    requires M.PromptsForTopicsKey in configuration && configuration[M.PromptsForTopicsKey] == ""
    ensures M.PromptFor(configuration, fs, topic, length) == Failure(NullReference(M.EmptyFolderMessage))
    ensures PromptFor(configuration, fs, topic, length).Success? <==> M.TopicFileName(topic) in fs
  {
  }

  class SettingsPlugin {
    var topic: Topic
    var promptLength: int
    const configuration: Configuration

    /** The store as constructed once its configuration is known to be non-null. */
    constructor (configuration: Configuration)
      ensures topic == M.DefaultTopic && promptLength == M.DefaultPromptLength
      ensures this.configuration == configuration
    {
      topic := M.DefaultTopic;
      promptLength := M.DefaultPromptLength;
      this.configuration := configuration;
    }

    /** The constructor with its null check on the configuration. */
    static method Create(configuration: Option<Configuration>) returns (r: Result<SettingsPlugin, Error>)
      ensures configuration.None? ==> r == Failure(ArgumentNull("configuration"))
      ensures configuration.Some? ==>
        && r.Success? && fresh(r.value)
        && r.value.topic == M.DefaultTopic && r.value.promptLength == M.DefaultPromptLength
        && r.value.configuration == configuration.value
    {
      if configuration.None? {
        return Failure(ArgumentNull("configuration"));
      }
      var store := new SettingsPlugin(configuration.value);
      r := Success(store);
    }

    method GetTopic() returns (t: Topic)
      ensures t == topic
    {
      t := topic;
    }

    method SetTopic(newTopic: Topic)
      modifies this`topic
      ensures topic == newTopic
      ensures promptLength == old(promptLength)
    {
      topic := newTopic;
    }

    method GetPromptLength() returns (n: int)
      ensures n == promptLength
    {
      n := promptLength;
    }

    /** Stores any length, with no validation. */
    method SetPromptLength(newPromptLength: int)
      modifies this`promptLength
      ensures promptLength == newPromptLength
      ensures topic == old(topic)
    {
      promptLength := newPromptLength;
    }

    method GetSummaryPrompt(fs: FileSystem) returns (r: Result<string, Error>)
      ensures r == PromptFor(configuration, fs, topic, promptLength)
    {
      var path := GetTopicFilePath();
      if path.Failure? {
        return Failure(path.error);
      }
      var description := ReadAllText(fs, path.value);
      if description.Failure? {
        return Failure(description.error);
      }
      var t := GetTopic();
      var n := GetPromptLength();
      r := Success(M.SummaryPrompt(t, n, description.value));
    }

    method GetTopicFilePath() returns (r: Result<string, Error>)
      ensures r == TopicFilePath(configuration, topic)
    {
      var folder := ConfigValue(configuration, M.PromptsForTopicsKey);
      if folder.None? {
        return Failure(NullReference(DefaultNullReferenceMessage));
      }
      var t := GetTopic();
      r := Success(Combine(folder.value, M.TopicFileName(t)));
    }
  }
}
