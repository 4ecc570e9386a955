/**
 * The chat service (SemanticKernelService/Services/ChatService.cs): an
 * append-only transcript that opens with the system message, turns that the
 * completion engine answers, and the settings calls it passes on to the
 * settings store registered in the kernel.
 */
module ChatServices {
  import opened Outcomes
  import opened Host
  import opened Topics
  import M = ModelsSettings

  datatype Role = System | User | Assistant | Tool

  /** One entry of the transcript. */
  datatype ChatMessage = ChatMessage(role: Role, content: string)

  /** The sampling temperature sent with a request: 0 for a summary, 0.5 for a regeneration. */
  datatype Temperature = Zero | Half

  /** What the completion engine answers: the author's role and a content that may be null. */
  datatype Reply = Reply(role: Role, content: Option<string>)

  /** The completion engine, consulted with the whole transcript and a temperature; the request itself may throw. */
  type Engine = (seq<ChatMessage>, Temperature) -> Result<Reply, Error>

  const SystemMessageKey := "SystemMessage"
  const EmptySystemMessagePath := "Path for file 'SystemMessage' cannot be empty."
  const RegenerateInstruction := "Regenerate summary for below user prompt: \n"
  const NullResponseMessage := "Response cannot be null!"

  /** The transcript after a call, and what the call returns or throws. */
  datatype Turn = Turn(history: seq<ChatMessage>, result: Result<string, Error>)

  /** The entry recorded for a reply: a null content is recorded as the empty string. */
  function Entry(reply: Reply): ChatMessage {
    ChatMessage(reply.role, reply.content.GetOr(""))
  }

  /**
   * The user turn is appended and the engine answers the transcript so far.
   * A request that throws leaves the user turn without an answer; otherwise
   * the answer is appended before the null check.
   */
  function ResultForPrompt(engine: Engine, h: seq<ChatMessage>, userInput: string, temperature: Temperature): (t: Turn)
    ensures h + [ChatMessage(User, userInput)] <= t.history
    ensures engine(h + [ChatMessage(User, userInput)], temperature).Failure? ==>
      t == Turn(h + [ChatMessage(User, userInput)], Failure(engine(h + [ChatMessage(User, userInput)], temperature).error))
    ensures engine(h + [ChatMessage(User, userInput)], temperature).Success? ==>
      var reply := engine(h + [ChatMessage(User, userInput)], temperature).value;
      && |t.history| == |h| + 2 && t.history[|h| + 1] == Entry(reply)
      && (t.result.Success? <==> reply.content.Some?)
      && (t.result.Success? ==> t.result.value == t.history[|t.history| - 1].content)
      && (t.result.Failure? ==> t.result.error == NullReference(NullResponseMessage))
  {
    var asked := h + [ChatMessage(User, userInput)];
    match engine(asked, temperature)
    case Failure(e) => Turn(asked, Failure(e))
    case Success(reply) =>
      var answered := asked + [Entry(reply)];
      match reply.content
      case None => Turn(answered, Failure(NullReference(NullResponseMessage)))
      case Some(text) => Turn(answered, Success(text))
  }

  /** `GetSummary`: a null or empty input is refused before anything is appended; otherwise two entries are appended. */
  function Summary(engine: Engine, h: seq<ChatMessage>, userInput: Option<string>): (t: Turn)
    ensures IsNullOrEmpty(userInput) ==> t == Turn(h, Failure(ArgumentNull("userInput")))
    ensures !IsNullOrEmpty(userInput) ==>
      var asked := h + [ChatMessage(User, userInput.value)];
      && asked <= t.history
      && (engine(asked, Zero).Failure? ==> t == Turn(asked, Failure(engine(asked, Zero).error)))
      && (engine(asked, Zero).Success? ==>
            && |t.history| == |h| + 2 && t.history[|h| + 1] == Entry(engine(asked, Zero).value)
            && (t.result.Success? <==> engine(asked, Zero).value.content.Some?)
            && (t.result.Success? ==> t.result.value == t.history[|t.history| - 1].content))
  {
    if IsNullOrEmpty(userInput) then Turn(h, Failure(ArgumentNull("userInput")))
    else ResultForPrompt(engine, h, userInput.value, Zero)
  }

  /** `GetRegeneratedSummary`: like a summary, but after the regenerate instruction and at temperature 0.5. */
  function RegeneratedSummary(engine: Engine, h: seq<ChatMessage>, userInput: Option<string>): (t: Turn)
    ensures IsNullOrEmpty(userInput) ==> t == Turn(h, Failure(ArgumentNull("userInput")))
    ensures !IsNullOrEmpty(userInput) ==>
      var asked := h + [ChatMessage(User, RegenerateInstruction), ChatMessage(User, userInput.value)];
      && asked <= t.history
      && (engine(asked, Half).Failure? ==> t == Turn(asked, Failure(engine(asked, Half).error)))
      && (engine(asked, Half).Success? ==>
            && |t.history| == |h| + 3 && t.history[|h| + 2] == Entry(engine(asked, Half).value)
            && (t.result.Success? <==> engine(asked, Half).value.content.Some?)
            && (t.result.Success? ==> t.result.value == t.history[|t.history| - 1].content))
  {
    if IsNullOrEmpty(userInput) then Turn(h, Failure(ArgumentNull("userInput")))
    else
      var instructed := h + [ChatMessage(User, RegenerateInstruction)];
      var t := ResultForPrompt(engine, instructed, userInput.value, Half);
      assert instructed + [ChatMessage(User, userInput.value)]
          == h + [ChatMessage(User, RegenerateInstruction), ChatMessage(User, userInput.value)];
      t
  }

  /** A call a client makes on the transcript. */
  datatype Request = Summarize(input: Option<string>) | Regenerate(input: Option<string>)

  function Serve(engine: Engine, h: seq<ChatMessage>, request: Request): Turn {
    match request
    case Summarize(input) => Summary(engine, h, input)
    case Regenerate(input) => RegeneratedSummary(engine, h, input)
  }

  /** The transcript after serving the requests in order. */
  function Session(engine: Engine, h: seq<ChatMessage>, requests: seq<Request>): seq<ChatMessage>
    decreases |requests|
  {
    if requests == [] then h
    else Session(engine, Serve(engine, h, requests[0]).history, requests[1..])
  }

  /** Whatever is asked, earlier entries are never changed or removed, and each call appends at most three. */
  lemma {:induction false} SessionIsAppendOnly(engine: Engine, h: seq<ChatMessage>, requests: seq<Request>)
    ensures h <= Session(engine, h, requests)
    ensures |Session(engine, h, requests)| <= |h| + 3 * |requests|
    decreases |requests|
  {
    if requests != [] {
      var next := Serve(engine, h, requests[0]).history;
      assert h <= next && |next| <= |h| + 3;
      SessionIsAppendOnly(engine, next, requests[1..]);
      var last := Session(engine, next, requests[1..]);
      assert last[..|h|] == next[..|h|];
    }
  }

  /** The length the store holds after an update through the service: non-positive requests are refused. */
  function UpdatedPromptLength(current: int, requested: int): (r: int)
    ensures requested > 0 ==> r == requested
    ensures requested <= 0 ==> r == current
  {
    if requested <= 0 then current else requested
  }

  /** The length after a series of updates through the service. */
  function LengthAfterUpdates(start: int, requests: seq<int>): int
    decreases |requests|
  {
    if requests == [] then start
    else LengthAfterUpdates(UpdatedPromptLength(start, requests[0]), requests[1..])
  }

  /** Starting from a positive length, such as the default of 10, updates through the service keep it positive; it is the start or one of the requests. */
  lemma {:induction false} ServiceKeepsPromptLengthPositive(start: int, requests: seq<int>)
    requires start > 0
    ensures LengthAfterUpdates(start, requests) > 0
    ensures LengthAfterUpdates(start, requests) == start || LengthAfterUpdates(start, requests) in requests
    decreases |requests|
  {
    if requests != [] {
      ServiceKeepsPromptLengthPositive(UpdatedPromptLength(start, requests[0]), requests[1..]);
    }
  }

  const CompletionServiceType := "IChatCompletionService"

  /** The kernel: the settings store registered as the "Settings" plugin, and the completion engine if one is registered. */
  class Kernel {
    const settings: M.SettingsPlugin
    const completion: Option<Engine>

    constructor (settings: M.SettingsPlugin, completion: Option<Engine>)
      ensures this.settings == settings && this.completion == completion
    {
      this.settings := settings;
      this.completion := completion;
    }
  }

  class ChatService {
    var history: seq<ChatMessage>
    const kernel: Kernel
    const configuration: Configuration
    /** The completion engine taken from the kernel. */
    const engine: Engine

    /** The transcript opens with the system message. */
    ghost predicate Valid()
      reads this
    {
      |history| >= 1 && history[0].role == System
    }

    /** The service as constructed once its arguments are checked and the system message is read. */
    constructor (kernel: Kernel, configuration: Configuration, systemMessage: string, engine: Engine)
      ensures history == [ChatMessage(System, systemMessage)]
      ensures this.kernel == kernel && this.configuration == configuration && this.engine == engine
      ensures Valid()
    {
      this.kernel := kernel;
      this.configuration := configuration;
      this.engine := engine;
      history := [ChatMessage(System, systemMessage)];
    }

    /** The constructor with its checks: kernel, configuration, the system-message path and file, then the completion service. */
    static method Create(kernel: Kernel?, configuration: Option<Configuration>, fs: FileSystem)
      returns (r: Result<ChatService, Error>)
      ensures kernel == null ==> r == Failure(ArgumentNull("kernel"))
      ensures kernel != null && configuration.None? ==> r == Failure(ArgumentNull("configuration"))
      ensures kernel != null && configuration.Some? && IsNullOrEmpty(ConfigValue(configuration.value, SystemMessageKey))
        ==> r == Failure(NullReference(EmptySystemMessagePath))
      ensures kernel != null && configuration.Some? && !IsNullOrEmpty(ConfigValue(configuration.value, SystemMessageKey))
        ==> var path := configuration.value[SystemMessageKey];
            if path !in fs then r == Failure(FileNotFound(path))
            else if kernel.completion.None? then r == Failure(ServiceNotRegistered(CompletionServiceType))
            else && r.Success? && fresh(r.value) && r.value.Valid()
                 && r.value.history == [ChatMessage(System, fs[path])]
                 && r.value.kernel == kernel && r.value.engine == kernel.completion.value
    {
      if kernel == null {
        return Failure(ArgumentNull("kernel"));
      }
      if configuration.None? {
        return Failure(ArgumentNull("configuration"));
      }
      var path := ConfigValue(configuration.value, SystemMessageKey);
      if IsNullOrEmpty(path) {
        return Failure(NullReference(EmptySystemMessagePath));
      }
      var text := ReadAllText(fs, path.value);
      if text.Failure? {
        return Failure(text.error);
      }
      if kernel.completion.None? {
        return Failure(ServiceNotRegistered(CompletionServiceType));
      }
      var service := new ChatService(kernel, configuration.value, text.value, kernel.completion.value);
      r := Success(service);
    }

    method GetSummary(userInput: Option<string>) returns (r: Result<string, Error>)
      requires Valid()
      modifies this`history
      ensures Valid()
      ensures Turn(history, r) == Summary(engine, old(history), userInput)
    {
      if IsNullOrEmpty(userInput) {
        return Failure(ArgumentNull("userInput"));
      }
      r := GetResultForPrompt(userInput.value, Zero);
    }

    method GetRegeneratedSummary(userInput: Option<string>) returns (r: Result<string, Error>)
      requires Valid()
      modifies this`history
      ensures Valid()
      ensures Turn(history, r) == RegeneratedSummary(engine, old(history), userInput)
    {
      if IsNullOrEmpty(userInput) {
        return Failure(ArgumentNull("userInput"));
      }
      history := history + [ChatMessage(User, RegenerateInstruction)];
      r := GetResultForPrompt(userInput.value, Half);
    }

    method GetResultForPrompt(userInput: string, temperature: Temperature) returns (r: Result<string, Error>)
      modifies this`history
      ensures Turn(history, r) == ResultForPrompt(engine, old(history), userInput, temperature)
    {
      history := history + [ChatMessage(User, userInput)];
      var answer := engine(history, temperature);
      if answer.Failure? {
        return Failure(answer.error);
      }
      var reply := answer.value;
      history := history + [Entry(reply)];
      if reply.content.None? {
        return Failure(NullReference(NullResponseMessage));
      }
      r := Success(reply.content.value);
    }

    /** The store's topic, as its name. */
    method GetTopic() returns (s: string)
      ensures ParseTopic(s) == Some(kernel.settings.topic)
    {
      var topic := kernel.settings.GetTopic();
      s := TopicName(topic);
      TopicNameRoundTrip(topic);
    }

    method UpdateTopic(newTopic: Topic)
      modifies kernel.settings`topic
      ensures kernel.settings.topic == newTopic
      ensures kernel.settings.promptLength == old(kernel.settings.promptLength)
    {
      kernel.settings.SetTopic(newTopic);
    }

    /** The store's length, in decimal. */
    method GetPromptLength() returns (s: string)
      ensures ParseDecimal(s) == Some(kernel.settings.promptLength)
    {
      var n := kernel.settings.GetPromptLength();
      s := DecimalString(n);
    }

    /** Refuses a non-positive length before it reaches the store. */
    method UpdatePromptLength(newPromptLength: int) returns (r: Outcome<Error>)
      modifies kernel.settings`promptLength
      ensures r.Pass? <==> newPromptLength > 0
      ensures r.Fail? ==> r.error == ArgumentOutOfRange("newPromptLength")
      ensures kernel.settings.promptLength == UpdatedPromptLength(old(kernel.settings.promptLength), newPromptLength)
      ensures kernel.settings.topic == old(kernel.settings.topic)
    {
      if newPromptLength <= 0 {
        return Fail(ArgumentOutOfRange("newPromptLength"));
      }
      kernel.settings.SetPromptLength(newPromptLength);
      r := Pass;
    }

    method GetSummaryPrompt(fs: FileSystem) returns (r: Result<string, Error>)
      ensures r == M.PromptFor(kernel.settings.configuration, fs, kernel.settings.topic, kernel.settings.promptLength)
    {
      r := kernel.settings.GetSummaryPrompt(fs);
    }
  }
}
