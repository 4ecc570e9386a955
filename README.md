# Summary chat assistant: settings store, transcript and chat page in Dafny

This project models the sequential logic of a summarization chat assistant
built on an LLM orchestration framework:

- **Settings store** in three revisions. The logging store
  (`Plugins/Models`), the store without logging (`Plugins/Plugins`) and the
  proof-of-concept store with its summary plugin (`SummaryPluginPoc`). Each
  holds a topic (default `Generic`) and a prompt length (default 10) that
  callers set with no validation. From these it builds the summary
  instruction. The two later revisions add the text of the topic's
  description file `{topic}.txt`.
- **Chat service** (`SemanticKernelService`). An append-only transcript
  that opens with the system message read from a file. Summaries append
  the user turn and the engine's reply, at temperature 0. Regenerations
  first add a fixed instruction turn and use temperature 0.5. The service
  also passes settings calls to the store and refuses non-positive lengths.
- **Chat page** of the web front end (`SummaryWebApp`). The list of sent
  and received messages, at most three responses per message, and
  previous/next paging through them.

Modules, one per source file or shared concept:

| file | module | models |
|---|---|---|
| common.dfy | `Outcomes` | null as `Option`, thrown exceptions as `Result`/`Outcome`, `string.IsNullOrEmpty`, `string.IsNullOrWhiteSpace` |
| host.dfy | `Host` | configuration and files as maps, `File.ReadAllText`, `Path.Combine`, `int.ToString` and its sign-and-digits inverse |
| topics.dfy | `Topics` | the five-value `Topic` enumeration and its names |
| prompt_text.dfy | `PromptText` | the lead sentence that all three revisions start their prompt with, and a reader for it |
| settings_models.dfy | `ModelsSettings` | `Plugins/Models/SettingsPlugin.cs` |
| settings_plugins.dfy | `PluginsSettings` | `Plugins/Plugins/SettingsPlugin.cs` |
| poc_settings.dfy | `PocSettings` | `SummaryPluginPoc/SettingsPlugin.cs` and its four-value enumeration |
| poc_summary.dfy | `PocSummary` | `SummaryPluginPoc/SummaryPlugin.cs` |
| chat_service.dfy | `ChatServices` | `SemanticKernelService/Services/ChatService.cs` |
| chat_page.dfy | `ChatPage` | `SummaryWebApp/Pages/Chat.razor.cs` and `SummaryWebApp/Models/Message.cs` |

Abstractions:

- A class whose fields the source updates in place is a Dafny `class`:
  the stores, the chat service with its `history`, the page and its
  messages. Constructors that can throw are split in two. A static
  `Create` method performs the checks in the source's order and returns a
  `Result`. A plain constructor builds the object once the checks pass.
- Each prompt is specified by a pure function. A reader function parses the
  prompt back, and a round-trip lemma proves that topic, length and
  description are all recovered. So the prompt determines its inputs, and
  the topic and the length both appear in it in the fixed wording.
- The completion engine is a function value. It takes the transcript and a
  temperature tag (`Zero` or `Half`). It answers either the error its request
  threw, or a reply with a role and a content that may be null. A failed
  request leaves the user turns it was asked with unanswered in the
  transcript.
- The transcript operations are pure functions (`Summary`,
  `RegeneratedSummary`) that the service's methods are proved against.
  `Session` runs any sequence of requests. `SessionIsAppendOnly` proves that
  earlier entries are never changed or removed.
- The page's HTTP backend is abstract. Each page operation receives the
  backend's answers (`Replies`). A ghost log `calls` records which backend
  calls the page made, with which arguments and in which order.
- Validation of the settings, as the code does it:
  - No store revision validates the prompt length. Only the chat service
    refuses a non-positive one.
  - A missing folder setting throws `NullReferenceException`. The logging
    revision's doc comment (Plugins/Models/SettingsPlugin.cs:100-102) names
    `ArgumentNullException` instead.
  - The store without logging accepts an empty folder setting.

## Model

| member | source | states |
|---|---|---|
| Host.Combine | Plugins/Models/SettingsPlugin.cs:113 | `Path.Combine` ends with the name; an empty name leaves the folder as it is; with an empty folder or a rooted name it is the name alone; a plain name joined to a non-empty folder lies directly inside that folder, with one separator between, and is the path's file name |
| Host.InFolderByFileName | Plugins/Models/SettingsPlugin.cs:113 | an entry directly inside a folder is fixed by its file name, so the joined path is the only one meeting `Combine`'s contract |
| Host.DecimalString | SemanticKernelService/Services/ChatService.cs:146-151 | the length's `ToString()` has no space and reads back to the same integer |
| Host.ParseDecimal | SummaryWebApp/Services/ChatService.cs:77-81 | `int.Parse` succeeds exactly on an optional minus sign followed by at least one digit |
| Topics.TopicName | Plugins/Models/TopicEnum.cs:9-12 | each topic's name is non-empty and has no space or separator |
| Topics.ParseTopic | SummaryWebApp/Services/ChatService.cs:55-60 | `Enum.Parse` gives the topic whose name is the text, and fails only when no topic has that name |
| Topics.TopicNameRoundTrip | Plugins/Models/TopicEnum.cs:9-12 | parsing a topic's name gives back that topic |
| PromptText.LeadSentenceRoundTrip | Plugins/Models/SettingsPlugin.cs:93 | "Summarize the above text for the topic {t} in at most {n} words." gives back t, n and the text after it |
| ModelsSettings.TopicFileName | Plugins/Models/SettingsPlugin.cs:113 | the description file "{topic}.txt" has no directory part |
| ModelsSettings.SummaryPrompt | Plugins/Models/SettingsPlugin.cs:88-95 | the prompt starts with the lead sentence and ends with the description text verbatim |
| ModelsSettings.SummaryPromptRoundTrip | Plugins/Models/SettingsPlugin.cs:93-94 | reading the prompt back gives the topic, the length and the description |
| ModelsSettings.SummaryPromptInjective | Plugins/Models/SettingsPlugin.cs:93-94 | different (topic, length, description) never give the same prompt |
| ModelsSettings.ComedyFiveWords | Plugins/Models/SettingsPlugin.cs:93-94 | for Comedy and 5 the prompt is the literal header, the line "Use the following description for the topic:", then the file text |
| ModelsSettings.TopicFilePath | Plugins/Models/SettingsPlugin.cs:104-114 | fails with NullReferenceException exactly when `PromptsForTopics` is null or empty; otherwise the path lies directly inside that folder (not in a sibling or a subfolder) and its file name is "{topic}.txt" |
| ModelsSettings.PromptFor | Plugins/Models/SettingsPlugin.cs:88-95 | a bad folder setting fails before any file read; a missing file fails with FileNotFound on that path; otherwise the prompt reads back to the settings and the file's text |
| ModelsSettings.SettingsPlugin.constructor | Plugins/Models/SettingsPlugin.cs:23-26 | a fresh store holds Generic and 10 |
| ModelsSettings.SettingsPlugin.Create | Plugins/Models/SettingsPlugin.cs:23-30 | a null configuration, then a null logger, makes construction throw ArgumentNullException; otherwise a fresh store with Generic and 10 |
| ModelsSettings.SettingsPlugin.GetTopic | Plugins/Models/SettingsPlugin.cs:39-43 | returns the stored topic and changes nothing |
| ModelsSettings.SettingsPlugin.SetTopic | Plugins/Models/SettingsPlugin.cs:51-55 | the stored topic becomes the argument; the length is unchanged |
| ModelsSettings.SettingsPlugin.GetPromptLength | Plugins/Models/SettingsPlugin.cs:64-68 | returns the stored length and changes nothing |
| ModelsSettings.SettingsPlugin.SetPromptLength | Plugins/Models/SettingsPlugin.cs:76-80 | stores any int with no validation; the topic is unchanged |
| ModelsSettings.SettingsPlugin.GetSummaryPrompt | Plugins/Models/SettingsPlugin.cs:88-95 | the result is `PromptFor` of the current settings and files; nothing changes |
| ModelsSettings.SettingsPlugin.GetTopicFilePath | Plugins/Models/SettingsPlugin.cs:104-114 | the result is `TopicFilePath` of the configuration and the current topic |
| PluginsSettings.TopicFilePath | Plugins/Plugins/SettingsPlugin.cs:97-101 | fails only when `PromptsForTopics` is null; an empty setting yields the bare "{topic}.txt"; a non-empty one yields the path directly inside that folder whose file name is "{topic}.txt" |
| PluginsSettings.PromptFor | Plugins/Plugins/SettingsPlugin.cs:82-88 | same prompt format as the logging revision; fails on a null folder setting or a missing file |
| PluginsSettings.RevisionsAgreeOnNonEmptyFolder | Plugins/Plugins/SettingsPlugin.cs:97-101 | with a non-empty folder setting both revisions give the same result |
| PluginsSettings.RevisionsDifferOnEmptyFolder | Plugins/Plugins/SettingsPlugin.cs:99 | with an empty folder setting the logging revision throws, while this one succeeds exactly when "{topic}.txt" exists |
| PluginsSettings.SettingsPlugin.constructor | Plugins/Plugins/SettingsPlugin.cs:23-26 | a fresh store holds Generic and 10 |
| PluginsSettings.SettingsPlugin.Create | Plugins/Plugins/SettingsPlugin.cs:23-28 | a null configuration throws ArgumentNullException; otherwise a fresh store with Generic and 10 |
| PluginsSettings.SettingsPlugin.GetTopic | Plugins/Plugins/SettingsPlugin.cs:37-40 | returns the stored topic and changes nothing |
| PluginsSettings.SettingsPlugin.SetTopic | Plugins/Plugins/SettingsPlugin.cs:48-51 | the stored topic becomes the argument; the length is unchanged |
| PluginsSettings.SettingsPlugin.GetPromptLength | Plugins/Plugins/SettingsPlugin.cs:60-63 | returns the stored length and changes nothing |
| PluginsSettings.SettingsPlugin.SetPromptLength | Plugins/Plugins/SettingsPlugin.cs:71-74 | stores any int with no validation; the topic is unchanged |
| PluginsSettings.SettingsPlugin.GetSummaryPrompt | Plugins/Plugins/SettingsPlugin.cs:82-88 | the result is this revision's `PromptFor` of the current settings |
| PluginsSettings.SettingsPlugin.GetTopicFilePath | Plugins/Plugins/SettingsPlugin.cs:97-101 | the result is this revision's `TopicFilePath` |
| PocSettings.PocTopicHasFourValues | SummaryPluginPoc/SettingsPlugin.cs:62-65 | the enumeration has exactly four values |
| PocSettings.AsTopic | SummaryPluginPoc/SettingsPlugin.cs:62-65 | each of its topics has a same-named topic in the later enumeration, and none of them is Comedy |
| PocSettings.PocTopicName | SummaryPluginPoc/SettingsPlugin.cs:62-65 | topic names contain no space |
| PocSettings.ParsePocTopic | SummaryPluginPoc/SettingsPlugin.cs:62-65 | a name parses exactly when a topic has it; "Comedy" does not parse |
| PocSettings.PocTopicNameRoundTrip | SummaryPluginPoc/SettingsPlugin.cs:62-65 | parsing a topic's name gives back that topic |
| PocSettings.PocSummaryPrompt | SummaryPluginPoc/SettingsPlugin.cs:49-59 | the prompt starts with the same lead sentence as the later revisions |
| PocSettings.PocSummaryPromptRoundTrip | SummaryPluginPoc/SettingsPlugin.cs:55-58 | reading the prompt back gives the topic and the length; the topic's second mention must match its first |
| PocSettings.PocSummaryPromptInjective | SummaryPluginPoc/SettingsPlugin.cs:55-58 | the prompt determines the topic and length it was built from |
| PocSettings.SettingsPlugin.constructor | SummaryPluginPoc/SettingsPlugin.cs:11-15 | a fresh store holds Generic and 10 |
| PocSettings.SettingsPlugin.GetTopic | SummaryPluginPoc/SettingsPlugin.cs:20-23 | returns the stored topic and changes nothing |
| PocSettings.SettingsPlugin.SetTopic | SummaryPluginPoc/SettingsPlugin.cs:27-30 | the stored topic becomes the argument; the length is unchanged |
| PocSettings.SettingsPlugin.GetPromptLength | SummaryPluginPoc/SettingsPlugin.cs:35-38 | returns the stored length and changes nothing |
| PocSettings.SettingsPlugin.SetPromptLength | SummaryPluginPoc/SettingsPlugin.cs:42-45 | stores any int with no validation; the topic is unchanged |
| PocSettings.SettingsPlugin.GetSummaryPrompt | SummaryPluginPoc/SettingsPlugin.cs:49-59 | a pure function of (topic, length) with no file access; reads back to the current settings |
| PocSummary.SummaryPlugin.constructor | SummaryPluginPoc/SummaryPlugin.cs:15-18 | the plugin keeps the very store it was given |
| PocSummary.SummaryPlugin.GetSummaryPrompt | SummaryPluginPoc/SummaryPlugin.cs:22-28 | returns the shared store's own prompt for its current settings, and changes nothing |
| PocSummary.SharedSettingsAreSeen | SummaryPluginPoc/SummaryPlugin.cs:13-18 | after setting topic and length through the shared store, the plugin's prompt reads back to them and equals the store's own |
| ChatServices.ResultForPrompt | SemanticKernelService/Services/ChatService.cs:92-113 | appends the user turn and asks the engine with the transcript ending in it; a failed request throws its error and leaves the user turn unanswered; otherwise appends the reply (empty if null) and returns its text, or throws when the content is null |
| ChatServices.Summary | SemanticKernelService/Services/ChatService.cs:58-66 | null or empty input throws and appends nothing; otherwise appends the user input, asks at temperature 0, and then appends the reply, unless the request failed, which leaves only the input |
| ChatServices.RegeneratedSummary | SemanticKernelService/Services/ChatService.cs:74-83 | null or empty input throws and appends nothing; otherwise appends the regenerate instruction and the input, asks at temperature 0.5, and then appends the reply, unless the request failed, which leaves the two user turns |
| ChatServices.SessionIsAppendOnly | SemanticKernelService/Services/ChatService.cs:58-113 | over any sequence of calls the old transcript stays a prefix, and each call appends at most three entries |
| ChatServices.UpdatedPromptLength | SemanticKernelService/Services/ChatService.cs:160-173 | a positive request becomes the length; a non-positive one leaves it unchanged |
| ChatServices.ServiceKeepsPromptLengthPositive | SemanticKernelService/Services/ChatService.cs:160-173 | from a positive length such as the default 10, updates through the service keep it positive, and it is the start or one of the requests |
| ChatServices.ChatService.constructor | SemanticKernelService/Services/ChatService.cs:32-33 | the transcript is exactly the system message |
| ChatServices.ChatService.Create | SemanticKernelService/Services/ChatService.cs:28-50 | null kernel or configuration throws ArgumentNullException; a null or empty `SystemMessage` path throws NullReferenceException; a missing file throws; a kernel without a completion service throws after the file was read; otherwise the transcript is exactly one system entry with the file's text and the service uses the kernel's engine |
| ChatServices.ChatService.GetSummary | SemanticKernelService/Services/ChatService.cs:58-66 | the new transcript and result are `Summary` of the old; the system message stays first |
| ChatServices.ChatService.GetRegeneratedSummary | SemanticKernelService/Services/ChatService.cs:74-83 | the new transcript and result are `RegeneratedSummary` of the old; the system message stays first |
| ChatServices.ChatService.GetResultForPrompt | SemanticKernelService/Services/ChatService.cs:92-113 | the new transcript and result are `ResultForPrompt` of the old |
| ChatServices.ChatService.GetTopic | SemanticKernelService/Services/ChatService.cs:119-125 | the returned name parses back to the store's topic |
| ChatServices.ChatService.UpdateTopic | SemanticKernelService/Services/ChatService.cs:132-140 | the store's topic becomes the argument; its length is unchanged |
| ChatServices.ChatService.GetPromptLength | SemanticKernelService/Services/ChatService.cs:146-152 | the returned text parses back to the store's length |
| ChatServices.ChatService.UpdatePromptLength | SemanticKernelService/Services/ChatService.cs:160-173 | n <= 0 throws ArgumentOutOfRangeException and leaves the store alone; otherwise the store's length becomes n |
| ChatServices.ChatService.GetSummaryPrompt | SemanticKernelService/Services/ChatService.cs:179-185 | returns the store's prompt for its current settings |
| ChatPage.PrevIndex | SummaryWebApp/Pages/Chat.razor.cs:140-144 | the index moves back by one unless already at 0; never below 0 |
| ChatPage.NextIndex | SummaryWebApp/Pages/Chat.razor.cs:150-154 | the index moves on by one unless on the last response; an index on a page stays on a page |
| ChatPage.PagingIsReversible | SummaryWebApp/Pages/Chat.razor.cs:140-154 | inside the pages, previous undoes next and next undoes previous |
| ChatPage.NextTimesStopsAtLast | SummaryWebApp/Pages/Chat.razor.cs:150-154 | k presses of next from the first response show response min(k, count - 1) |
| ChatPage.PrevTimesStopsAtFirst | SummaryWebApp/Pages/Chat.razor.cs:140-144 | k presses of previous from response i show response max(i - k, 0) |
| ChatPage.Message.Sent | SummaryWebApp/Pages/Chat.razor.cs:58 | the sent copy carries the text, no responses and the default topic, length and index |
| ChatPage.Message.Received | SummaryWebApp/Pages/Chat.razor.cs:59-66 | the received message has one response, the topic and length snapshot, and index 0 on a page |
| ChatPage.Chat.constructor | SummaryWebApp/Pages/Chat.razor.cs:16-23 | output length 20, topic Generic, empty input, no messages, token count 0 |
| ChatPage.Chat.GetLiveCount | SummaryWebApp/Pages/Chat.razor.cs:30-41 | a null value throws and changes nothing; otherwise the input is taken and the token count set when the backend answers |
| ChatPage.Chat.UpdateSummarySettings | SummaryWebApp/Pages/Chat.razor.cs:94-98 | sends the topic, then the length only once the topic was stored; succeeds exactly when both were stored |
| ChatPage.Chat.GetSummarySettings | SummaryWebApp/Pages/Chat.razor.cs:83-87 | takes the backend's topic, then its length; a failure part-way keeps what already arrived |
| ChatPage.Chat.ResetInputMessage | SummaryWebApp/Pages/Chat.razor.cs:103-107 | clears the input and the token count |
| ChatPage.Chat.SendMessage | SummaryWebApp/Pages/Chat.razor.cs:47-78 | blank input changes nothing; if the settings or summary call fails nothing is appended; otherwise exactly the sent copy (text only, with the default topic Generic, length 0 and index 0) and the received message are appended, and the input is cleared only when the settings read-back succeeds; the page invariant is kept |
| ChatPage.Chat.RegenerateLastMessage | SummaryWebApp/Pages/Chat.razor.cs:114-134 | with three responses nothing happens; otherwise, using the message's own topic and length, exactly one response is appended and the index moves on by one; the count never exceeds 3 and the displayed index stays on a page |
| ChatPage.Chat.PrevPage | SummaryWebApp/Pages/Chat.razor.cs:140-144 | only the index changes, to `PrevIndex` of the old one; an index on a page stays on a page |
| ChatPage.Chat.NextPage | SummaryWebApp/Pages/Chat.razor.cs:150-154 | only the index changes, to `NextIndex` of the old one; an index on a page stays on a page |

## Left out

- HTTP controllers, request/response contracts and status-code mapping. Their validation repeats the service checks modelled here.
- The web front end's HTTP client services. They are replaced by the `Replies` answers given to each page operation. `int.Parse` and `Enum.Parse` appear only through `ParseDecimal` and `ParseTopic`.
- Host.ParseDecimal: it models only the sign-and-digits form. It leaves out surrounding white space, a leading `+`, and overflow past 32 bits.
- Host.ParseDecimal: its contract states which texts parse, but not the value they parse to. The value is fixed only for the texts `DecimalString` produces, through `DecimalString`'s round-trip ensures.
- Host.DecimalString: it renders a negative number with an ASCII `-`. `ToString()` and string interpolation use the current culture, whose negative sign can differ (for example U+2212 in some cultures).
- Topics.TopicName: a C# enum variable can hold any `int`, and binding the API's JSON accepts for example 7. That value renders as "7", giving the file "7.txt". The closed `Topic` datatype holds only the five named values.
- Topics.ParseTopic: it models only exact, case-sensitive name matching. It leaves out numeric and comma-separated enum strings.
- The tokenizer service and its counting algorithm. A token count enters the page only as an answer in `GetLiveCount`.
- The framework's named-function lookup and `InvokeAsync`. The chat service calls the settings store directly.
- With automatic tool calls, the framework can add tool-call entries to the transcript and change the settings during a completion. The model's engine only returns a reply.
- The completion engine is a deterministic function of the transcript and the temperature, answering a reply or the error its request threw. The real one is not deterministic. The contracts hold for every engine function, so they hold for each individual call.
- The lookup of the completion service fails with one error value, `ServiceNotRegistered`. The exception type and message of the framework's lookup are not modelled.
- ChatServices.Kernel: the settings store registered in the service's kernel is taken to be the logging revision (`ModelsSettings`). The service's source does not show which revision is registered, and with the other revision an empty folder setting would not make `GetSummaryPrompt` throw.
- Temperatures are the tags `Zero` and `Half`, not floating-point numbers.
- File reads are a map from path to text taken at the moment of the call. The only failure modelled is a missing file.
- Path.Combine is modelled for a Unix host with separator `/`. Windows separators and volume roots are left out.
- Logging, Blazor rendering (`StateHasChanged`), the console loop of the proof-of-concept program, dependency injection and configuration loading.
- Async scheduling: every call is sequential. Concurrent access to the shared transcript and settings is left out as a concurrency concern.
- The page's exception wrapping keeps only the outer InvalidOperationException and its message, not the inner exception.
- C# `int` is 32 bits wide, but the model uses unbounded `int`. The core never does arithmetic on lengths, and `CurrIndex` is bounded by the response count, so no wrap-around can occur.
