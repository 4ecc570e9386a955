/**
 * The chat page of the web front end (SummaryWebApp/Pages/Chat.razor.cs) and
 * its messages (SummaryWebApp/Models/Message.cs). The backend it talks to
 * over HTTP is left abstract: each operation is given the answers the
 * backend gave to the calls it makes, and a ghost log records which calls
 * were made, with which arguments, in which order.
 */
module ChatPage {
  import opened Outcomes
  import opened Topics

  const ResponsesLimit := 3
  const DefaultOutputLength := 20
  const SendFailure := "An error occurred while sending the message."
  const RegenerateFailure := "An error occurred while regenerating the message."

  // ------------------------------------------------------------- paging

  /** The response shown after "previous": one back, unless on the first. */
  function PrevIndex(i: int): (j: int)
    ensures 0 <= i ==> 0 <= j <= i
    ensures j == i <==> i <= 0
  {
    if i > 0 then i - 1 else i
  }

  /** The response shown after "next": one on, unless on the last of `count`. */
  function NextIndex(i: int, count: int): (j: int)
    ensures 0 <= i < count ==> i <= j < count
    ensures j == i <==> i >= count - 1
  {
    if i < count - 1 then i + 1 else i
  }

  /** "Previous" undoes "next" and "next" undoes "previous" inside the pages. */
  lemma PagingIsReversible(i: int, count: int)
    ensures 0 <= i < count - 1 ==> PrevIndex(NextIndex(i, count)) == i
    ensures 0 < i < count ==> NextIndex(PrevIndex(i), count) == i
  {
  }

  function NextTimes(i: int, count: int, k: nat): int {
    if k == 0 then i else NextIndex(NextTimes(i, count, k - 1), count)
  }

  function PrevTimes(i: int, k: nat): int {
    if k == 0 then i else PrevIndex(PrevTimes(i, k - 1))
  }

  /** From the first of `count` responses, `k` presses of "next" show response min(k, count - 1). */
  lemma {:induction false} NextTimesStopsAtLast(count: int, k: nat)
    requires count >= 1
    ensures NextTimes(0, count, k) == if k < count - 1 then k else count - 1
  {
    if k > 0 {
      NextTimesStopsAtLast(count, k - 1);
    }
  }

  /** From response `i`, `k` presses of "previous" show response max(i - k, 0). */
  lemma {:induction false} PrevTimesStopsAtFirst(i: nat, k: nat)
    ensures PrevTimes(i, k) == if k < i then i - k else 0
  {
    if k > 0 {
      PrevTimesStopsAtFirst(i, k - 1);
    }
  }

  // ----------------------------------------------------------- messages

  class Message {
    var userText: string
    var isSent: bool
    var responses: seq<string>
    var topic: Topic
    var promptLen: int
    var currIndex: int

    /** The copy of the user's text shown as sent; the other properties keep their defaults. */
    constructor Sent(text: string)
      ensures userText == text && isSent && responses == []
      ensures topic == Generic && promptLen == 0 && currIndex == 0
    {
      userText, isSent, responses := text, true, [];
      topic, promptLen, currIndex := Generic, 0, 0;
    }

    /** The received message: one response, and the settings it was asked with. */
    constructor Received(text: string, response: string, topic: Topic, promptLen: int)
      ensures userText == text && !isSent && responses == [response]
      ensures this.topic == topic && this.promptLen == promptLen && currIndex == 0
      ensures OnPage()
    {
      userText, isSent, responses := text, false, [response];
      this.topic, this.promptLen, currIndex := topic, promptLen, 0;
    }

    /** The response on display exists. */
    ghost predicate OnPage()
      reads this
    {
      0 <= currIndex < |responses|
    }
  }

  // ------------------------------------------------------------ backend

  /** A call the page makes on the backend. */
  datatype Call =
    | UpdateTopic(topic: Topic)
    | UpdatePromptLength(length: int)
    | GetSummary(text: string)
    | GetRegeneratedSummary(text: string)
    | GetTopic
    | GetPromptLength
    | GetTokenCount(text: string)

  /**
   * The backend's answers to the calls of one page operation: whether each
   * update succeeded, and the summary, topic and length it returned (None
   * when the call failed or its answer did not parse).
   */
  datatype Replies = Replies(
    topicUpdated: bool,
    lengthUpdated: bool,
    summary: Option<string>,
    topic: Option<Topic>,
    length: Option<int>)

  /** The calls `UpdateSummarySettings` makes: the length is sent only once the topic was. */
  ghost function UpdateCalls(topic: Topic, length: int, replies: Replies): seq<Call> {
    [UpdateTopic(topic)] + if replies.topicUpdated then [UpdatePromptLength(length)] else []
  }

  /** The calls `GetSummarySettings` makes: the length is asked for only once the topic arrived. */
  ghost function RefreshCalls(replies: Replies): seq<Call> {
    [GetTopic] + if replies.topic.Some? then [GetPromptLength] else []
  }

  predicate SettingsSent(replies: Replies) {
    replies.topicUpdated && replies.lengthUpdated
  }

  /** The calls of a send: the settings first, the summary only once they are stored, the refresh only after a summary. */
  ghost function SendCalls(topic: Topic, length: int, text: string, replies: Replies): seq<Call> {
    UpdateCalls(topic, length, replies)
    + if !SettingsSent(replies) then []
      else [GetSummary(text)] + if replies.summary.None? then [] else RefreshCalls(replies)
  }

  /** The calls of a regeneration: the message's own settings, then the regenerated summary of its text. */
  ghost function RegenerateCalls(message: Message, replies: Replies): seq<Call>
    reads message
  {
    UpdateCalls(message.topic, message.promptLen, replies)
    + if SettingsSent(replies) then [GetRegeneratedSummary(message.userText)] else []
  }

  // --------------------------------------------------------------- page

  class Chat {
    var outputLength: int
    var userMessage: string
    var messages: seq<Message>
    var selectedTopic: Topic
    var inputTokenCount: int
    /** The backend calls made so far. */
    ghost var calls: seq<Call>

    /** No message holds more than three responses, and a received message shows one of its responses. */
    ghost predicate Valid()
      reads this, messages
    {
      forall m :: m in messages ==> |m.responses| <= ResponsesLimit && (!m.isSent ==> m.OnPage())
    }

    constructor ()
      ensures outputLength == DefaultOutputLength && selectedTopic == Generic
      ensures userMessage == "" && messages == [] && inputTokenCount == 0
      ensures calls == [] && Valid()
    {
      outputLength := DefaultOutputLength;
      selectedTopic := Generic;
      userMessage := "";
      messages := [];
      inputTokenCount := 0;
      calls := [];
    }

    /** Takes the edited text (a null value throws) and asks the backend for its token count. */
    method GetLiveCount(value: Option<string>, tokenCount: Option<int>) returns (r: Outcome<Error>)
      modifies this`userMessage, this`inputTokenCount, this`calls
      ensures value.None? ==> r == Fail(ArgumentNull("Value")) && unchanged(this)
      ensures value.Some? ==>
        && userMessage == value.value
        && calls == old(calls) + [GetTokenCount(value.value)]
        && (r.Pass? <==> tokenCount.Some?)
        && (r.Fail? ==> r.error == RequestFailed && inputTokenCount == old(inputTokenCount))
        && (r.Pass? ==> inputTokenCount == tokenCount.value)
    {
      if value.None? {
        return Fail(ArgumentNull("Value"));
      }
      userMessage := value.value;
      calls := calls + [GetTokenCount(userMessage)];
      if tokenCount.None? {
        return Fail(RequestFailed);
      }
      inputTokenCount := tokenCount.value;
      r := Pass;
    }

    method UpdateSummarySettings(newTopic: Topic, newOutputLength: int, replies: Replies) returns (r: Outcome<Error>)
      modifies this`calls
      ensures calls == old(calls) + UpdateCalls(newTopic, newOutputLength, replies)
      ensures r.Pass? <==> SettingsSent(replies)
      ensures r.Fail? ==> r.error == RequestFailed
    {
      calls := calls + [UpdateTopic(newTopic)];
      if !replies.topicUpdated {
        return Fail(RequestFailed);
      }
      calls := calls + [UpdatePromptLength(newOutputLength)];
      if !replies.lengthUpdated {
        return Fail(RequestFailed);
      }
      r := Pass;
    }

    /** Takes the backend's topic, then its length; a failure part-way keeps what arrived. */
    method GetSummarySettings(replies: Replies) returns (r: Outcome<Error>)
      modifies this`selectedTopic, this`outputLength, this`calls
      ensures calls == old(calls) + RefreshCalls(replies)
      ensures selectedTopic == replies.topic.GetOr(old(selectedTopic))
      ensures outputLength == if replies.topic.Some? then replies.length.GetOr(old(outputLength)) else old(outputLength)
      ensures r.Pass? <==> replies.topic.Some? && replies.length.Some?
      ensures r.Fail? ==> r.error == RequestFailed
    {
      calls := calls + [GetTopic];
      if replies.topic.None? {
        return Fail(RequestFailed);
      }
      selectedTopic := replies.topic.value;
      calls := calls + [GetPromptLength];
      if replies.length.None? {
        return Fail(RequestFailed);
      }
      outputLength := replies.length.value;
      r := Pass;
    }

    method ResetInputMessage()
      modifies this`userMessage, this`inputTokenCount
      ensures userMessage == "" && inputTokenCount == 0
    {
      userMessage := "";
      inputTokenCount := 0;
    }

    /**
     * Sends the typed text. Blank text changes nothing. Otherwise the
     * settings are stored and the summary asked for; once it arrives the
     * sent copy and the received message are appended, the settings are
     * read back, and only if that succeeds is the input cleared.
     */
    method SendMessage(replies: Replies) returns (r: Outcome<Error>)
      requires Valid()
      modifies this
      ensures Valid()
      ensures IsNullOrWhiteSpace(Some(old(userMessage))) ==> r == Pass && unchanged(this)
      ensures !IsNullOrWhiteSpace(Some(old(userMessage))) ==>
        calls == old(calls) + SendCalls(old(selectedTopic), old(outputLength), old(userMessage), replies)
      ensures !IsNullOrWhiteSpace(Some(old(userMessage))) && (!SettingsSent(replies) || replies.summary.None?) ==>
        && r == Fail(InvalidOperation(SendFailure))
        && messages == old(messages) && userMessage == old(userMessage)
        && selectedTopic == old(selectedTopic) && outputLength == old(outputLength)
        && inputTokenCount == old(inputTokenCount)
      ensures !IsNullOrWhiteSpace(Some(old(userMessage))) && SettingsSent(replies) && replies.summary.Some? ==>
        && |messages| == |old(messages)| + 2
        && messages[..|old(messages)|] == old(messages)
        && var sent, received := messages[|old(messages)|], messages[|old(messages)| + 1];
        && fresh(sent) && fresh(received)
        && sent.isSent && sent.userText == old(userMessage) && sent.responses == []
        && sent.topic == Generic && sent.promptLen == 0 && sent.currIndex == 0
        && !received.isSent && received.userText == old(userMessage)
        && received.responses == [replies.summary.value] && received.currIndex == 0
        && received.topic == old(selectedTopic) && received.promptLen == old(outputLength)
        && selectedTopic == replies.topic.GetOr(old(selectedTopic))
        && outputLength == (if replies.topic.Some? then replies.length.GetOr(old(outputLength)) else old(outputLength))
        && (r.Pass? <==> replies.topic.Some? && replies.length.Some?)
        && (r.Pass? ==> userMessage == "" && inputTokenCount == 0)
        && (r.Fail? ==> r.error == InvalidOperation(SendFailure)
                        && userMessage == old(userMessage) && inputTokenCount == old(inputTokenCount))
    {
      if IsNullOrWhiteSpace(Some(userMessage)) {
        return Pass;
      }
      var text, topic, length := userMessage, selectedTopic, outputLength;
      var updated := UpdateSummarySettings(topic, length, replies);
      if updated.Fail? {
        return Fail(InvalidOperation(SendFailure));
      }
      calls := calls + [GetSummary(text)];
      if replies.summary.None? {
        return Fail(InvalidOperation(SendFailure));
      }
      var sent := new Message.Sent(text);
      var received := new Message.Received(text, replies.summary.value, topic, length);
      messages := messages + [sent, received];
      var refreshed := GetSummarySettings(replies);
      if refreshed.Fail? {
        return Fail(InvalidOperation(SendFailure));
      }
      ResetInputMessage();
      r := Pass;
    }

    /** Moves to the previous response; nothing but the index changes. */
    static method PrevPage(message: Message)
      modifies message`currIndex
      ensures message.currIndex == PrevIndex(old(message.currIndex))
      ensures old(message.OnPage()) ==> message.OnPage()
    {
      if message.currIndex > 0 {
        message.currIndex := message.currIndex - 1;
      }
    }

    /** Moves to the next response; nothing but the index changes. */
    static method NextPage(message: Message)
      modifies message`currIndex
      ensures message.currIndex == NextIndex(old(message.currIndex), |message.responses|)
      ensures old(message.OnPage()) ==> message.OnPage()
    {
      if message.currIndex < |message.responses| - 1 {
        message.currIndex := message.currIndex + 1;
      }
    }

    /**
     * Asks for another response to a message with fewer than three, using
     * the settings recorded on the message; the new response is appended and
     * the index moves on by one.
     */
    method RegenerateLastMessage(message: Message, replies: Replies) returns (r: Outcome<Error>)
      requires Valid() && message in messages
      modifies message`responses, message`currIndex, this`calls
      ensures Valid()
      ensures old(|message.responses|) >= ResponsesLimit ==>
        r == Pass && calls == old(calls)
        && message.responses == old(message.responses) && message.currIndex == old(message.currIndex)
      ensures old(|message.responses|) < ResponsesLimit ==>
        && calls == old(calls) + old(RegenerateCalls(message, replies))
        && (r.Pass? <==> SettingsSent(replies) && replies.summary.Some?)
        && (r.Pass? ==> message.responses == old(message.responses) + [replies.summary.value]
                        && message.currIndex == old(message.currIndex) + 1)
        && (r.Fail? ==> r.error == InvalidOperation(RegenerateFailure)
                        && message.responses == old(message.responses)
                        && message.currIndex == old(message.currIndex))
    {
      if |message.responses| >= ResponsesLimit {
        return Pass;
      }
      var updated := UpdateSummarySettings(message.topic, message.promptLen, replies);
      if updated.Fail? {
        return Fail(InvalidOperation(RegenerateFailure));
      }
      calls := calls + [GetRegeneratedSummary(message.userText)];
      if replies.summary.None? {
        return Fail(InvalidOperation(RegenerateFailure));
      }
      message.responses := message.responses + [replies.summary.value];
      message.currIndex := message.currIndex + 1;
      r := Pass;
    }
  }
}
