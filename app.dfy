/** The conversation store of App.tsx: the component state and the handlers
    that change it. React's state setters are modelled as assignments that take
    effect at once; one async `handleSubmit` is split at its first `await` into
    `SubmitStart` (everything before the stream) and `SubmitFinish` (the chunk
    updates, the error update and the `finally`), with the stream between. */
module App {
  import opened Wrappers
  import opened Types
  import opened GeminiService
  import Strings

  const DefaultModel := "gemini-3-flash-preview"
  const DefaultConfig := GenerationConfig(0.7, 40, 0.95, Some(""))

  /* ---- the messages one submit creates ---- */

  /** The four Date.now() readings of one submit, in program order: the user
      message's id and timestamp, then the placeholder's id base and
      timestamp. */
  datatype Clock = Clock(userId: nat, userTime: nat, aiId: nat, aiTime: nat)

  /** The USER message: the raw input as text and a copy of the pending
      attachments. */
  function UserMessage(clock: Clock, input: string, atts: seq<Attachment>): (m: Message)
    ensures m.role == User && m.text == input && m.AttachmentList() == atts && !m.isError
    ensures m.id == Strings.DecimalString(clock.userId) && m.timestamp == clock.userTime
  {
    Message(Strings.DecimalString(clock.userId), User, input, Some(atts), clock.userTime, false)
  }

  /** `(Date.now() + 1).toString()` */
  function PlaceholderId(clock: Clock): (id: string)
    ensures id != Strings.DecimalString(clock.aiId)
  {
    var id := Strings.DecimalString(clock.aiId + 1);
    assert id != Strings.DecimalString(clock.aiId) by {
      if id == Strings.DecimalString(clock.aiId) {
        Strings.DecimalInjective(clock.aiId + 1, clock.aiId);
      }
    }
    id
  }

  /** The empty MODEL placeholder, without attachments. */
  function Placeholder(clock: Clock): (m: Message)
    ensures m.id == PlaceholderId(clock)
    ensures m.role == Model && m.text == "" && m.AttachmentList() == [] && !m.isError
    ensures m.timestamp == clock.aiTime
  {
    Message(PlaceholderId(clock), Model, "", None, clock.aiTime, false)
  }

  /** On a clock that does not run backwards the placeholder's id differs from
      the user message's. */
  lemma DistinctTurnIds(clock: Clock, input: string, atts: seq<Attachment>)
    requires clock.userId <= clock.aiId
    ensures UserMessage(clock, input, atts).id != Placeholder(clock).id
  {
    if UserMessage(clock, input, atts).id == Placeholder(clock).id {
      Strings.DecimalInjective(clock.userId, clock.aiId + 1);
    }
  }

  /** The negation of the early-return guard of `handleSubmit`. */
  predicate CanSubmit(input: string, atts: seq<Attachment>, isLoading: bool)
    ensures CanSubmit(input, atts, isLoading) ==> !isLoading
    ensures !isLoading && |atts| > 0 ==> CanSubmit(input, atts, isLoading)
  {
    !((Strings.Trim(input) == "" && |atts| == 0) || isLoading)
  }

  /** A submit goes ahead exactly when no turn is in flight and there is some
      non-white-space input or at least one attachment. */
  lemma CanSubmitIff(input: string, atts: seq<Attachment>, isLoading: bool)
    ensures CanSubmit(input, atts, isLoading) <==> !isLoading && (!Strings.IsBlank(input) || |atts| > 0)
  {
    Strings.TrimEmptyIffBlank(input);
  }

  /* ---- the message-list updaters ---- */

  /** The chunk updater: `prev.map(msg => msg.id === id ? {...msg, text} : msg)`.
      Every message with that id gets the text; all others, the length and the
      order stay; an absent id changes nothing. */
  function SetTextById(msgs: seq<Message>, id: string, text: string): (r: seq<Message>)
    ensures |r| == |msgs|
    ensures forall i :: 0 <= i < |msgs| ==>
              r[i] == if msgs[i].id == id then msgs[i].(text := text) else msgs[i]
    ensures (forall i :: 0 <= i < |msgs| ==> msgs[i].id != id) ==> r == msgs
  {
    if msgs == [] then []
    else
      [if msgs[0].id == id then msgs[0].(text := text) else msgs[0]]
      + SetTextById(msgs[1..], id, text)
  }

  /** The text shown for a failed turn. */
  function ErrorText(e: Error): (r: string)
    ensures |r| > 7 && r[..7] == "Error: "
    ensures e.message != "" ==> r[7..] == e.message
    ensures e.message == "" ==> r[7..] == "Something went wrong."
  {
    "Error: " + (if e.message != "" then e.message else "Something went wrong.")
  }

  /** The error updater: the message with that id gets the error text and the
      error flag; nothing else changes. */
  function MarkErrorById(msgs: seq<Message>, id: string, e: Error): (r: seq<Message>)
    ensures |r| == |msgs|
    ensures forall i :: 0 <= i < |msgs| ==>
              r[i] == if msgs[i].id == id then msgs[i].(text := ErrorText(e), isError := true) else msgs[i]
    ensures (forall i :: 0 <= i < |msgs| ==> msgs[i].id != id) ==> r == msgs
  {
    if msgs == [] then []
    else
      [if msgs[0].id == id then msgs[0].(text := ErrorText(e), isError := true) else msgs[0]]
      + MarkErrorById(msgs[1..], id, e)
  }

  /** Only the last chunk update of a turn is visible. */
  lemma SetTextLastWins(msgs: seq<Message>, id: string, a: string, b: string)
    ensures SetTextById(SetTextById(msgs, id, a), id, b) == SetTextById(msgs, id, b)
  {
  }

  /** The error update hides any chunk text shown before it. */
  lemma ErrorHidesChunks(msgs: seq<Message>, id: string, a: string, e: Error)
    ensures MarkErrorById(SetTextById(msgs, id, a), id, e) == MarkErrorById(msgs, id, e)
  {
  }

  /** How a finished turn leaves the list: the error update if the stream
      threw, else the last chunk update if there was one. */
  function AfterTurn(msgs: seq<Message>, id: string, turn: Turn): (r: seq<Message>)
    ensures |r| == |msgs|
    ensures forall i :: 0 <= i < |msgs| && msgs[i].id != id ==> r[i] == msgs[i]
    ensures forall i :: 0 <= i < |msgs| && msgs[i].id == id ==>
              && r[i].id == id && r[i].role == msgs[i].role
              && r[i].attachments == msgs[i].attachments && r[i].timestamp == msgs[i].timestamp
              && (turn.result.Failure? ==> r[i].isError && r[i].text == ErrorText(turn.result.error))
              && (turn.result.Success? && turn.callbacks != [] ==>
                    r[i].text == turn.callbacks[|turn.callbacks| - 1] && r[i].isError == msgs[i].isError)
    ensures turn.result.Success? && turn.callbacks == [] ==> r == msgs
  {
    match turn.result
    case Failure(e) => MarkErrorById(msgs, id, e)
    case Success(_) =>
      if turn.callbacks == [] then msgs else SetTextById(msgs, id, turn.callbacks[|turn.callbacks| - 1])
  }

  /** When the placeholder is the only message with its id, a finished turn
      changes only the placeholder: on success its text becomes the whole
      streamed text, on failure the error text with the error flag. */
  lemma TurnSettlesPlaceholder(prefix: seq<Message>, p: Message, turn: Turn,
                               modelName: string, history: seq<Message>, prompt: string,
                               atts: seq<Attachment>, config: GenerationConfig,
                               apiKey: Option<string>, provider: ProviderStream)
    requires StreamedFrom(turn, modelName, history, prompt, atts, config, apiKey, provider)
    requires p.text == ""
    requires forall i :: 0 <= i < |prefix| ==> prefix[i].id != p.id
    ensures var r := AfterTurn(prefix + [p], p.id, turn);
            && |r| == |prefix| + 1
            && r[..|prefix|] == prefix
            && (turn.result.Success? ==>
                  && provider.end.Completed?
                  && r[|prefix|] == p.(text := JoinedText(provider.chunks)))
            && (turn.result.Failure? ==>
                  r[|prefix|] == p.(text := ErrorText(turn.result.error), isError := true))
  {
    CallbacksGrow(turn, modelName, history, prompt, atts, config, apiKey, provider);
    var ms := prefix + [p];
    var r := AfterTurn(ms, p.id, turn);
    assert ms[|prefix|] == p;
    assert forall i :: 0 <= i < |prefix| ==> ms[i] == prefix[i];
    assert r[..|prefix|] == prefix by {
      forall i | 0 <= i < |prefix| ensures r[i] == prefix[i] {
        assert ms[i].id != p.id;
      }
    }
  }

  /** `prev.filter((_, i) => i !== index)`: the element at an in-range index
      goes, the others keep their order; any other index changes nothing. */
  function RemoveAt<T>(s: seq<T>, index: int): (r: seq<T>)
    ensures 0 <= index < |s| ==>
              && |r| == |s| - 1
              && (forall j :: 0 <= j < index ==> r[j] == s[j])
              && (forall j :: index <= j < |r| ==> r[j] == s[j + 1])
    ensures !(0 <= index < |s|) ==> r == s
  {
    if s == [] then []
    else if index == 0 then s[1..]
    else [s[0]] + RemoveAt(s[1..], index - 1)
  }

  /* ---- file upload ---- */

  /** A file from the picker with the outcome of reading it. */
  datatype SelectedFile = SelectedFile(file: File, read: ReadResult)

  /** The attachments a batch yields: the readable files, converted, in
      selection order. */
  function Converted(files: seq<SelectedFile>): seq<Attachment> {
    if files == [] then []
    else
      var last := files[|files| - 1];
      Converted(files[..|files| - 1])
      + match FileToGenerativePart(last.file, last.read)
        case Success(a) => [a]
        case Failure(_) => []
  }

  /** The alert shown for each file that could not be read, in order. */
  function LoadAlerts(files: seq<SelectedFile>): seq<string> {
    if files == [] then []
    else
      var last := files[|files| - 1];
      LoadAlerts(files[..|files| - 1])
      + if last.read.ReadFailed? then ["Failed to load " + last.file.name] else []
  }

  /** Conversion is file by file: a batch yields what its parts yield. */
  lemma {:induction false} ConvertedAppend(a: seq<SelectedFile>, b: seq<SelectedFile>)
    ensures Converted(a + b) == Converted(a) + Converted(b)
    ensures LoadAlerts(a + b) == LoadAlerts(a) + LoadAlerts(b)
  {
    if b == [] {
      assert a + b == a;
    } else {
      assert (a + b)[..|a + b| - 1] == a + b[..|b| - 1];
      ConvertedAppend(a, b[..|b| - 1]);
    }
  }

  /** Every file yields either one attachment or one alert. */
  lemma {:induction false} ConvertedCount(files: seq<SelectedFile>)
    ensures |Converted(files)| + |LoadAlerts(files)| == |files|
  {
    if files != [] {
      ConvertedCount(files[..|files| - 1]);
    }
  }

  /** One unreadable file among three yields the other two, in order, and one
      alert. */
  lemma OneUnreadableOfThree(a: SelectedFile, b: SelectedFile, c: SelectedFile)
    requires a.read.Loaded? && b.read.ReadFailed? && c.read.Loaded?
    ensures Converted([a, b, c]) == [FileToGenerativePart(a.file, a.read).value,
                                     FileToGenerativePart(c.file, c.read).value]
    ensures LoadAlerts([a, b, c]) == ["Failed to load " + b.file.name]
  {
    ConvertedAppend([a], [b]);
    ConvertedAppend([a, b], [c]);
    assert [a] + [b] == [a, b] && [a, b] + [c] == [a, b, c];
    assert [a][..0] == [] && [b][..0] == [] && [c][..0] == [];
  }

  /** The loop of `handleFileUpload`: converts the files one at a time, pushing
      each attachment and alerting for each failure. */
  method ConvertFiles(files: seq<SelectedFile>) returns (newAttachments: seq<Attachment>, alerts: seq<string>)
    ensures newAttachments == Converted(files)
    ensures alerts == LoadAlerts(files)
  {
    newAttachments, alerts := [], [];
    for i := 0 to |files|
      invariant newAttachments == Converted(files[..i])
      invariant alerts == LoadAlerts(files[..i])
    {
      assert files[..i + 1][..i] == files[..i];
      var f := files[i];
      match FileToGenerativePart(f.file, f.read)
      case Success(attachment) =>
        newAttachments := newAttachments + [attachment];
      case Failure(_) =>
        alerts := alerts + ["Failed to load " + f.file.name];
    }
    assert files[..|files|] == files;
  }

  /* ---- the submit pipeline and the history it sends ---- */

  /** The arguments `handleSubmit` passes to `streamResponse`, and the id its
      updaters look for. */
  datatype PendingTurn = PendingTurn(
    modelName: string,
    history: seq<Message>,
    prompt: string,
    attachments: seq<Attachment>,
    config: GenerationConfig,
    placeholderId: string)

  /** The mapped history of a transcript ending in a non-error message ends
      with that message's content. */
  lemma HistoryEndsWithNewTurn(msgs: seq<Message>, u: Message)
    requires !u.isError
    ensures MapHistory(ValidHistory(msgs + [u])) == MapHistory(ValidHistory(msgs)) + [ToContent(u)]
  {
    ValidHistoryAppend(msgs, [u]);
    assert ValidHistory([u]) == [u];
    MapHistoryAppend(ValidHistory(msgs), [u]);
    assert MapHistory([u]) == [ToContent(u)];
  }

  /** The request of a submit carries the new user message twice: as the last
      history entry, and again as the new turn's message (all of it for a
      non-empty input, its attachment parts for an empty one). */
  lemma NewTurnSentTwice(turn: Turn, modelName: string, msgs: seq<Message>, clock: Clock,
                         input: string, atts: seq<Attachment>, config: GenerationConfig,
                         apiKey: Option<string>, provider: ProviderStream)
    requires StreamedFrom(turn, modelName, msgs + [UserMessage(clock, input, atts)], input, atts,
                          config, apiKey, provider)
    requires GetClient(apiKey).Success?
    ensures var u := UserMessage(clock, input, atts);
            var h := turn.request.value.session.history;
            && |h| >= 1 && h[|h| - 1] == ToContent(u)
            && (input != "" ==> turn.request.value.message == ToContent(u).parts)
            && (input == "" ==> turn.request.value.message == ToContent(u).parts[..|atts|])
  {
    var u := UserMessage(clock, input, atts);
    HistoryEndsWithNewTurn(msgs, u);
    var parts := turn.request.value.message;
    EmptyPromptDropsTextPart(parts, input, u);
    if input == "" {
      assert forall i :: 0 <= i < |atts| ==> parts[i] == ToContent(u).parts[..|atts|][i];
    }
  }

  /** The component state of App. */
  class ChatStore {
    var messages: seq<Message>
    var input: string
    var attachments: seq<Attachment>
    var isLoading: bool
    var selectedModel: string
    var config: GenerationConfig

    constructor ()
      ensures messages == [] && input == "" && attachments == [] && !isLoading
      ensures selectedModel == DefaultModel && config == DefaultConfig
    {
      messages := [];
      input := "";
      attachments := [];
      isLoading := false;
      selectedModel := DefaultModel;
      config := DefaultConfig;
    }

    /** The textarea's `onChange`. */
    method SetInput(text: string)
      modifies this`input
      ensures input == text
    {
      input := text;
    }

    /** The sidebar's `onConfigChange`. */
    method SetConfig(c: GenerationConfig)
      modifies this`config
      ensures config == c
    {
      config := c;
    }

    /** The sidebar's `onModelChange`. */
    method SetModel(model: string)
      modifies this`selectedModel
      ensures selectedModel == model
    {
      selectedModel := model;
    }

    /** `removeAttachment` */
    method RemoveAttachment(index: int)
      modifies this`attachments
      ensures attachments == RemoveAt(old(attachments), index)
    {
      attachments := RemoveAt(attachments, index);
    }

    /** `handleClearChat`: empties the transcript, the attachments and the
        input; the model, the config and the busy flag stay. */
    method HandleClearChat()
      modifies this`messages, this`attachments, this`input
      ensures messages == [] && attachments == [] && input == ""
      ensures selectedModel == old(selectedModel) && config == old(config) && isLoading == old(isLoading)
    {
      messages := [];
      attachments := [];
      input := "";
    }

    /** `handleFileUpload`: an empty selection does nothing; otherwise the
        converted files go after the pending attachments, in selection order,
        and each unreadable file is alerted and skipped. */
    method HandleFileUpload(files: seq<SelectedFile>) returns (alerts: seq<string>)
      modifies this`attachments
      ensures files == [] ==> attachments == old(attachments) && alerts == []
      ensures files != [] ==> attachments == old(attachments) + Converted(files)
      ensures alerts == LoadAlerts(files)
    {
      alerts := [];
      if |files| > 0 {
        var newAttachments;
        newAttachments, alerts := ConvertFiles(files);
        attachments := attachments + newAttachments;
      }
    }

    /** `handleSubmit` up to its first `await`: the guard, the user message,
        clearing the input and attachments, the busy flag and the placeholder. */
    method SubmitStart(clock: Clock) returns (pending: Option<PendingTurn>)
      modifies this`messages, this`input, this`attachments, this`isLoading
      ensures pending.None? <==> !CanSubmit(old(input), old(attachments), old(isLoading))
      ensures pending.None? ==>
                && messages == old(messages) && input == old(input)
                && attachments == old(attachments) && isLoading == old(isLoading)
      ensures pending.Some? ==>
                var u := UserMessage(clock, old(input), old(attachments));
                && messages == old(messages) + [u, Placeholder(clock)]
                && input == "" && attachments == [] && isLoading
                && pending.value == PendingTurn(selectedModel, old(messages) + [u], old(input),
                                                old(attachments), config, PlaceholderId(clock))
    {
      if (Strings.Trim(input) == "" && |attachments| == 0) || isLoading {
        return None;
      }
      var userMessage := UserMessage(clock, input, attachments);
      var before := messages;
      messages := messages + [userMessage];
      input := "";
      attachments := [];
      isLoading := true;
      var aiPlaceholder := Placeholder(clock);
      messages := messages + [aiPlaceholder];
      pending := Some(PendingTurn(selectedModel, before + [userMessage], userMessage.text,
                                  userMessage.AttachmentList(), config, aiPlaceholder.id));
    }

    /** The `onChunk` callback. */
    method ApplyChunk(id: string, currentText: string)
      modifies this`messages
      ensures messages == SetTextById(old(messages), id, currentText)
    {
      messages := SetTextById(messages, id, currentText);
    }

    /** The `catch` block. */
    method MarkFailed(id: string, e: Error)
      modifies this`messages
      ensures messages == MarkErrorById(old(messages), id, e)
    {
      messages := MarkErrorById(messages, id, e);
    }

    /** `handleSubmit` after the stream: each `onChunk` value in order, the
        error update if the stream threw, and the `finally`. */
    method SubmitFinish(id: string, turn: Turn)
      modifies this`messages, this`isLoading
      ensures messages == AfterTurn(old(messages), id, turn)
      ensures !isLoading
    {
      var calls := turn.callbacks;
      for i := 0 to |calls|
        invariant messages == if i == 0 then old(messages) else SetTextById(old(messages), id, calls[i - 1])
      {
        if i > 0 {
          SetTextLastWins(old(messages), id, calls[i - 1], calls[i]);
        }
        ApplyChunk(id, calls[i]);
      }
      if turn.result.Failure? {
        if |calls| > 0 {
          ErrorHidesChunks(old(messages), id, calls[|calls| - 1], turn.result.error);
        }
        MarkFailed(id, turn.result.error);
      }
      isLoading := false;
    }

    /** One whole `handleSubmit`, the provider's answer and the credential given. */
    method HandleSubmit(clock: Clock, apiKey: Option<string>, provider: ProviderStream)
      returns (turn: Option<Turn>)
      modifies this`messages, this`input, this`attachments, this`isLoading
      ensures turn.None? <==> !CanSubmit(old(input), old(attachments), old(isLoading))
      ensures turn.None? ==>
                && messages == old(messages) && input == old(input)
                && attachments == old(attachments) && isLoading == old(isLoading)
      ensures turn.Some? ==>
                var u := UserMessage(clock, old(input), old(attachments));
                var p := Placeholder(clock);
                && StreamedFrom(turn.value, selectedModel, old(messages) + [u], old(input),
                                old(attachments), config, apiKey, provider)
                && messages == AfterTurn(old(messages) + [u, p], p.id, turn.value)
                && input == "" && attachments == [] && !isLoading
    {
      var pending := SubmitStart(clock);
      if pending.None? {
        return None;
      }
      var args := pending.value;
      var t := StreamResponse(args.modelName, args.history, args.prompt, args.attachments,
                              args.config, apiKey, provider);
      SubmitFinish(args.placeholderId, t);
      turn := Some(t);
    }
  }

  /** Submitting "Hello" to a fresh store, with the two chunks "Hi" and
      " there", leaves the user message and a non-error reply "Hi there". */
  method HelloScenario() returns (transcript: seq<Message>)
    ensures |transcript| == 2
    ensures transcript[0].role == User && transcript[0].text == "Hello"
    ensures transcript[1].role == Model && transcript[1].text == "Hi there" && !transcript[1].isError
  {
    var store := new ChatStore();
    store.SetInput("Hello");
    HelloCanSubmit();
    var turn := store.HandleSubmit(HelloClock, Some("key"), HelloProvider);
    assert [] + [UserMessage(HelloClock, "Hello", [])] == [UserMessage(HelloClock, "Hello", [])];
    HelloTurnSettles(turn.value);
    transcript := store.messages;
  }

  const HelloClock := Clock(5, 5, 5, 5)
  const HelloProvider := ProviderStream([Chunk(Some("Hi")), Chunk(Some(" there"))], Completed)

  lemma HelloCanSubmit()
    ensures CanSubmit("Hello", [], false)
  {
  }

  lemma HelloTurnSettles(turn: Turn)
    requires StreamedFrom(turn, DefaultModel, [UserMessage(HelloClock, "Hello", [])], "Hello", [],
                          DefaultConfig, Some("key"), HelloProvider)
    ensures var u, p := UserMessage(HelloClock, "Hello", []), Placeholder(HelloClock);
            AfterTurn([u] + [p], p.id, turn) == [u, p.(text := "Hi there")]
  {
    var u, p := UserMessage(HelloClock, "Hello", []), Placeholder(HelloClock);
    DistinctTurnIds(HelloClock, "Hello", []);
    TurnSettlesPlaceholder([u], p, turn, DefaultModel, [u], "Hello", [], DefaultConfig,
                           Some("key"), HelloProvider);
    HelloText(HelloProvider.chunks);
  }

  lemma HelloText(chunks: seq<Chunk>)
    requires chunks == [Chunk(Some("Hi")), Chunk(Some(" there"))]
    ensures JoinedText(chunks) == "Hi there"
  {
    var first := chunks[..1];
    assert first == [Chunk(Some("Hi"))] && first[..0] == [];
    assert JoinedText(first) == "Hi";
    assert chunks[..|chunks| - 1] == first;
    assert JoinedText(chunks) == "Hi" + " there";
  }
}
