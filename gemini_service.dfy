/** The streaming adapter of services/geminiService.ts: the credential check,
    the request built from the transcript, the chunk accumulation loop, and the
    conversion of a file into an attachment. The provider SDK is not modelled:
    its answer to one request is an input, a sequence of chunks followed by
    either the end of the stream or an error. */
module GeminiService {
  import opened Wrappers
  import opened Types
  import Strings

  /* ---- getClient ---- */

  const MissingKeyMessage := "API Key is missing. Please ensure process.env.API_KEY is set."

  /** A client built for an API key. */
  datatype Client = Client(apiKey: string)

  /** `getClient`: fails for an absent or empty key (both falsy), otherwise
      builds a client holding that key. */
  function GetClient(apiKey: Option<string>): (r: Result<Client, Error>)
    ensures r.Success? <==> apiKey.Some? && apiKey.value != ""
    ensures r.Success? ==> r.value.apiKey == apiKey.value
    ensures r.Failure? ==> r.error == Error(MissingKeyMessage)
  {
    if apiKey.None? || apiKey.value == "" then Failure(Error(MissingKeyMessage))
    else Success(Client(apiKey.value))
  }

  /* ---- request shape ---- */

  /** A content part: inline binary data tagged with its mime type, or text. */
  datatype Part = InlineData(mimeType: string, data: string) | TextPart(text: string)

  /** A role-tagged history entry. */
  datatype Content = Content(role: Role, parts: seq<Part>)

  /** The session config handed to `ai.chats.create`. */
  datatype SessionConfig = SessionConfig(
    temperature: real,
    topP: real,
    topK: int,
    systemInstruction: Option<string>)

  /** The arguments of `ai.chats.create`. */
  datatype ChatSession = ChatSession(model: string, config: SessionConfig, history: seq<Content>)

  /** What reaches the provider: the session and the new turn's parts. */
  datatype Request = Request(session: ChatSession, message: seq<Part>)

  /** One streamed chunk; its text may be absent. */
  datatype Chunk = Chunk(text: Option<string>)

  /** How the provider's stream ends after its chunks. A failure of session
      creation or of opening the stream is a `Broken` end after no chunks. */
  datatype StreamEnd = Completed | Broken(error: Error)

  /** The provider's whole answer to one request. */
  datatype ProviderStream = ProviderStream(chunks: seq<Chunk>, end: StreamEnd)

  /** One run of `streamResponse`: the request it issued (none when it threw
      first), the values it passed to `onChunk` in call order, and how its
      promise settled. */
  datatype Turn = Turn(request: Option<Request>, callbacks: seq<string>, result: Result<string, Error>)

  /** `history.filter(m => !m.isError)` */
  function ValidHistory(history: seq<Message>): (r: seq<Message>)
    ensures |r| <= |history|
    ensures forall m :: m in r <==> m in history && !m.isError
  {
    if history == [] then []
    else (if history[0].isError then [] else [history[0]]) + ValidHistory(history[1..])
  }

  /** The filter works message by message: it commutes with concatenation, so
      the kept messages keep their order and multiplicity. */
  lemma {:induction false} ValidHistoryAppend(a: seq<Message>, b: seq<Message>)
    ensures ValidHistory(a + b) == ValidHistory(a) + ValidHistory(b)
  {
    if a != [] {
      assert (a + b)[1..] == a[1..] + b;
      ValidHistoryAppend(a[1..], b);
    } else {
      assert a + b == b;
    }
  }

  /** A single message is kept exactly when it is not error-flagged; with
      ValidHistoryAppend this fixes the result as the in-order subsequence. */
  lemma ValidHistorySingle(m: Message)
    ensures ValidHistory([m]) == if m.isError then [] else [m]
  {
    assert [m][1..] == [];
  }

  /** A history without error-flagged messages passes unchanged. */
  lemma {:induction false} ValidHistoryOfClean(history: seq<Message>)
    requires forall i :: 0 <= i < |history| ==> !history[i].isError
    ensures ValidHistory(history) == history
  {
    if history != [] {
      ValidHistoryOfClean(history[1..]);
    }
  }

  /** Attachments as inline-data parts, in order. */
  function AttachmentParts(atts: seq<Attachment>): (r: seq<Part>)
    ensures |r| == |atts|
    ensures forall i :: 0 <= i < |atts| ==> r[i] == InlineData(atts[i].mimeType, atts[i].data)
  {
    if atts == [] then []
    else [InlineData(atts[0].mimeType, atts[0].data)] + AttachmentParts(atts[1..])
  }

  /** A history entry: the message's role; its attachments as inline data,
      then exactly one text part holding its text, even an empty one. */
  function ToContent(m: Message): (r: Content)
    ensures r.role == m.role
    ensures |r.parts| == |m.AttachmentList()| + 1
    ensures forall i :: 0 <= i < |m.AttachmentList()| ==>
              r.parts[i] == InlineData(m.AttachmentList()[i].mimeType, m.AttachmentList()[i].data)
    ensures r.parts[|m.AttachmentList()|] == TextPart(m.text)
  {
    Content(m.role, AttachmentParts(m.AttachmentList()) + [TextPart(m.text)])
  }

  /** `validHistory.map(...)`: one entry per message, in order. */
  function MapHistory(history: seq<Message>): (r: seq<Content>)
    ensures |r| == |history|
    ensures forall i :: 0 <= i < |history| ==> r[i] == ToContent(history[i])
  {
    if history == [] then [] else [ToContent(history[0])] + MapHistory(history[1..])
  }

  lemma MapHistoryAppend(a: seq<Message>, b: seq<Message>)
    ensures MapHistory(a + b) == MapHistory(a) + MapHistory(b)
  {
  }

  /** The parts of the new turn: each attachment as inline data, in order,
      then a text part only when the prompt is non-empty. */
  ghost predicate IsCurrentParts(parts: seq<Part>, prompt: string, atts: seq<Attachment>) {
    && |parts| == |atts| + (if prompt != "" then 1 else 0)
    && (forall i :: 0 <= i < |atts| ==> parts[i] == InlineData(atts[i].mimeType, atts[i].data))
    && (prompt != "" ==> parts[|atts|] == TextPart(prompt))
  }

  /** `currentParts`, built by pushing into an array. */
  method BuildCurrentParts(prompt: string, currentAttachments: seq<Attachment>) returns (parts: seq<Part>)
    ensures IsCurrentParts(parts, prompt, currentAttachments)
  {
    parts := [];
    for i := 0 to |currentAttachments|
      invariant |parts| == i
      invariant forall j :: 0 <= j < i ==>
                  parts[j] == InlineData(currentAttachments[j].mimeType, currentAttachments[j].data)
    {
      var att := currentAttachments[i];
      parts := parts + [InlineData(att.mimeType, att.data)];
    }
    if prompt != "" {
      parts := parts + [TextPart(prompt)];
    }
  }

  /** The new turn and a history entry of the same text and attachments differ
      exactly when the prompt is empty: the history entry keeps an empty text
      part, the new turn drops it. */
  lemma EmptyPromptDropsTextPart(parts: seq<Part>, prompt: string, m: Message)
    requires IsCurrentParts(parts, prompt, m.AttachmentList())
    requires m.text == prompt
    ensures parts == ToContent(m).parts <==> prompt != ""
  {
  }

  /* ---- the accumulation loop ---- */

  /** `chunk.text || ""` */
  function ChunkText(c: Chunk): (r: string)
    ensures c.text.Some? ==> r == c.text.value
    ensures c.text.None? ==> r == ""
  {
    c.text.GetOr("")
  }

  /** The concatenation of the chunk texts, an absent text counting as "". */
  function JoinedText(chunks: seq<Chunk>): string {
    if chunks == [] then "" else JoinedText(chunks[..|chunks| - 1]) + ChunkText(chunks[|chunks| - 1])
  }

  lemma {:induction false} JoinedTextAppend(a: seq<Chunk>, b: seq<Chunk>)
    ensures JoinedText(a + b) == JoinedText(a) + JoinedText(b)
  {
    if b != [] {
      var last := b[|b| - 1];
      assert (a + b)[..|a + b| - 1] == a + b[..|b| - 1];
      JoinedTextAppend(a, b[..|b| - 1]);
    } else {
      assert a + b == a;
    }
  }

  /** The cumulative text after the first k chunks is a prefix of that after
      the first k' >= k chunks. */
  lemma JoinedTextPrefix(chunks: seq<Chunk>, k: nat, k': nat)
    requires k <= k' <= |chunks|
    ensures JoinedText(chunks[..k]) <= JoinedText(chunks[..k'])
  {
    assert chunks[..k'] == chunks[..k] + chunks[k..k'];
    JoinedTextAppend(chunks[..k], chunks[k..k']);
  }

  /** Chunks are deltas: a provider that sent cumulative snapshots would have
      its text repeated. */
  lemma ChunksAreDeltas()
    ensures JoinedText([Chunk(Some("Hi")), Chunk(Some("Hi there"))]) == "HiHi there"
  {
  }

  /** The `for await` loop: grows `fullText` by each chunk's text and passes it
      to `onChunk` after every chunk. `calls` lists the values passed. */
  method Accumulate(chunks: seq<Chunk>) returns (fullText: string, calls: seq<string>)
    ensures |calls| == |chunks|
    ensures forall k :: 0 <= k < |chunks| ==> calls[k] == JoinedText(chunks[..k + 1])
    ensures fullText == JoinedText(chunks)
  {
    fullText := "";
    calls := [];
    for i := 0 to |chunks|
      invariant fullText == JoinedText(chunks[..i])
      invariant |calls| == i
      invariant forall k :: 0 <= k < i ==> calls[k] == JoinedText(chunks[..k + 1])
    {
      var chunkText := ChunkText(chunks[i]);
      assert chunks[..i + 1][..i] == chunks[..i];
      fullText := fullText + chunkText;
      calls := calls + [fullText];
    }
    assert chunks[..|chunks|] == chunks;
  }

  /* ---- streamResponse ---- */

  /** What one run of `streamResponse` does, given the key and the provider's
      answer. Without a key it throws before building anything and never calls
      `onChunk`. Otherwise it asks for `modelName` with the sampling values
      passed through unchanged, the non-error history mapped entry by entry,
      and the new turn's parts; it calls `onChunk` once per chunk with the
      cumulative text; it resolves with the whole text when the stream
      completes and rethrows the provider's error when it breaks. */
  ghost predicate StreamedFrom(turn: Turn, modelName: string, history: seq<Message>, prompt: string,
                               atts: seq<Attachment>, config: GenerationConfig,
                               apiKey: Option<string>, provider: ProviderStream)
  {
    if GetClient(apiKey).Failure? then
      turn == Turn(None, [], Failure(GetClient(apiKey).error))
    else
      && turn.request.Some?
      && turn.request.value.session.model == modelName
      && turn.request.value.session.config
           == SessionConfig(config.temperature, config.topP, config.topK, config.systemInstruction)
      && turn.request.value.session.history == MapHistory(ValidHistory(history))
      && IsCurrentParts(turn.request.value.message, prompt, atts)
      && |turn.callbacks| == |provider.chunks|
      && (forall k :: 0 <= k < |provider.chunks| ==>
            turn.callbacks[k] == JoinedText(provider.chunks[..k + 1]))
      && turn.result == match provider.end
                        case Completed => Success(JoinedText(provider.chunks))
                        case Broken(e) => Failure(e)
  }

  method StreamResponse(modelName: string, history: seq<Message>, prompt: string,
                        currentAttachments: seq<Attachment>, config: GenerationConfig,
                        apiKey: Option<string>, provider: ProviderStream)
    returns (turn: Turn)
    ensures StreamedFrom(turn, modelName, history, prompt, currentAttachments, config, apiKey, provider)
  {
    var client := GetClient(apiKey);
    if client.Failure? {
      return Turn(None, [], Failure(client.error));
    }
    var validHistory := ValidHistory(history);
    var currentParts := BuildCurrentParts(prompt, currentAttachments);
    var session := ChatSession(
      modelName,
      SessionConfig(config.temperature, config.topP, config.topK, config.systemInstruction),
      MapHistory(validHistory));
    var fullText, calls := Accumulate(provider.chunks);
    var result := match provider.end
                  case Completed => Success(fullText)
                  case Broken(e) => Failure(e);
    turn := Turn(Some(Request(session, currentParts)), calls, result);
  }

  /** A missing key means no request and no `onChunk` call. */
  lemma MissingKeyStopsEarly(turn: Turn, modelName: string, history: seq<Message>, prompt: string,
                             atts: seq<Attachment>, config: GenerationConfig,
                             apiKey: Option<string>, provider: ProviderStream)
    requires StreamedFrom(turn, modelName, history, prompt, atts, config, apiKey, provider)
    requires apiKey.None? || apiKey == Some("")
    ensures turn.request.None? && turn.callbacks == []
    ensures turn.result == Failure(Error(MissingKeyMessage))
  {
  }

  /** Each value passed to `onChunk` is a prefix of the next, and on a completed
      stream with at least one chunk the last value is the resolved text. */
  lemma CallbacksGrow(turn: Turn, modelName: string, history: seq<Message>, prompt: string,
                      atts: seq<Attachment>, config: GenerationConfig,
                      apiKey: Option<string>, provider: ProviderStream)
    requires StreamedFrom(turn, modelName, history, prompt, atts, config, apiKey, provider)
    ensures forall k :: 0 <= k < |turn.callbacks| - 1 ==> turn.callbacks[k] <= turn.callbacks[k + 1]
    ensures turn.callbacks != [] ==> turn.callbacks[|turn.callbacks| - 1] == JoinedText(provider.chunks)
    ensures turn.result.Success? && turn.callbacks != [] ==>
              turn.callbacks[|turn.callbacks| - 1] == turn.result.value
  {
    var cs := provider.chunks;
    forall k | 0 <= k < |turn.callbacks| - 1
      ensures turn.callbacks[k] <= turn.callbacks[k + 1]
    {
      JoinedTextPrefix(cs, k + 1, k + 2);
    }
    if turn.callbacks != [] {
      assert cs[..|cs|] == cs;
    }
  }

  /* ---- fileToGenerativePart ---- */

  /** A data URL as `readAsDataURL` produces it: `data:<mime>;base64,<payload>`,
      so it always holds a comma. */
  type DataUrl = s: string | ',' in s witness ","

  /** A selected file's declared name and mime type. */
  datatype File = File(name: string, mimeType: string)

  /** How the `FileReader` finished: with a data URL, or with an error. */
  datatype ReadResult = Loaded(dataUrl: DataUrl) | ReadFailed(error: Error)

  /** `fileToGenerativePart`: rejects with the reader's error, otherwise keeps
      the file's mime type and name and takes as data the segment after the
      first comma, which holds no comma. */
  function FileToGenerativePart(file: File, read: ReadResult): (r: Result<Attachment, Error>)
    ensures read.ReadFailed? ==> r == Failure(read.error)
    ensures read.Loaded? ==> r.Success? && r.value.mimeType == file.mimeType && r.value.name == file.name
    ensures read.Loaded? ==> ',' !in r.value.data
  {
    match read
    case ReadFailed(e) => Failure(e)
    case Loaded(url) =>
      Strings.SplitHasSecond(url, ',');
      Strings.SplitSegmentsFree(url, ',');
      Success(Attachment(file.mimeType, Strings.Split(url, ',')[1], file.name))
  }

  /** For any data URL, the data is the segment that follows the first comma,
      up to the next comma or the end, whatever comes before that comma. */
  lemma DataAfterFirstComma(file: File, head: string, rest: string)
    requires ',' !in head
    ensures var url := head + [','] + rest;
            ',' in url &&
            FileToGenerativePart(file, Loaded(url)).value.data == Strings.Split(rest, ',')[0]
  {
    var url := head + [','] + rest;
    assert url[|head|] == ',';
    Strings.SplitAtFirst(head, rest, ',');
  }

  /** The payload of a data URL built from a comma-free mime type and payload
      comes back unchanged. */
  lemma DataUrlRoundTrip(file: File, payload: string)
    requires ',' !in file.mimeType && ',' !in payload
    ensures var url := "data:" + file.mimeType + ";base64," + payload;
            ',' in url &&
            FileToGenerativePart(file, Loaded(url)) ==
              Success(Attachment(file.mimeType, payload, file.name))
  {
    var head := "data:" + file.mimeType + ";base64";
    var url := "data:" + file.mimeType + ";base64," + payload;
    assert url == head + [','] + payload;
    assert ',' !in head by {
      assert head == "data:" + file.mimeType + ";base64";
      forall k | 0 <= k < |head| ensures head[k] != ',' {
        if 5 <= k < 5 + |file.mimeType| { assert head[k] == file.mimeType[k - 5]; }
      }
    }
    Strings.SplitAtFirst(head, payload, ',');
    Strings.SplitFree(payload, ',');
  }
}
