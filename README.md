# Chat-turn pipeline of a Gemini chat UI, in Dafny

This project models the logic of a single-page chat client that is not presentation.
That logic is the pipeline of one chat turn. The conversation store (`App.tsx`) holds the
transcript, the pending input, the pending attachments, the busy flag, the selected model
and the sampling config. Its handlers submit a turn, clear the chat, remove an attachment
and add uploaded files. The streaming adapter (`services/geminiService.ts`) checks the API
key, filters error-flagged messages out of the history, maps the history and the new turn
onto the provider's content parts, and folds the streamed chunks into a running text. A
callback receives that text after every chunk.

Modules, one per source file:

- `Wrappers` (`wrappers.dfy`): `Option` and `Result`.
- `Types` (`types.dfy`): `Role`, `Attachment`, `Message` and `GenerationConfig` from `types.ts`, and the thrown JavaScript `Error`.
- `Strings` (`strings.dfy`): the JavaScript string operations the pipeline uses. These are `trim()` (with the exact ECMAScript white-space set), `split(',')` with its inverse `join`, and `toString()` of the integers that `Date.now()` returns.
- `GeminiService` (`gemini_service.dfy`): `getClient`, `streamResponse` and `fileToGenerativePart`.
- `App` (`app.dfy`): the class `ChatStore` with the component's state and handlers, plus the pure updaters it uses.

How it is modelled:

- The provider is an input, `ProviderStream`. It is the sequence of chunks the stream delivers, then either completion or an error. A failure to create the session or to open the stream is an error after no chunks.
- `onChunk` is recorded. `StreamResponse` returns the `Turn`: the request it issued, every value it passed to `onChunk` in order, and how its promise settled.
- `handleSubmit` is split at its first `await`. `SubmitStart` is the synchronous part: guard, user message, clearing, busy flag, placeholder. `SubmitFinish` applies each `onChunk` value through the chunk updater, in order, then the `catch` updater, then the `finally`. `HandleSubmit` composes the two around `StreamResponse`. Because `SubmitStart` is public, a store can be mid-turn, so the `isLoading` guard is observable.
- The `Date.now()` calls are a `Clock` reading per call. The user message's id is the decimal string of its reading; the placeholder's id is that of its reading plus one.
- The process environment's key is an `Option<string>` parameter.
- Each file read by `FileReader` is an input: a data URL or an error.

## Model

| member | source | states |
|---|---|---|
| GeminiService.GetClient | services/geminiService.ts:5-11 | an absent or empty key fails with the missing-key error; any other key yields a client holding exactly that key |
| GeminiService.MissingKeyStopsEarly | services/geminiService.ts:5-21 | without a key `streamResponse` issues no request, never calls `onChunk`, and rejects with the missing-key error |
| GeminiService.ValidHistory | services/geminiService.ts:25 | a message is kept iff it is in the history and not error-flagged; never longer than the history |
| GeminiService.ValidHistorySingle | services/geminiService.ts:25 | a one-message history is kept as it is, or dropped entirely when the message is error-flagged |
| GeminiService.ValidHistoryAppend | services/geminiService.ts:25 | filtering commutes with concatenation, so kept messages keep their order and multiplicity |
| GeminiService.ValidHistoryOfClean | services/geminiService.ts:25 | a history with no error-flagged message is passed through unchanged |
| Types.Message.AttachmentList | services/geminiService.ts:68-70 | a message's attachment list is its attachments when present and the empty list when absent |
| GeminiService.AttachmentParts | services/geminiService.ts:68-70 | one inline-data part per attachment, same index, same mime type and data |
| GeminiService.ToContent | services/geminiService.ts:65-73 | a history entry has the message's role, its attachments as inline data in order, then exactly one text part equal to its text, even when empty |
| GeminiService.MapHistory | services/geminiService.ts:65-73 | one entry per filtered message, in order, each the message's content |
| GeminiService.MapHistoryAppend | services/geminiService.ts:65-73 | the mapping commutes with concatenation |
| GeminiService.BuildCurrentParts | services/geminiService.ts:28-43 | the new turn's parts are every attachment as inline data, in order, then a text part only if the prompt is non-empty; the length is the attachment count plus one for a non-empty prompt |
| GeminiService.EmptyPromptDropsTextPart | services/geminiService.ts:40-43 | the new turn's parts equal those of a history entry with the same text and attachments exactly when the prompt is non-empty |
| GeminiService.ChunkText | services/geminiService.ts:82 | a chunk contributes its text when it has one and "" otherwise |
| GeminiService.JoinedTextAppend | services/geminiService.ts:80-85 | the text of a chunk sequence is the concatenation of the texts of its parts |
| GeminiService.JoinedTextPrefix | services/geminiService.ts:80-85 | the cumulative text after k chunks is a prefix of that after any later count |
| GeminiService.ChunksAreDeltas | services/geminiService.ts:82-83 | chunk texts are appended, so cumulative snapshots "Hi", "Hi there" give "HiHi there" |
| GeminiService.Accumulate | services/geminiService.ts:80-86 | `onChunk` is called once per chunk; the k-th value is the concatenation of the first k chunk texts, an absent text counting as ""; the returned text is the concatenation of all of them |
| GeminiService.StreamResponse | services/geminiService.ts:13-92 | without a key: no request, no callback, the missing-key error. With a key: the request names the model; it passes temperature, topP, topK and systemInstruction through unchanged; its history is the mapped non-error history and its message the new turn's parts. The callbacks are the cumulative texts. It resolves with the whole text on completion and rejects with the provider's error on a broken stream |
| GeminiService.CallbacksGrow | services/geminiService.ts:80-86 | each value passed to `onChunk` is a prefix of the next; the last one is the whole text, and it is the resolved value when the stream completes |
| GeminiService.FileToGenerativePart | services/geminiService.ts:94-110 | a read error rejects with that error; a loaded file gives an attachment with the file's mime type and name, whose data holds no comma |
| GeminiService.DataUrlRoundTrip | services/geminiService.ts:98-104 | for a data URL `data:<mime>;base64,<payload>` with a comma-free mime type and payload, the attachment's data is exactly the payload |
| GeminiService.DataAfterFirstComma | services/geminiService.ts:98-104 | for any data URL whose part before the first comma is comma-free, the attachment's data is the first comma-separated segment after that comma |
| Strings.Split | services/geminiService.ts:100 | a split always has at least one segment |
| Strings.JoinSplit | services/geminiService.ts:100 | joining the segments of a split with the separator gives back the string |
| Strings.SplitSegmentsFree | services/geminiService.ts:100 | no segment of a split contains the separator |
| Strings.SplitHasSecond | services/geminiService.ts:100 | a string holding the separator splits into at least two segments, so index 1 exists |
| Strings.SplitFree | services/geminiService.ts:100 | a string without the separator splits into itself alone |
| Strings.SplitAtFirst | services/geminiService.ts:100 | splitting at the first separator yields the separator-free prefix, then the segments of the rest |
| Strings.Trim | App.tsx:76 | the trimmed string is no longer than the input and, unless empty, neither starts nor ends with white space |
| Strings.TrimShape | App.tsx:76 | the trimmed string is a contiguous slice of the input, and everything before and after that slice is white space |
| Strings.TrimStartShape | App.tsx:76 | trimming the start drops a white-space prefix and keeps the rest, which does not start with white space |
| Strings.TrimEndShape | App.tsx:76 | trimming the end drops a white-space suffix and keeps the rest, which does not end with white space |
| Strings.TrimEmptyIffBlank | App.tsx:76 | `trim()` yields "" exactly when every character is ECMAScript white space or a line terminator |
| Strings.DecimalString | App.tsx:79-92 | the decimal id of a reading has at least one digit, and at least two from 10 on |
| Strings.DecimalInjective | App.tsx:79-92 | distinct readings give distinct id strings |
| App.UserMessage | App.tsx:78-84 | the user message has role USER, the decimal string of the first clock reading (`clock.userId`) as id, the raw input as text, exactly the pending attachments, the second clock reading (`clock.userTime`) as timestamp, and no error flag |
| App.PlaceholderId | App.tsx:92 | the placeholder's id is never the id of the reading it is taken from, since it is one more |
| App.Placeholder | App.tsx:93-98 | the placeholder has that id, role MODEL, empty text, no attachments, no error flag, and the last clock reading as timestamp |
| App.CanSubmit | App.tsx:76 | a submit never proceeds while a turn is in flight, and always proceeds when idle with an attachment |
| App.ErrorText | App.tsx:116 | the error text is "Error: " followed by the error's message, or by "Something went wrong." when the message is empty |
| App.DistinctTurnIds | App.tsx:78-99 | on a clock that does not go backwards, the placeholder's id differs from the user message's |
| App.CanSubmitIff | App.tsx:76 | a submit proceeds exactly when no turn is in flight and the input is not all white space or there is an attachment |
| App.SetTextById | App.tsx:109-111 | every message whose id matches gets the new text and keeps everything else; other messages, the length and the order are unchanged; an absent id changes nothing |
| App.MarkErrorById | App.tsx:115-117 | the message whose id matches gets "Error: " plus the message, or "Error: Something went wrong." for none, and the error flag; nothing else changes; an absent id changes nothing |
| App.SetTextLastWins | App.tsx:108-112 | two chunk updates of the same id leave what the second alone leaves |
| App.ErrorHidesChunks | App.tsx:101-117 | the error update after a chunk update leaves what the error update alone leaves |
| App.AfterTurn | App.tsx:101-117 | a finished turn keeps the length and every message with another id; a message with the placeholder's id keeps its id, role, attachments and timestamp, and gets the error text and flag if the stream threw, else the last callback value as text, or stays as it was when there was no callback |
| App.TurnSettlesPlaceholder | App.tsx:101-119 | when the placeholder's id is unique, a finished turn changes only the placeholder. On success its text is the whole streamed text; on failure it gets the error text and the error flag. |
| App.RemoveAt | App.tsx:65-67 | an in-range index removes exactly that element and keeps the others in order; any other index changes nothing |
| App.ConvertedAppend | App.tsx:50-58 | a batch yields the attachments and alerts of its parts, concatenated in selection order |
| App.ConvertedCount | App.tsx:50-58 | every file yields exactly one attachment or one alert |
| App.OneUnreadableOfThree | App.tsx:50-58 | three files with the middle one unreadable yield the other two, in order, and one alert naming the unreadable file |
| App.ConvertFiles | App.tsx:48-58 | the loop pushes the converted readable files in order and alerts "Failed to load <name>" for each failed one |
| App.HistoryEndsWithNewTurn | App.tsx:104 | the mapped history of a transcript extended by a non-error message is the old mapped history followed by that message's content |
| App.NewTurnSentTwice | App.tsx:102-106 | the request a submit issues has a history whose last entry is the new user message's content, and a message that repeats that content's parts, or only its attachment parts for an empty input |
| App.ChatStore.constructor | App.tsx:10-22 | an empty transcript, input and attachment list; not loading; model gemini-3-flash-preview; temperature 0.7, topK 40, topP 0.95, empty system instruction |
| App.ChatStore.SetInput | App.tsx:253 | the input becomes the textarea's value |
| App.ChatStore.SetConfig | App.tsx:147 | the config becomes the sidebar's value |
| App.ChatStore.SetModel | App.tsx:149 | the selected model becomes the sidebar's choice |
| App.ChatStore.RemoveAttachment | App.tsx:65-67 | the attachments lose exactly the element at the index, or stay as they are for an out-of-range index |
| App.ChatStore.HandleClearChat | App.tsx:69-73 | transcript, attachments and input are emptied; model, config and busy flag are untouched |
| App.ChatStore.HandleFileUpload | App.tsx:45-63 | an empty selection changes nothing. Otherwise the converted readable files are appended after the existing attachments in selection order, and each failed file is alerted and skipped |
| App.ChatStore.SubmitStart | App.tsx:75-99 | if the guard fails nothing changes. Otherwise it appends the USER message (raw input, copy of the attachments), then the empty MODEL placeholder. It clears input and attachments and sets the busy flag. The stream then gets the old transcript plus the user message, the raw input, the old attachments, the model and the config |
| App.ChatStore.ApplyChunk | App.tsx:108-112 | the transcript becomes the chunk update of the placeholder id with the cumulative text |
| App.ChatStore.MarkFailed | App.tsx:114-117 | the transcript becomes the error update of the placeholder id |
| App.ChatStore.SubmitFinish | App.tsx:101-122 | after the callbacks and the error update the transcript reflects only the last chunk, or the error if the stream threw; the busy flag is false whatever the outcome |
| App.ChatStore.HandleSubmit | App.tsx:75-123 | a guarded submit changes nothing. Otherwise the stream is run on the pre-submit transcript plus the user message, with the raw input, the pending attachments, the selected model and the config. The transcript ends as the finished-turn update (`App.AfterTurn`) of the old one, then the user message, then the placeholder: when no earlier message has the placeholder's id, that is the old transcript, the user message and the settled placeholder (see `App.TurnSettlesPlaceholder`); an earlier message with that id is rewritten as well. Input and attachments are empty and the busy flag false |
| App.HelloScenario | App.tsx:75-123 | submitting "Hello" to a fresh store with chunks "Hi" and " there" leaves two messages: the user's "Hello" and a non-error reply "Hi there" |

## Where the code departs from its evident intent

The model follows the code in each case. A lemma shows what the code does.

- The history passed to `streamResponse` already ends with the new user message (`App.tsx:104`). That message is sent a second time as the new turn, although it is evidently meant to go out only once, as the prompt. See `App.NewTurnSentTwice`.
- The new turn's text part is omitted when the prompt is empty (`services/geminiService.ts:41`). Every history entry gets a text part, even an empty one (`services/geminiService.ts:71`). The two evidently mean to build one shape from the same text and attachments. See `GeminiService.EmptyPromptDropsTextPart`.
- Nothing makes an error-flagged message final. A later chunk update with the same id would still change it. Within one modelled turn no chunk update follows the error update.
- The history mapping treats all roles alike. A MODEL message with attachments would send them too. MODEL messages that the code creates have no attachments.

## Caveats

- Chunk texts are appended as deltas (`services/geminiService.ts:82-83`). This is what the code intends, but it assumes the provider streams deltas. A provider that sent cumulative snapshots would get its text repeated: "Hi", "Hi there" gives "HiHi there". See `GeminiService.ChunksAreDeltas`.

## Left out

- components/Sidebar.tsx, components/ChatMessage.tsx and components/Icons.tsx: pure rendering with no state logic.
- The `@google/genai` SDK: `ai.chats.create` and `sendMessageStream` are a foreign library. The provider's answer is the `ProviderStream` input, and the request is recorded in `Turn.request`.
- async/await and React's asynchronous `setState`: one turn is a sequential run. Interleavings of other handlers between `SubmitStart` and `SubmitFinish` are only as fine-grained as the public methods. The model reads the current `isLoading`, `messages`, `input`, `attachments`, `selectedModel` and `config`, whereas `handleSubmit` reads the values captured in its render closure (`App.tsx:75-106`).
- `process.env`, `FileReader`, `console.error`, `alert`, the refocus `setTimeout`, scroll-into-view, textarea auto-resize, the file-input reset and the sidebar's open flag: browser and I/O plumbing. The key and the read results are inputs, and the alert texts are returned.
- `Date.now()`: its readings are the `Clock` parameter. Message ids are not guaranteed unique across turns, because the clock is external. `App.TurnSettlesPlaceholder` therefore assumes the placeholder's id is unique.
- Floating-point config values: modelled as reals that are only passed through.
- Errors are reduced to their message. An absent message and an empty one are both "", and the source treats them alike.
- FileToGenerativePart: its input is a data URL that contains a comma. A read result without a comma is not modelled; a browser may produce `data:` alone for an empty file, and the source would then store `undefined` as the data, which a string cannot hold. Its own contract says only that the data is comma-free. `GeminiService.DataAfterFirstComma` states what the data is for any data URL, whatever its prefix, and `GeminiService.DataUrlRoundTrip` that it is exactly the payload for URLs of the `data:<mime>;base64,<payload>` form.
- JavaScript strings are sequences of UTF-16 code units; a Dafny `string` is a sequence of Unicode scalar values, so a lone surrogate cannot be represented. No modelled behaviour depends on this: `trim()` and `split(',')` only match characters of the Basic Multilingual Plane.
