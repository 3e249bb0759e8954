# botchat core, modelled in Dafny

botchat is a Next.js chat application. A React context keeps the conversation and sends
each turn to a chat endpoint. The endpoints route the request to an OpenAI or a Together
adapter, which sit on top of LangChain. A streaming endpoint emits the answer as
server-sent events, and a title endpoint names a conversation. Two Pages-router endpoints
index uploaded documents into a vector store, and query it, for retrieval.

This project models the decision logic and the state rules of that core. One Dafny module
stands for each source file:

| module | source file | form |
|---|---|---|
| `Chunker` | src/lib/chunkText.ts | a method with nested loops, proved equal to a fold (`Chunks`) |
| `ChatContext` | src/contexts/ChatContext.tsx | the class `ChatProvider` over a `seq<Message>`, plus the load-time backfill as a function |
| `Config` | src/lib/config.ts | the class `ConfigService` with a mutable `config` map and a persisted copy |
| `StreamRoute` | src/app/api/chat/stream/route.ts | an event-sequencing method with a loop, over an event datatype |
| `ChatRoute` | src/app/api/chat/route.ts | table lookups and the routing branch |
| `Models` | src/lib/models.ts | the constant provider and model tables |
| `OpenAIService` | src/lib/openai-service.ts | history conversion, error classification, the yield loop of the stream |
| `TogetherService` | src/lib/together-service.ts | history conversion, reply normalisation and error classification |
| `ChatUtils` | src/lib/chatUtils.ts | validation, truncation, word counts, reading time, summary, relative time |
| `ChatActions` | src/hooks/useChatActions.ts | export, statistics, search, lookup by index |
| `TitleRoute` | src/app/api/chat/generate-title/route.ts | prompt building and quote stripping |
| `RagQuery` | pages/api/rag-query.ts | validation, the `topK` default and the context join |
| `Upload` | pages/api/upload.ts | extractor dispatch and record building |
| `Typewriter` | src/hooks/useTypewriter.ts | the class `TypewriterState` with an explicit `Tick` |

Two more modules hold shared helpers:

- `Text` holds ECMAScript white space and `trim`, `includes`, `join`, decimal rendering and ASCII lower-casing.
- `Common` holds `Option`, thrown values, JSON-like request fields, senders and the LangChain message mapping.

The foreign calls are parameters of the operations that make them: the chat models, the
vector store, the file extractors and the chat service. Their outcome is given as a
datatype value. Clocks are parameters too.

## Model

| member | source | states |
|---|---|---|
| Chunker.ChunkText | src/lib/chunkText.ts:4-54 | the chunker's loops compute exactly `Chunks(text, chunkSize, overlap)`, the packing of the paragraph or sentence units from an empty buffer followed by the final flush, with the corrected sentence split |
| Chunker.AddUnit | src/lib/chunkText.ts:23-34 | one loop body: flush when the buffer is non-empty and trimmed buffer + " " + unit exceeds the chunk size, reseed with the overlap, then append with one separating space |
| Chunker.PackSentences | src/lib/chunkText.ts:21-35 | the inner loop packs the sentence units of one paragraph in order |
| Chunker.PackSplit | src/lib/chunkText.ts:18-49 | packing two unit lists one after the other equals packing their concatenation |
| Chunker.ParagraphsTrimmed | src/lib/chunkText.ts:11-14 | every paragraph unit is non-empty and has no white space at either end |
| Chunker.UnitsTrimmed | src/lib/chunkText.ts:13-47 | every unit appends a trimmed piece |
| Chunker.NoUnitsInEmptyText | src/lib/chunkText.ts:9 | the empty text has no units |
| Chunker.BlankTextHasNoChunks | src/lib/chunkText.ts:9-14 | a text of white space only gives no chunks |
| Chunker.ChunksTrimmed | src/lib/chunkText.ts:25-51 | every emitted chunk is a trimmed buffer |
| Chunker.PackKeepsChunks | src/lib/chunkText.ts:25-51 | chunks already emitted stay, in order, at the front of the result |
| Chunker.PackCount | src/lib/chunkText.ts:18-52 | each unit adds at most one chunk, and only a non-empty buffer adds one at the end |
| Chunker.ChunkCountAtMostUnits | src/lib/chunkText.ts:16-52 | there are never more chunks than units |
| Chunker.UnitTextIsChunked | src/lib/chunkText.ts:34-52 | the text of every unit appears whole in some chunk |
| Chunker.PackKeepsBufferText | src/lib/chunkText.ts:34-52 | text in the buffer reaches some chunk, because the buffer is flushed or reseeded from its own tail |
| Chunker.AdjacentChunksOverlap | src/lib/chunkText.ts:23-52 | `FlushedBuffers` lists the value of `currentChunk` at each push. Chunk `j` is the trimmed buffer `j`, and chunk `j + 1` holds the trimmed reseed of buffer `j`: its last `overlap` characters when `overlap` is positive and the buffer is longer, otherwise nothing |
| Chunker.AdjacentChunksShareTail | src/lib/chunkText.ts:25-34 | when `overlap` is positive, chunk `j` is longer than it and its buffer ends in a non-space, chunk `j + 1` holds the trimmed last `overlap` characters of chunk `j`, and that text is not empty |
| Chunker.OneChunkWithoutTerminators | src/lib/chunkText.ts:20-21 | a trimmed text with no terminator and no line feed is one chunk, however long it is, because the sentence fallback is the whole paragraph |
| Chunker.Sentences | src/lib/chunkText.ts:21 | the corrected sentence split: the sentences concatenate back to the paragraph and none is empty |
| Chunker.SentencesAsWritten | src/lib/chunkText.ts:21 | the sentence regex as written, with the whole-paragraph fallback |
| Chunker.SentencesAsWrittenDropTail | src/lib/chunkText.ts:21 | as written, "a. b" splits into ["a."], so " b" is lost |
| Chunker.ChunksAsWrittenDropTail | src/lib/chunkText.ts:18-53 | as written, "a. b" with a chunk size of 1 and no overlap gives the chunks ["a."], and no chunk holds "b"; the corrected chunker gives ["a.", "b"] |
| Chunker.TrimmedNonEmpty | src/lib/chunkText.ts:13-14 | the kept pieces are non-empty and trimmed |
| Chunker.SplitWithoutLineFeed | src/lib/chunkText.ts:12 | a string with no line feed is not split |
| Chunker.SplitAllSpace | src/lib/chunkText.ts:12 | the pieces of a blank text are blank |
| ChatContext.BotText | src/contexts/ChatContext.tsx:78-101 | on success the bot text is the response; on failure it is the fixed failure annotation followed by the service's error message |
| ChatContext.Backfill | src/contexts/ChatContext.tsx:43-49 | loading keeps length, order, sender and text, keeps existing timestamps and fills only the missing ones |
| ChatContext.BackfillIdempotent | src/contexts/ChatContext.tsx:43-49 | backfilling an already loaded list changes nothing |
| ChatContext.ChatProvider.constructor | src/contexts/ChatContext.tsx:33-59 | the state starts empty with both flags down, then holds the backfilled saved list, which is persisted |
| ChatContext.ChatProvider.Persist | src/contexts/ChatContext.tsx:57-59 | the stored copy becomes the whole current list and nothing else changes |
| ChatContext.ChatProvider.BeginSend | src/contexts/ChatContext.tsx:61-76 | a blank message changes nothing; otherwise exactly one trimmed user message is appended, both flags rise, the error clears, and the request carries the list as it was before the append |
| ChatContext.ChatProvider.CompleteSend | src/contexts/ChatContext.tsx:78-105 | exactly one bot message is appended, a failure sets `error` to the service's message, both flags go down |
| ChatContext.ChatProvider.SendMessage | src/contexts/ChatContext.tsx:61-106 | a non-blank send appends the user message and then one bot message, sends the old list as history, and ends with both flags down; a blank send is a no-op |
| ChatContext.ChatProvider.ClearMessages | src/contexts/ChatContext.tsx:108-112 | the list is empty and the error cleared, and the stored copy is the empty list |
| Config.Defaults | src/lib/config.ts:22-41 | the defaults have the three sections, each an object, and the model falls back to "gpt-3.5-turbo" |
| Config.Spread | src/lib/config.ts:57-81 | the object spread: keys of both, the right-hand value winning |
| Config.Loaded | src/lib/config.ts:51-63 | a parsed stored copy is spread over the defaults; a missing or malformed one leaves the defaults |
| Config.LoadAfterSave | src/lib/config.ts:57-67 | loading a saved config that has every default section gives it back |
| Config.LoadedHasSections | src/lib/config.ts:46-63 | every section is present after loading, whatever was stored |
| Config.ReloadKeepsSaved | src/lib/config.ts:46-67 | a service built over what `saveToStorage` wrote starts with the same config |
| Config.ConfigService.constructor | src/lib/config.ts:46-49 | a copy of the defaults, overlaid with the stored copy only in a browser |
| Config.ConfigService.LoadFromStorage | src/lib/config.ts:51-63 | a parsed stored copy in a browser is spread over the defaults; otherwise the config stays |
| Config.ConfigService.SaveToStorage | src/lib/config.ts:65-69 | in a browser the stored copy becomes the whole config |
| Config.ConfigService.Get | src/lib/config.ts:71-73 | returns the current section |
| Config.ConfigService.Set | src/lib/config.ts:75-78 | replaces only the named section, then persists the whole config |
| Config.ConfigService.Update | src/lib/config.ts:80-83 | the named section becomes its own fields overlaid with the updates, and other sections stay; then it persists |
| Config.ConfigService.Reset | src/lib/config.ts:85-88 | the config is the defaults again and is persisted |
| Config.ConfigService.GetAll | src/lib/config.ts:90-92 | returns a copy equal to the current config |
| Config.SetThenGet | src/lib/config.ts:71-78 | after `set(k, v)`, `get(k)` is `v` and every other section is unchanged |
| Config.UpdateChangesOnlyNamedKeys | src/lib/config.ts:80-83 | a key missing from the updates keeps its value |
| StreamRoute.Sequence | src/app/api/chat/stream/route.ts:31-82 | the enqueue loop emits exactly `Events(src)`: start, one chunk per value in order, one terminal event |
| StreamRoute.EventsShape | src/app/api/chat/stream/route.ts:31-82 | start comes first, then the chunks in order; exactly one terminal event comes last; it is `error` exactly when something was thrown |
| StreamRoute.Terminal | src/app/api/chat/stream/route.ts:43-77 | the last event is `done` or `error` |
| StreamRoute.Post | src/app/api/chat/stream/route.ts:10-103 | 500 for an unreadable body and 400 for a bad message; the listed models go through Together as one chunk; every other model goes through the OpenAI stream; no `error` event is ever sent |
| StreamRoute.TogetherStreamIsOneChunk | src/app/api/chat/stream/route.ts:35-45 | on the Together path the events are exactly start, one chunk with the whole reply, done |
| StreamRoute.OnlyOneTableModelStreamsViaTogether | src/app/api/chat/stream/route.ts:5-8 | of the table's Together models only Llama 3.1 8B Instruct Turbo streams via Together |
| StreamRoute.RoutesDisagreeOnLlama2 | src/app/api/chat/stream/route.ts:5-8 | "togethercomputer/llama-2-70b-chat" goes to Together here but to OpenAI on the non-streaming route |
| StreamRoute.ChunkEvents | src/app/api/chat/stream/route.ts:54-61 | one chunk event per value, in order |
| ChatRoute.FindModel | src/app/api/chat/route.ts:19 | the entry found has the requested value, and none is found exactly when no entry has it |
| ChatRoute.FindModelFrom | src/app/api/chat/route.ts:19 | the index found is the first entry with the requested value |
| ChatRoute.FindProvider | src/app/api/chat/route.ts:20 | the provider found has the model's provider id, and one is always found when there is a model |
| ChatRoute.UsesTogetherIff | src/app/api/chat/route.ts:19-30 | Together is used exactly for the Together models of the table |
| ChatRoute.UnknownModelUsesOpenAI | src/app/api/chat/route.ts:26-30 | an unknown or missing model goes to OpenAI, with no error |
| ChatRoute.OnlyMatch | src/app/api/chat/route.ts:19 | a model value matches at most one entry |
| ChatRoute.Post | src/app/api/chat/route.ts:6-40 | 500 for an unreadable body and 400 for a missing or non-string message; otherwise the routed adapter's reply is returned unchanged under `response` |
| Models.ModelValuesDistinct | src/lib/models.ts:17-45 | the model values are pairwise distinct |
| Models.ModelProvidersListed | src/lib/models.ts:6-45 | every model's provider is in the provider table |
| Models.DefaultModelFirst | src/lib/models.ts:19 | the first entry is gpt-4o-mini on OpenAI |
| Models.OpenAIModelsFirstTwo | src/lib/models.ts:19-44 | exactly the first two entries are OpenAI, all the others Together |
| Common.ToLangChain | src/lib/openai-service.ts:29-37 | conversion keeps length, order and text; a sender "user" becomes a human turn and every other sender an AI turn |
| OpenAIService.BuildMessages | src/lib/openai-service.ts:49-52 | the request is the converted history followed by exactly one human message holding the prompt |
| OpenAIService.ModelName | src/lib/openai-service.ts:7 | the override, else the configured model, else gpt-4o-mini |
| OpenAIService.Classify | src/lib/openai-service.ts:62-74 | "API key", then "quota", then "network", else generic, each as an if-and-only-if; a non-Error value is generic |
| OpenAIService.CategoryReplyInjective | src/lib/openai-service.ts:63-74 | the four replies are pairwise distinct |
| OpenAIService.MissingKeyIsGeneric | src/lib/openai-service.ts:9-74 | the missing-key message contains none of the three substrings, so it gets the generic reply |
| OpenAIService.GetOpenAIResponse | src/lib/openai-service.ts:40-76 | without a key nothing is invoked and the reply is generic; otherwise the reply is the content or the classified reply; it never throws |
| OpenAIService.NonEmpty | src/lib/openai-service.ts:96-100 | no kept fragment is empty |
| OpenAIService.NonEmptyAppend | src/lib/openai-service.ts:96-100 | dropping empty fragments keeps the provider's order |
| OpenAIService.NonEmptyKeeps | src/lib/openai-service.ts:96-100 | a fragment is yielded exactly when it is non-empty |
| OpenAIService.StreamYields | src/lib/openai-service.ts:96-121 | the non-empty fragments in order, then exactly one classified reply on failure |
| OpenAIService.StreamYieldsNonEmpty | src/lib/openai-service.ts:96-121 | nothing yielded is empty |
| OpenAIService.GetOpenAIStreamResponse | src/lib/openai-service.ts:79-122 | the yield loop produces exactly `StreamYields`, or the single generic reply without a key |
| TogetherService.ModelName | src/lib/together-service.ts:10-19 | the override, else the configured model, else Meta-Llama-3.1-8B-Instruct-Turbo |
| TogetherService.Normalise | src/lib/together-service.ts:45-47 | a string is returned as is; an object's `content` goes through `String`; anything else gives "" |
| TogetherService.JsStringSingleton | src/lib/together-service.ts:46 | `String([x])` is `String(x)` |
| TogetherService.IntToString | src/lib/together-service.ts:46 | the decimal rendering of an integer, with its sign |
| TogetherService.FailureReply | src/lib/together-service.ts:50-55 | the configuration reply exactly for an Error mentioning "API key", the generic reply for everything else |
| TogetherService.ConfigurationAndGenericDiffer | src/lib/together-service.ts:52-55 | the two failure replies differ |
| TogetherService.GetTogetherResponse | src/lib/together-service.ts:35-57 | the request is the converted history plus the prompt; the reply is the normalised response or the failure reply; it never throws |
| ChatUtils.ValidateMessage | src/lib/chatUtils.ts:26-41 | valid exactly when the message is not blank and has at most 4000 characters; the blank check comes first, with the source's two messages |
| ChatUtils.TruncateMessage | src/lib/chatUtils.ts:43-49 | the input when it fits; otherwise the first `maxLength` characters plus "...", of length `maxLength` + 3 |
| ChatUtils.Words | src/lib/chatUtils.ts:52 | the pieces of the trimmed text, split on white-space runs |
| ChatUtils.WordsAreWords | src/lib/chatUtils.ts:52 | no word contains white space; a blank message gives the single word ""; otherwise every word is non-empty |
| ChatUtils.WordCount | src/lib/chatUtils.ts:51-53 | the count is at least 1, even for "" |
| ChatUtils.ReadingTime | src/lib/chatUtils.ts:55-59 | the ceiling of words / 200, so at least 1 |
| ChatUtils.CountsAddUp | src/lib/chatUtils.ts:88-89 | user and bot counts add up to the total |
| ChatUtils.Summary | src/lib/chatUtils.ts:85-92 | "No messages yet" exactly for the empty list |
| ChatUtils.SummaryReportsCounts | src/lib/chatUtils.ts:88-91 | a non-empty summary starts with the total, which reads back, reports the user and bot counts, and the counts add up |
| ChatUtils.FormatTimestamp | src/lib/chatUtils.ts:3-24 | no timestamp gives ""; then the whole-minute age falls into just now, minutes, hours, days or the locale date |
| ChatUtils.DaysOfMinutes | src/lib/chatUtils.ts:17-21 | flooring to hours and then to days is flooring to days |
| ChatUtils.MinutesReadBack | src/lib/chatUtils.ts:15 | the "Nm ago" number reads back as the age in minutes |
| ChatActions.Export | src/hooks/useChatActions.ts:6-38 | no messages is an error before the format is looked at; an unknown format is an error; otherwise the filename is conversation-date.format and the content and mime type are those of the format |
| ChatActions.ExportLine | src/hooks/useChatActions.ts:24-31 | the upper-cased sender, bold in Markdown, then ": " and the text |
| ChatActions.ExportHoldsEveryText | src/hooks/useChatActions.ts:22-34 | every message's text appears in a text or Markdown export |
| ChatActions.SplitCount | src/hooks/useChatActions.ts:11-55 | `split` on one character gives one piece more than there are separators |
| ChatActions.SplitJoin | src/hooks/useChatActions.ts:11-55 | joining the pieces with the separator gives the string back |
| ChatActions.TotalWords | src/hooks/useChatActions.ts:54-57 | each message contributes at least one word |
| ChatActions.TotalWordsCountsSpaces | src/hooks/useChatActions.ts:54-57 | the total is the number of messages plus the number of spaces |
| ChatActions.RoundedMean | src/hooks/useChatActions.ts:59 | the nearest whole number to total / n, halves rounded up |
| ChatActions.ConversationStats | src/hooks/useChatActions.ts:51-66 | total = length, user + bot = total, words >= total, the average is 0 for no messages and otherwise the rounded mean |
| ChatActions.Filter | src/hooks/useChatActions.ts:80-83 | the result holds the matching messages and only those |
| ChatActions.FilterAppend | src/hooks/useChatActions.ts:81-83 | the filter keeps the conversation's order |
| ChatActions.Search | src/hooks/useChatActions.ts:77-84 | a blank query gives all messages; otherwise the case-insensitive filter |
| ChatActions.SearchFindsVerbatim | src/hooks/useChatActions.ts:80-83 | a message containing the query verbatim is found |
| ChatActions.MessageAt | src/hooks/useChatActions.ts:86-88 | the element at the index, or nothing out of range |
| TitleRoute.FirstThree | src/app/api/chat/generate-title/route.ts:12 | at most the first three messages, as a prefix |
| TitleRoute.Line | src/app/api/chat/generate-title/route.ts:12 | "User: " for sender "user", "Bot: " otherwise, then the text |
| TitleRoute.Prompt | src/app/api/chat/generate-title/route.ts:13 | the fixed instruction, then the context, then "Title:" |
| TitleRoute.PromptIgnoresLaterMessages | src/app/api/chat/generate-title/route.ts:12-13 | messages after the third do not change the prompt |
| TitleRoute.PromptHoldsEachLine | src/app/api/chat/generate-title/route.ts:12-13 | each of the first three lines appears in the prompt |
| TitleRoute.StripQuotes | src/app/api/chat/generate-title/route.ts:20 | at most one leading and one trailing double quote are removed |
| TitleRoute.StripQuotesUnwraps | src/app/api/chat/generate-title/route.ts:20 | a title in one pair of quotes comes back bare |
| TitleRoute.StripQuotesOnce | src/app/api/chat/generate-title/route.ts:20 | a doubly quoted title keeps its inner quotes |
| TitleRoute.TitleOf | src/app/api/chat/generate-title/route.ts:20 | the title is trimmed |
| TitleRoute.Post | src/app/api/chat/generate-title/route.ts:5-26 | 500 for an unreadable body and 400 for missing, non-array or empty messages; otherwise the prompt goes with an empty history to Together exactly when the provider is "together", else to OpenAI |
| RagQuery.TopK | pages/api/rag-query.ts:13 | a missing `topK` becomes 5; any given value is kept |
| RagQuery.PickText | pages/api/rag-query.ts:32 | `fields.text`, else `fields.chunk_text`, else "" |
| RagQuery.ContextPartsAppend | pages/api/rag-query.ts:31-33 | the parts keep the hits' order |
| RagQuery.HitTextIsPart | pages/api/rag-query.ts:31-33 | a hit with a non-empty text contributes exactly that text |
| RagQuery.EmptyHitIsDropped | pages/api/rag-query.ts:33 | a hit with no truthy text contributes nothing |
| RagQuery.ContextOf | pages/api/rag-query.ts:30-34 | no hits give ""; every part appears in the context |
| RagQuery.Handle | pages/api/rag-query.ts:4-43 | 405 for anything but POST before the body is read; 400 before any search without message or session id; the search is filtered to the session; 500 when it fails |
| Upload.Extname | pages/api/upload.ts:20 | the extension is empty or starts with its only '.', and has no '/' |
| Upload.ExtnameOfName | pages/api/upload.ts:20 | a name ending in ".x" has the extension ".x" |
| Upload.ChooseExtractor | pages/api/upload.ts:20-52 | PDF exactly for the PDF type or ".pdf"; then DOCX exactly for its type or ".docx"; then plain text for .txt, .md and .csv; else the generic extractor |
| Upload.UpperCasePdfIsPdf | pages/api/upload.ts:20-21 | the extension is compared lower-cased |
| Upload.LastExtensionCounts | pages/api/upload.ts:20-41 | only the last extension counts |
| Upload.PdfFailure | pages/api/upload.ts:27-31 | an error mentioning "password" in any case becomes the password-protected error; others pass through |
| Upload.FileLabel | pages/api/upload.ts:102-104 | the original file name, or "file" |
| Upload.SessionFor | pages/api/upload.ts:97-100 | a non-empty string session id, else "demo-session" |
| Upload.Records | pages/api/upload.ts:101-109 | one record per chunk: record i holds chunk i, index i, the id `<name>-i` |
| Upload.RecordIdsDistinct | pages/api/upload.ts:101-109 | the ids of one upload are pairwise distinct |
| Upload.Handle | pages/api/upload.ts:56-137 | 405, then 500 for a parse error, then 400 for no file; the first of several files is used; the chunks of the extracted text go in records, and `chunkCount` is their number |
| Typewriter.Advance | src/hooks/useTypewriter.ts:9-12 | a shorter display grows to the target's prefix one longer; otherwise it stays |
| Typewriter.TicksStayWithin | src/hooks/useTypewriter.ts:9-12 | with a fixed target the display never outgrows it, and stays a prefix of it |
| Typewriter.TicksReachText | src/hooks/useTypewriter.ts:9-12 | n ticks give the prefix of length |displayed| + n |
| Typewriter.TypedOut | src/hooks/useTypewriter.ts:9-21 | the whole target shows after at most its length in ticks, and stays |
| Typewriter.TicksAfter | src/hooks/useTypewriter.ts:9-12 | m ticks then k ticks are m + k ticks |
| Typewriter.TicksFixed | src/hooks/useTypewriter.ts:9 | once the target shows, ticks change nothing |
| Typewriter.SameLengthTargetIsNotRetyped | src/hooks/useTypewriter.ts:9-19 | a new target of the display's length is never typed out |
| Typewriter.TypewriterState.constructor | src/hooks/useTypewriter.ts:4 | the display starts empty |
| Typewriter.TypewriterState.SetText | src/hooks/useTypewriter.ts:19-21 | a target shorter than the display replaces it; otherwise the display stays |
| Typewriter.TypewriterState.Tick | src/hooks/useTypewriter.ts:9-12 | one `Advance` step; a timer was pending exactly when the display was shorter |
| Text.TrimIsSlice | src/contexts/ChatContext.tsx:62-66 | `trim` drops white space at both ends only, and leaves a trimmed string |
| Text.TrimEmptyIff | src/contexts/ChatContext.tsx:62 | a string trims to "" exactly when it is all white space |
| Text.ParseNatToString | src/lib/chatUtils.ts:15-21 | a decimal rendering reads back as its number |
| Text.JoinContainsPart | src/hooks/useChatActions.ts:23-25 | each part appears in the joined string |

## Left out

- The chat models, the vector store, the file extractors and the chat service are foreign calls. Each is a given outcome: `Outcome`, `Fragmented`, `Search`, `Extraction`, `ChatResponse`.
- The module-load throw when the Together key is missing (src/lib/together-service.ts:12-14), and the Pinecone client, run at import time. They are not modelled.
- `testOpenAIConnection` is not modelled, because no core operation calls it.
- HTTP and SSE framing, headers, `TextEncoder`, `ReadableStream` and `NextResponse` are transport. A response is a status with a payload, and a stream is a list of events.
- localStorage and JSON text are left out. Storage is a persisted snapshot field, and parsing is the `Saved` / `Stored` variants (nothing, malformed, a value).
- Concurrency is left out. React's asynchronous state updates are sequential steps, so `ChatProvider.SendMessage` is `BeginSend` followed by `CompleteSend`.
- ChatContext.ChatProvider.SendMessage: the service's `response` on success is taken as a string. An undefined response is not modelled.
- Dates and locale are left out. `toLocaleDateString` is the `LocaleDate` variant, and the ISO date of export filenames is a given string. `conversationDuration` is not computed. Every upload record gets the same given `now`.
- `sanitizeMessage`, `groupMessagesByDate`, `isMessageFromToday` and `getMessageStatus` are not part of the named core (date and regex heavy).
- `deleteMessage` only logs, so it is not modelled.
- The UI components are presentation only and are not part of this model.
- Text.LowerChar: `toLowerCase` maps only the ASCII letters. Other case mappings are left out.
- Lengths are counted in Dafny characters, not in JavaScript's UTF-16 code units. The 4000-character limit and `truncateMessage` therefore differ from the source for characters outside the Basic Multilingual Plane.
- Numbers in request fields are integers (`Field.Num`), and numbers in the config are exact reals (`Value.VNum`). Floating-point rounding is left out; no modelled decision depends on it.
- TogetherService.Normalise: `String(content)` is modelled for integers, strings, booleans, null, arrays and plain objects. Fractional numbers and objects with their own `toString` are left out.
- Config.ConfigService.Update: spreading a section that is not an object keeps no fields of it (`OwnFields` of a non-object is empty). A string's index properties are not modelled.
- Common.ErrorDetails: `err.message || err.toString()` is modelled for Errors with a message. The `toString` rendering of an Error with an empty message, or of a non-Error value, is not modelled, and `details` is then absent.
- RagQuery.Handle: a missing request body makes the destructuring throw. The model answers 500 "RAG retrieval failed" without the TypeError's message in `details`.
- Upload.Handle: an empty list of files makes reading `file[0].filepath` throw. The model answers 500 without the TypeError's message in `details`.
- Upload.Handle: deleting the temporary file is I/O and is not modelled.
- Upload.Handle: the records are built from the corrected chunker, `Chunks`. As written, the call at pages/api/upload.ts:93 drops the text after the last terminator of a paragraph longer than 1000 characters (see Findings and `ChunksAsWritten`). The model indexes that text.
- TitleRoute.Post: a `null` element in `messages` makes the mapping throw, which gives a 500. That case is not modelled, because excerpts are objects.
- Upload.Extname: `path.extname` is modelled for plain POSIX names (the last '.' after the last '/', none for a leading dot). Names with trailing slashes only have their trailing slashes dropped first.
- The sentence regex, `/\n\s*\n/` and `\s+` are explicit splitting functions over the ECMAScript white-space set and the terminators `. ! ? \n`.
- Chunker: the model claims no bound on chunk size, because reseeding and then appending can exceed `chunkSize` as written.
- ChatRoute.Post, TitleRoute.Post and StreamRoute.Post: a body that is not JSON, or is JSON `null`, is the `None` body. Both make the outer `catch` answer 500: the first in `request.json()`, the second in the destructuring.
- ChatRoute.Post and StreamRoute.Post: a `conversationHistory` that is `null` or not an array is not modelled, because the history is a `seq<ChatMessage>` and the `= []` default applies only to a missing field. In the source, `messages.map` then throws inside the adapter's own `try` (src/lib/openai-service.ts:49 and 88, src/lib/together-service.ts:42), and the adapter's generic reply is returned.

## Findings

| source | as written | input that shows it | evidently intended | confidence | as-written member | corrected member |
|---|---|---|---|---|---|---|
| src/lib/chunkText.ts:21 | `/[^.!?\n]+[.!?\n]+/g` matches only stretches followed by a terminator, so the text after the last terminator of a long paragraph is never chunked | a paragraph longer than `chunkSize` ending in "a. b": its sentences are ["a."], and no chunk holds "b" | every character of the paragraph lands in one sentence, in order | not executed | Chunker.ChunksAsWrittenDropTail | Chunker.Sentences |
