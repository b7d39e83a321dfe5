# CookiesPDF chat: a Dafny model of the request handlers

CookiesPDF is a single-page chat application. The browser page sends a
message and the caller's own OpenAI key. The server forwards them to an
upstream chat-completion service and streams the answer back. A user can also
upload a PDF, whose text is cut into overlapping chunks; a keyword ranker
picks the chunks that ground the next answer.

This project models the handlers that do that work and proves what they
promise. It has one module per source file of the core, plus two shared ones:

- `Wrappers`: an `Option` type for JavaScript `undefined`/`null` and Python `None`.
- `Text`: the string operations the handlers rely on. These are
  `startsWith`, `endsWith`, `includes`, `trim` (with ECMAScript's full
  whitespace set), ASCII `toLowerCase`, `join`, keeping only the non-empty strings and
  decimal rendering of a count.
- `KeywordRanker`: `findRelevantChunksKeyword` of the chat route.
  `query.toLowerCase().split()` has no separator, so it yields the whole
  lowercased query as one word. A chunk therefore scores 1 when it contains
  the whole query and 0 otherwise. The stable sort then puts the matching
  chunks first. The method is proved equal to a sort-free reference
  definition, `TopK`: the matching chunks, then the others, each group in
  input order, cut to `k`.
- `EventStream`: the chat route's wire format. Each event is a
  `data: {"content":…}` line followed by a blank line; this is the event-stream
  format of section 9.2 (Server-sent events) of the WHATWG HTML Living Standard.
  The JSON string escaping of `JSON.stringify` is written out. Two facts are
  proved about it: a payload never spans lines, and a reader gets back exactly
  what was sent.
- `ChatRoute`: the `POST` handler of `frontend/app/api/chat/route.ts`. It
  covers the body and bearer-header checks, the system prompt with its optional document
  context, and the relay loop that forwards each non-empty fragment and ends
  with `[DONE]`.
- `UploadRoute`: `frontend/app/api/upload-pdf/route.ts`.
  - `buildRAGSystem` is a `while` loop proved equal to a function of the text.
    That function takes windows of 1000 characters every 800 characters,
    trims them and drops the empty ones.
  - The `POST` handler's guards come in order: header, then file type, then
    blank text. Its success message is modelled too.
- `BackendApi`: the FastAPI service `api/app.py`.
  - The API-key checks of `chat`, `chat_structured`, `validate_api_key` and
    `test_endpoint`.
  - The classifier that maps an upstream error message to 401, 429, 402 or 500.
  - The dispatch of `chat` between its structured and its streaming branches,
    and the `generate` relay.
- `ChatPage`: `frontend/app/page.tsx`.
  - A `ChatPage` class whose fields are the component's state.
  - Methods for `handleFileUpload` and `handleSubmit`. Each handler is split
    at its first `await`, so the state shown while a request is in flight is
    part of the contract.
  - The streamed assistant message is replaced by id after every chunk read.

Upstream services, the network and the clock are parameters. An upstream call
is a value saying how it ended: failed with a message, or returned
content/fragments. A message id built from `Date.now()` is passed in.
Raising `HTTPException` is modelled as returning an error value.

## Model

| member | source | states |
|---|---|---|
| `Text.TrimSpec` | frontend/app/api/upload-pdf/route.ts:20-21 | `trim` leaves a slice of its input with only whitespace around it. The slice neither starts nor ends with whitespace, and it is empty exactly when the input is blank |
| `Text.TrimBlank` | frontend/app/api/upload-pdf/route.ts:49 | `!s.trim()` holds exactly when every character of `s` is whitespace |
| `Text.TrimContained` | frontend/app/api/upload-pdf/route.ts:21 | the trimmed string occurs in the original |
| `Text.ToLower` | frontend/app/api/chat/route.ts:13 | lowercasing keeps the length and maps each character independently |
| `Text.NatToString` | frontend/app/api/upload-pdf/route.ts:60 | a count is written as a non-empty string of decimal digits, with no leading zero |
| `Text.ParseNatToString` | frontend/app/api/upload-pdf/route.ts:60 | the decimal rendering of a count reads back as that count |
| `Text.NonEmptyCount` | frontend/app/api/upload-pdf/route.ts:20-22 | dropping empty strings never adds strings, and keeps every string when none is empty |
| `Text.NonEmptyMembers` | frontend/app/api/upload-pdf/route.ts:20-22 | what the `if (chunk.trim())` push keeps is non-empty and comes from the input |
| `Text.ConcatSnoc` | frontend/app/page.tsx:153 | appending one more chunk to the text read so far extends it by exactly that chunk |
| `KeywordRanker.Score` | frontend/app/api/chat/route.ts:14-16 | the `reduce` counts at most one point per query word |
| `KeywordRanker.ChunkScore` | frontend/app/api/chat/route.ts:9-16 | a chunk's score is at most 1, and it is 1 exactly when the lowercased chunk contains the whole lowercased query |
| `KeywordRanker.EmptyQueryMatchesAll` | frontend/app/api/chat/route.ts:15 | an empty query matches every chunk, since `includes("")` is always true |
| `KeywordRanker.InsertSorted` | frontend/app/api/chat/route.ts:21 | inserting an entry into a descending list keeps it descending |
| `KeywordRanker.InsertStable` | frontend/app/api/chat/route.ts:21 | an inserted entry goes before the entries that share its score. The sort inserts each head into its sorted tail, so each score keeps its input order |
| `KeywordRanker.StableSortDesc` | frontend/app/api/chat/route.ts:21 | the sort by `b.score - a.score` is descending and a permutation of its input. Entries with equal scores keep their input order, as the stable `Array.prototype.sort` guarantees |
| `KeywordRanker.ChunksOf` | frontend/app/api/chat/route.ts:22 | `.map(item => item.chunk)` keeps length and order |
| `KeywordRanker.SortedBinarySplits` | frontend/app/api/chat/route.ts:21 | a descending list of 0/1 scores is its 1-entries followed by its 0-entries |
| `KeywordRanker.Matching` | frontend/app/api/chat/route.ts:12-18 | the matching group holds only chunks of the input that contain the query |
| `KeywordRanker.NonMatching` | frontend/app/api/chat/route.ts:12-18 | the other group holds only chunks of the input that do not contain the query |
| `KeywordRanker.PartitionSize` | frontend/app/api/chat/route.ts:12-18 | every chunk lands in exactly one of the two groups |
| `KeywordRanker.ScoreAll` | frontend/app/api/chat/route.ts:12-18 | the loop pushes one `{chunk, score}` entry per chunk into a new array, in input order |
| `KeywordRanker.ScoreAllSplits` | frontend/app/api/chat/route.ts:12-18 | the 1-scored entries are the matching chunks, and the 0-scored entries are the rest |
| `KeywordRanker.SortedChunks` | frontend/app/api/chat/route.ts:21-22 | sorting the scored chunks gives the matching chunks, then the others, each in input order |
| `KeywordRanker.TopK` | frontend/app/api/chat/route.ts:22 | the result has as many chunks as `slice(0, k)` keeps |
| `KeywordRanker.FindRelevantChunksKeyword` | frontend/app/api/chat/route.ts:8-23 | the score-sort-slice pipeline returns exactly the reference ranking `TopK` |
| `KeywordRanker.TopKSizeAndOrigin` | frontend/app/api/chat/route.ts:22 | for `k >= 0` the result has `min(k, n)` chunks, each one drawn from the input |
| `KeywordRanker.TopKMatchesFirst` | frontend/app/api/chat/route.ts:21-22 | no non-matching chunk comes before a matching one in the result |
| `KeywordRanker.EmptyQueryTakesPrefix` | frontend/app/api/chat/route.ts:9-22 | an empty query returns the first `k` chunks in input order |
| `KeywordRanker.NoChunksNoResult` | frontend/app/api/chat/route.ts:8-23 | no chunks give no result, whatever the query and `k` |
| `KeywordRanker.TopKStable` | frontend/app/api/chat/route.ts:21-22 | when `k` does not exceed the number of matching chunks, the result is the first `k` of them in input order |
| `EventStream.Escape` | frontend/app/api/chat/route.ts:71 | the escaped body of a JSON string never contains a line feed or carriage return |
| `EventStream.ContentJson` | frontend/app/api/chat/route.ts:71 | `JSON.stringify({ content })` is a single line |
| `EventStream.UnescapeShort` | frontend/app/api/chat/route.ts:71 | a two-character escape (`\n`, `\"`, …) decodes to the character it stands for |
| `EventStream.UnescapeHex` | frontend/app/api/chat/route.ts:71 | a `\u00xx` escape of a control character decodes to that character |
| `EventStream.UnescapeEscapeChar` | frontend/app/api/chat/route.ts:71 | decoding an escaped character followed by more text yields the character, then the decoded rest |
| `EventStream.UnescapeEscape` | frontend/app/api/chat/route.ts:71 | decoding undoes the escaping of every string |
| `EventStream.ReadContentJson` | frontend/app/api/chat/route.ts:71 | the `content` field of every payload the route writes reads back as the content sent |
| `EventStream.DataFrames` | frontend/app/api/chat/route.ts:71 | one event per payload |
| `EventStream.LineEnd` | frontend/app/api/chat/route.ts:71 | a reader finds the first line break of an event, and none before it |
| `EventStream.ReadOneEvent` | frontend/app/api/chat/route.ts:71 | a single-line payload is read back from its event |
| `EventStream.ReadDataFrames` | frontend/app/api/chat/route.ts:71-74 | the events written for single-line payloads read back as exactly those payloads, in order |
| `ChatRoute.BearerKey` | frontend/app/api/chat/route.ts:31-35 | a key is found exactly when the header is present and starts with the case-sensitive `"Bearer "`. The header is then that prefix followed by the key |
| `ChatRoute.BearerKeyOfBearer` | frontend/app/api/chat/route.ts:35 | a key sent as `Bearer <key>` is the key extracted |
| `ChatRoute.PromptWithoutDocument` | frontend/app/api/chat/route.ts:38 | with no chunks stored, the system prompt is the developer message verbatim, or the default when it is missing or empty |
| `ChatRoute.PromptWithDocument` | frontend/app/api/chat/route.ts:38-51 | with chunks stored, the prompt starts with the base prompt and the grounding instruction. It ends with the top `min(3, n)` chunks joined by blank lines, each one a stored chunk |
| `ChatRoute.NonEmptyContents` | frontend/app/api/chat/route.ts:69-70 | only non-empty fragment contents are forwarded, and never more than there are fragments |
| `ChatRoute.ContentPayloads` | frontend/app/api/chat/route.ts:71 | one single-line payload per forwarded content |
| `ChatRoute.EmitFrames` | frontend/app/api/chat/route.ts:66-79 | one event per non-empty fragment in arrival order, then `[DONE]` and the close. A broken upstream errors the stream after the events already sent |
| `ChatRoute.CompletedStreamReadsBack` | frontend/app/api/chat/route.ts:68-75 | a completed stream reads back as one payload per non-empty fragment plus `[DONE]`. Each payload's `content` is that fragment |
| `ChatRoute.ChatPost` | frontend/app/api/chat/route.ts:25-93 | 500 `Chat failed` when the body does not parse, whatever the header. Then 400 `API key is required` without a bearer header. Then 500 `Chat failed` when chunks are stored but the message is missing, or when the upstream call throws. Otherwise the reply holds the request sent (key, model or `gpt-4`, prompt, message) and the relayed events |
| `UploadRoute.Window` | frontend/app/api/upload-pdf/route.ts:19 | `text.slice(i, i + 1000)` has at most 1000 characters |
| `UploadRoute.StartBelowLength` | frontend/app/api/upload-pdf/route.ts:18 | the loop visits offset `800j` exactly when `j < ⌈L/800⌉` |
| `UploadRoute.BuildRagSystem` | frontend/app/api/upload-pdf/route.ts:13-26 | the loop returns the trimmed windows that are not empty, in offset order |
| `UploadRoute.TrimInside` | frontend/app/api/upload-pdf/route.ts:19-21 | the trim of a slice of the text occurs in the text |
| `UploadRoute.WindowStarts` | frontend/app/api/upload-pdf/route.ts:18 | the visited offsets are `0, 800, 1600, …`, strictly increasing and all below the length |
| `UploadRoute.WindowsOverlap` | frontend/app/api/upload-pdf/route.ts:14-19 | each window shares its last 200 characters with the start of the next, or fewer at the end of the text |
| `UploadRoute.WindowsCover` | frontend/app/api/upload-pdf/route.ts:18-19 | every character of the text lies in some window, at the offset below it |
| `UploadRoute.RagChunkCount` | frontend/app/api/upload-pdf/route.ts:13-26 | there are at most `⌈L/800⌉` chunks, and exactly that many when no window is blank. Empty text gives none |
| `UploadRoute.ChunksAreTrimmedWindows` | frontend/app/api/upload-pdf/route.ts:18-22 | every chunk is the trim of a window. It is non-empty, at most 1000 characters, free of whitespace at both ends, and a substring of the text |
| `UploadRoute.TrimmedWindowShape` | frontend/app/api/upload-pdf/route.ts:19-21 | the trim of any window has at most 1000 characters, no whitespace at either end, and occurs in the text |
| `UploadRoute.UploadPost` | frontend/app/api/upload-pdf/route.ts:28-62 | the bearer header is checked before the file type and the file type before blank text, each with its 400 message. Success reports the text length and the chunk count |
| `UploadRoute.ShortTextOneChunk` | frontend/app/api/upload-pdf/route.ts:13-26 | a non-blank text of at most 800 characters gives one chunk, its trim |
| `UploadRoute.StubUploadMessage` | frontend/app/api/upload-pdf/route.ts:7 | the placeholder extractor's 81-character text gives one chunk. Every accepted upload therefore reports 81 characters and 1 chunk |
| `BackendApi.KeyError` | api/app.py:68-72 | a key passes exactly when it starts with `sk-` and has at least 20 characters. The prefix is checked first, and every failure is a 400 |
| `BackendApi.PrefixCheckedFirst` | api/app.py:68-69 | a key without `sk-` gets the format message, whatever its length |
| `BackendApi.RequestError` | api/app.py:32 | the request model refuses, before the handler runs, exactly the keys shorter than 20 characters |
| `BackendApi.TooShortUnreachable` | api/app.py:71-72 | behind the request model's `min_length=20`, the handler's "too short" message is never sent. A short key gets 422 |
| `BackendApi.ValidateAgreesWithChat` | api/app.py:234-241 | `validate_api_key` and `chat` accept the same string keys. A short `sk-` key gets validation's own length message but a 422 from `chat` |
| `BackendApi.ClassifyUpstreamError` | api/app.py:185-196 | the first applicable case decides: "Invalid/Incorrect API key" gives 401, "Rate limit" 429, "Insufficient quota" 402, anything else 500. Only a 500 carries the prefixed original message |
| `BackendApi.UnclassifiedKeepsMessage` | api/app.py:194-196 | the detail of a 500 is the prefix followed by the original message |
| `BackendApi.HttpErrorsNotReclassified` | api/app.py:182-184 | an `HTTPException` whose detail mentions a bad key stays a 500, while the same message as a plain exception becomes a 401 or 429 |
| `BackendApi.ValidateApiKey` | api/app.py:228-268 | the key-check errors, then the classified upstream failure with the validation prefix. The key is valid exactly when the checks pass and the call succeeds |
| `BackendApi.ValidateOutcomes` | api/app.py:228-268 | an empty key is never sent upstream, and a valid key has the `sk-` prefix and 20 characters |
| `BackendApi.TestEndpointOutcomes` | api/app.py:204-269 | a falsy key gets the same answer whatever the upstream call would do. The test succeeds exactly when the key is truthy and the call completes, and then reports the upstream content. A failure message comes back verbatim, where validation turns the same message into a 401 |
| `BackendApi.TestSkipsFormatChecks` | api/app.py:204-241 | the test endpoint passes any non-empty key upstream, while validation refuses the same key for its format |
| `BackendApi.PresentContentsAll` | api/app.py:172-174 | when every fragment has content, every content is yielded, in order |
| `BackendApi.RelaysAgreeUpToEmpty` | api/app.py:172-174 | `generate` keeps empty fragments, which the chat route drops. Dropping them from what `generate` yields gives exactly what the route forwards |
| `BackendApi.Generate` | api/app.py:142-174 | `generate` yields every present fragment content in order. A stream that fails to be created yields nothing |
| `BackendApi.Chat` | api/app.py:64-196 | the request-model and key checks, then classified client errors. A true flag takes the structured branch, whose every failure gives a null body. A false or null flag streams; a stream that fails when created yields no chunks |
| `BackendApi.StructuredFailureGivesNull` | api/app.py:136-139 | with `use_structured_output` true, a failed structured call answers with a null body instead of the stream |
| `BackendApi.ChatWithFallback` | api/app.py:136-139 | with the fallback to streaming that the comments describe, `chat` never answers with a null body |
| `BackendApi.ChatStructured` | api/app.py:271-360 | the same key checks as `chat`. A failed client or call is classified. Non-JSON and off-schema replies are unclassified 500s naming the parse step, and a parsed reply is returned as it is |
| `BackendApi.StructuredCallFailureClassified` | api/app.py:349-360 | a failed structured call is classified exactly as `chat` classifies a failure |
| `ChatPage.ReplaceKeepsShape` | frontend/app/page.tsx:155-160 | replacing keeps ids and roles, and changes content only where the id matches |
| `ChatPage.ReplaceTwice` | frontend/app/page.tsx:155-160 | each update overwrites the previous one, so only the latest text counts |
| `ChatPage.ReplaceAbsent` | frontend/app/page.tsx:155-160 | replacing an id no message has changes nothing |
| `ChatPage.ReplaceLast` | frontend/app/page.tsx:155-160 | when the assistant id is fresh, only the last message changes |
| `ChatPage.SubmitAppends` | frontend/app/page.tsx:101-175 | with a fresh assistant id a submit appends the user message, then the full reply text. After a failed read it appends the partial text and the apology. Without a reply it appends only the apology |
| `ChatPage.SubmitKeepsHistory` | frontend/app/page.tsx:101-175 | a submit keeps every earlier message in place, then the user message, and adds two or three messages |
| `ChatPage.UploadFailuresReported` | frontend/app/page.tsx:70-80 | every failed upload shows `Upload failed: ` followed by a reason, which is `Upload failed` when the server sent no `detail` |
| `ChatPage.UploadRejection` | frontend/app/page.tsx:45-54 | an upload proceeds exactly when the name ends with `.pdf` and the key is not blank. The file type is checked first |
| `ChatPage.PageAndRouteAgreeOnPdf` | frontend/app/page.tsx:46 | the page lets through exactly the file names the upload route accepts |
| `ChatPage.ChatPage.constructor` | frontend/app/page.tsx:24-33 | the initial state: no messages, empty input, key and status, not loading or uploading, no file |
| `ChatPage.ChatPage.StartUpload` | frontend/app/page.tsx:45-57 | a rejected upload sets only the status. An accepted one marks the upload in progress with the processing status |
| `ChatPage.ChatPage.FinishUpload` | frontend/app/page.tsx:59-83 | success keeps the file and shows the server's message, failure shows the reason. The upload ends either way |
| `ChatPage.ChatPage.StartSubmit` | frontend/app/page.tsx:101-114 | nothing changes when the input or the key is blank. Otherwise the user message is appended, the input cleared and loading set |
| `ChatPage.ChatPage.FinishSubmit` | frontend/app/page.tsx:116-174 | an empty assistant message is appended, and after every chunk it holds the text read so far. Any error appends the apology, and loading ends |
| `ChatPage.ChatPage.HandleSubmit` | frontend/app/page.tsx:101-175 | the log left is `SubmitLog` of the old log and the user message, and loading is over |

## Left out

- Upstream calls, `fetch` and the clock: the OpenAI client, HTTP requests and `Date.now()` are not modelled. What each call returns, or how it fails, is a parameter.
- `Text.ToLower`: only ASCII letters are lowercased; the full Unicode case mapping of `toLowerCase` is not modelled.
- `KeywordRanker.FindRelevantChunksKeyword`: `k` is an integer. A fractional or `NaN` `k` is not modelled, and the route always passes 3.
- `Array.prototype.sort` sorts in place. The model sorts a sequence with a stable insertion sort of its own and proves the order the specification of `sort` requires. It does not model the engine's algorithm or the in-place update.
- `EventStream.Unescape`: surrogate-pair escapes are refused. Strings are sequences of code points, not UTF-16 code units, so lone surrogates are not modelled.
- The `TextEncoder`/`TextDecoder` byte layer is not modelled. Frames are strings, and the page receives already decoded chunks. A multi-byte character split across two reads is therefore not modelled.
- Response headers and content types are not modelled.
- `ChatRoute.ChatPost`: a `developer_message` or `model` that is present but not a string is not modelled; the body's fields are optional strings, and a `user_message` that is not a string counts as missing.
- The chat route's module-level stores, `pdfChunks` and `pdfText`, are not modelled as globals. The chunks are a parameter of `ChatRoute.ChatPost`. The upload route never writes the store.
- `UploadRoute.UploadPost`: the extractor is a function parameter. A throwing extractor, a failing `formData()` and a `file` field that is not a `File` are not modelled; these are the 500 `Upload failed: …` branch.
- `BackendApi`: `validate_api_key` and `test_endpoint` take a raw dict, so their key is modelled as an optional string. A key of another JSON type is not modelled.
- `BackendApi.RequestError`: only the `min_length` rule of `ChatRequest` is modelled. Missing fields and wrong types, which pydantic also answers with 422, are not.
- `BackendApi.ChatStructured`: `structured_summary` and the schema validation itself are not modelled. The outcome of parsing is a parameter.
- `BackendApi.Chat`: the prompts sent upstream are not modelled.
- `BackendApi.Generate`: a stream that fails after it starts ends the body early. This is shown as `complete == false`, without an error value.
- `ChatPage`: rendering, scrolling, the settings panel, `removeUploadedFile` and the model and developer-message fields are not modelled. The page shows `Unknown error` for a non-`Error` rejection; that case is not modelled either. The page sends the key in the request body rather than in a bearer header. Which server answers it depends on deployment routing that is not part of this model.
- The flashcards route (`frontend/app/api/flashcards/route.ts`) is not part of this model.

## Findings

| source | as written | input that shows it | evidently intended | confidence | as-written member | corrected member |
|---|---|---|---|---|---|---|
| api/app.py:136-139 | the `except` around the structured branch of `chat` swallows every failure, then the handler falls off its end and returns `None`. The streaming code sits in the `else` branch and is never reached from there | a valid key with `use_structured_output` left at its default `true`, and a structured completion that raises (for example, a model without `json_schema` support) or returns unparsable JSON | fall back to the streaming response, as the comments at lines 137-139 say | high; not executed | `BackendApi.StructuredFailureGivesNull` | `BackendApi.ChatWithFallback` |
