# rag-kb core in Dafny

A Dafny model of the retrieval-augmented question-answering back end of the knowledge base
(the ASP.NET Core service `KnowledgeBase.API`). It covers both halves of the pipeline.

- **Ingestion** (`DocumentProcessor`):
  - an uploaded file's text is extracted according to its content type;
  - the text is split into overlapping chunks of about 1000 characters, cutting long
    paragraphs at sentence ends or white space;
  - every chunk is embedded with the Voyage AI client (`VoyageEmbeddingService`), which
    sends batches of at most 128 texts, pauses between batches and retries rate-limited calls;
  - the document and its chunk rows are stored.
- **Question answering** (`ChatController.Ask`):
  - the question is embedded, and the five stored chunks nearest to it are retrieved
    (`VectorSearchService`);
  - a prompt quoting those chunks and up to ten earlier turns of the conversation is sent to
    Claude (`ClaudeService`);
  - the question and the answer are recorded in a new or an existing conversation;
  - the answer is returned with its sources.

Files and modules:

| file | module | what it holds |
|---|---|---|
| `wrappers.dfy` | `Wrappers` | `Option` and `Result` |
| `sequences.dfy` | `Sequences` | LINQ `Take`/`TakeLast` and small sequence helpers |
| `text.dfy` | `Text` | the .NET string operations used (`Trim`, `TrimStart`, `Contains`, `IsNullOrWhiteSpace`, truncation, decimal rendering) |
| `sorting.dfy` | `Sorting` | LINQ `OrderBy` as a stable sort on a real key |
| `entities.dfy` | `Entities` | entity records and exception kinds; the store (`AppDbContext`) and the `Document` and `Conversation` objects as classes |
| `voyage_embedding_service.dfy` | `VoyageEmbedding` | batching, retry, and validation and re-ordering of provider responses |
| `document_processor.dfy` | `DocumentProcessing` | extraction dispatch, `ChunkText` / `FindBreakPoint`, `ProcessDocumentAsync` |
| `vector_search_service.dfy` | `VectorSearch` | `SearchAsync` |
| `claude_service.dfy` | `ClaudeApi` | context block, prompt and message assembly, reply handling |
| `chat_controller.dfy` | `Chat` | `Ask` |

Where the source works step by step, it stays step by step in the model:

- `ChunkText` and its carving loop, both scans of `FindBreakPoint`, the batch loop and the
  retry loop, `BuildContext` and the message loop are methods with loops. Each is proved equal
  to a specification function.
- The facts the source promises are lemmas about those functions.
- The objects the source mutates are classes: the store, documents, conversations, and the
  two HTTP clients with their request logs.

External services are oracles: a provider maps (number of calls made so far, request) to a
response. The model can therefore state the exact sequence of requests each operation posts.

## Model

Source cells cite the repository's files by path (relative to the repository root) and line range.

| member | source | states |
|---|---|---|
| Sequences.Take | KnowledgeBase.API/Services/Implementations/VectorSearchService.cs:37 | LINQ `Take(k)`: a prefix of length min(k, n), empty for k ≤ 0 |
| Sequences.TakeLast | KnowledgeBase.API/Controllers/ChatController.cs:46 | LINQ `TakeLast(k)`: the suffix of length min(k, n) |
| Text.IsWhiteSpace | KnowledgeBase.API/Services/Implementations/DocumentProcessor.cs:195 | `char.IsWhiteSpace`: tab to carriage return, space, U+0085, U+00A0 and the Unicode space, line and paragraph separators (a definition; the `Trim` contracts are stated with it) |
| Text.IsNullOrWhiteSpace | KnowledgeBase.API/Controllers/ChatController.cs:32 | `string.IsNullOrWhiteSpace`: null, or every character white space (a definition; see the next row) |
| Text.BlankIffTrimmedAway | KnowledgeBase.API/Controllers/ChatController.cs:32 | a string is null-or-white-space exactly when trimming it leaves nothing |
| Text.TrimStart | KnowledgeBase.API/Services/Implementations/DocumentProcessor.cs:146 | the result is a suffix that starts with a non-white-space character; everything dropped was white space |
| Text.TrimEnd | KnowledgeBase.API/Services/Implementations/DocumentProcessor.cs:118 | the result is a prefix that ends with a non-white-space character; everything dropped was white space |
| Text.Trim | KnowledgeBase.API/Services/Implementations/DocumentProcessor.cs:167 | a prefix of `TrimStart(s)` (a suffix of `s` with only white space dropped before it), with only white space dropped after it; empty, or starts and ends with non-white-space |
| Text.TrimPrefix | KnowledgeBase.API/Services/Implementations/DocumentProcessor.cs:139-144 | appending text to a string can only extend its trimmed form: `Trim(s)` is a prefix of `Trim(s + x)` |
| Text.TrimDropsTrailingWhiteSpace | KnowledgeBase.API/Services/Implementations/DocumentProcessor.cs:157 | trimming a string that ends in white space (such as `AppendLine`'s line feed) makes it strictly shorter |
| Text.ContainsIffOccurs | KnowledgeBase.API/Services/Implementations/VoyageEmbeddingService.cs:68 | the recursive `Contains` holds exactly when the part occurs at some offset |
| Text.Contains | KnowledgeBase.API/Services/Implementations/VoyageEmbeddingService.cs:68 | `string.Contains` as a recursive search (a definition; `Text.ContainsIffOccurs` states that it holds exactly when the part occurs at some offset) |
| Text.Truncate | KnowledgeBase.API/Controllers/ChatController.cs:52-54 | at most limit + 3 characters; unchanged when short enough; otherwise the first `limit` characters followed by "..." |
| Text.NatToString | KnowledgeBase.API/Services/Implementations/ClaudeService.cs:89 | the decimal digits of n: a non-empty string of digits whose value is n, with no leading zero unless n is 0 |
| Sorting.Insert | KnowledgeBase.API/Services/Implementations/VectorSearchService.cs:36 | inserting into a sorted list keeps it sorted, adds exactly one element, and removes none |
| Sorting.SortBy | KnowledgeBase.API/Services/Implementations/VectorSearchService.cs:36 | `OrderBy(key)`: the result is sorted by the key and is a permutation of the input |
| Sorting.InsertStable | KnowledgeBase.API/Services/Implementations/VectorSearchService.cs:36 | inserting keeps the elements of each key in their order, the new one after those of its key |
| Sorting.SortByStable | KnowledgeBase.API/Services/Implementations/VectorSearchService.cs:36 | `OrderBy` is stable: for every key, the elements with that key appear in the result in their input order |
| Sorting.SortedArrangementUnique | KnowledgeBase.API/Services/Implementations/VoyageEmbeddingService.cs:110 | two sorted permutations of the same elements are equal when no two elements share a key |
| Sorting.SortByIgnoresInputOrder | KnowledgeBase.API/Services/Implementations/VoyageEmbeddingService.cs:110 | with distinct keys, the sorted result does not depend on the input order |
| Entities.Document.constructor | KnowledgeBase.API/Services/Implementations/DocumentProcessor.cs:32-37 | a new document with the given filename, type and processed flag, and no chunks |
| Entities.Document.AddChunk | KnowledgeBase.API/Services/Implementations/DocumentProcessor.cs:42-47 | appends one chunk; nothing else changes |
| Entities.Conversation.constructor | KnowledgeBase.API/Controllers/ChatController.cs:50-55 | a new conversation with the given key and title, and no messages |
| Entities.Conversation.AddMessage | KnowledgeBase.API/Controllers/ChatController.cs:66-77 | appends one message at the end of the conversation |
| Entities.AppDbContext.constructor | KnowledgeBase.API/Data/AppDbContext.cs:10-13 | an empty store with the key counter at 0, which meets the key invariant `Valid` (every stored document and conversation has a key below the counter) |
| Entities.AppDbContext.NewId | KnowledgeBase.API/Data/AppDbContext.cs:20-21 | issues the counter as a key that no stored document or conversation has, advances it by one and keeps `Valid` |
| Entities.AppDbContext.AddDocument | KnowledgeBase.API/Services/Implementations/DocumentProcessor.cs:50-51 | committing a document whose key the counter has issued adds it and all its chunk rows, after the existing rows, and keeps `Valid` |
| Entities.AppDbContext.AddConversation | KnowledgeBase.API/Controllers/ChatController.cs:56 | committing a conversation whose key the counter has issued appends it to the table and keeps `Valid` |
| VoyageEmbedding.NumBatchesBound | KnowledgeBase.API/Services/Implementations/VoyageEmbeddingService.cs:36-39 | batch k exists (offset 128·k is inside the input) exactly when k < ceil(n/128) |
| VoyageEmbedding.BatchCount | KnowledgeBase.API/Services/Implementations/VoyageEmbeddingService.cs:36-42 | there are `totalBatches` = ceil(n/128) batches |
| VoyageEmbedding.NumBatches | KnowledgeBase.API/Services/Implementations/VoyageEmbeddingService.cs:36 | `totalBatches`, ceil(n/128) (a definition; `VoyageEmbedding.BatchCount` and `VoyageEmbedding.NumBatchesBound` state that it counts the batches) |
| VoyageEmbedding.Batches | KnowledgeBase.API/Services/Implementations/VoyageEmbeddingService.cs:39-42 | the batches `Skip(i).Take(128)` for i = 0, 128, ... (a definition; `BatchesPartition` and `BatchAt` state what they are) |
| VoyageEmbedding.BatchesPartition | KnowledgeBase.API/Services/Implementations/VoyageEmbeddingService.cs:39-42 | the batches, concatenated, are the input in order; each holds 1 to 128 texts; there are ceil(n/128) of them |
| VoyageEmbedding.BatchAt | KnowledgeBase.API/Services/Implementations/VoyageEmbeddingService.cs:42 | batch j is `texts.Skip(128·j).Take(128)` |
| VoyageEmbedding.OneBatch | KnowledgeBase.API/Services/Implementations/VoyageEmbeddingService.cs:39-42 | at most 128 texts form one batch |
| VoyageEmbedding.Embeddings | KnowledgeBase.API/Services/Implementations/VoyageEmbeddingService.cs:111 | one vector per data element, in the same positions |
| VoyageEmbedding.ParseResponse | KnowledgeBase.API/Services/Implementations/VoyageEmbeddingService.cs:99-112 | a non-success status is an `HttpRequestException` with the status and body; missing or empty data is an `InvalidOperationException`; a success returns as many vectors as there were data elements, and at least one |
| VoyageEmbedding.ErrorMessage | KnowledgeBase.API/Services/Implementations/VoyageEmbeddingService.cs:105 | the `HttpRequestException` text "Voyage AI error: status - body" (a definition; `VoyageEmbedding.ParseResponse` states that a failed status yields it) |
| VoyageEmbedding.TooManyRequestsIsRetryable | KnowledgeBase.API/Services/Implementations/VoyageEmbeddingService.cs:68 | a 429 response (status name TooManyRequests) passes the retry filter |
| VoyageEmbedding.OnlyHttpFailuresRetryable | KnowledgeBase.API/Services/Implementations/VoyageEmbeddingService.cs:68 | successes and malformed responses never pass the retry filter |
| VoyageEmbedding.IsRateLimited | KnowledgeBase.API/Services/Implementations/VoyageEmbeddingService.cs:68 | the exception filter: an `HttpRequestException` whose message contains "TooManyRequests" (a definition; `VoyageEmbedding.TooManyRequestsIsRetryable` and `VoyageEmbedding.OnlyHttpFailuresRetryable` state which outcomes pass it) |
| VoyageEmbedding.Retryable | KnowledgeBase.API/Services/Implementations/VoyageEmbeddingService.cs:68 | a failed attempt that the filter catches (a definition; `VoyageEmbedding.TooManyRequestsIsRetryable` and `VoyageEmbedding.OnlyHttpFailuresRetryable` state which outcomes pass it) |
| VoyageEmbedding.ParsedInIndexOrder | KnowledgeBase.API/Services/Implementations/VoyageEmbeddingService.cs:109-112 | the returned vectors are the data sorted by ascending index, each element used exactly once |
| VoyageEmbedding.SortByIndex | KnowledgeBase.API/Services/Implementations/VoyageEmbeddingService.cs:110 | `OrderBy(d => d.Index)` (a definition; `VoyageEmbedding.ParsedInIndexOrder` states that the result is ascending by index and a permutation of the data) |
| VoyageEmbedding.ResponseOrderIrrelevant | KnowledgeBase.API/Services/Implementations/VoyageEmbeddingService.cs:109-112 | with distinct indices, the order in which the provider lists the data does not change the result |
| VoyageEmbedding.Backoff | KnowledgeBase.API/Services/Implementations/VoyageEmbeddingService.cs:70 | attempt a waits a · 30000 ms |
| VoyageEmbedding.RetryFrom | KnowledgeBase.API/Services/Implementations/VoyageEmbeddingService.cs:62-78 | the retry loop from attempt a on: retry while the outcome is rate-limited and a < 3, waiting a · 30 s (a definition; `RetryFromShape` states its shape) |
| VoyageEmbedding.BatchWithRetry | KnowledgeBase.API/Services/Implementations/VoyageEmbeddingService.cs:60-79 | the retry loop from attempt 1 against the provider (a definition; `RetryShape` and `RetryBounds` state its shape) |
| VoyageEmbedding.RetryFromShape | KnowledgeBase.API/Services/Implementations/VoyageEmbeddingService.cs:62-78 | from attempt a: every attempt before the last was rate-limited; the last outcome is the result; a rate-limited result occurs only at the third attempt; the waits are the backoff schedule |
| VoyageEmbedding.RetryShape | KnowledgeBase.API/Services/Implementations/VoyageEmbeddingService.cs:60-79 | one batch makes 1 to 3 calls; the calls before the last were all rate-limited; the last call's outcome is the batch's; a rate-limited outcome is returned only after the third call; attempt a is followed by a wait of a · 30 s |
| VoyageEmbedding.RetryStopsAt | KnowledgeBase.API/Services/Implementations/VoyageEmbeddingService.cs:62-78 | if calls 1..n-1 are rate-limited and call n is not (or n = 3), the batch ends after exactly n calls with call n's outcome and n - 1 backoff waits |
| VoyageEmbedding.RetryBounds | KnowledgeBase.API/Services/Implementations/VoyageEmbeddingService.cs:62-73 | a batch makes 1 to 3 calls and never waits the 500 ms pause between batches |
| VoyageEmbedding.EmbedEmpty | KnowledgeBase.API/Services/Implementations/VoyageEmbeddingService.cs:33-58 | no texts: no call, no wait, an empty result |
| VoyageEmbedding.EmbedBatches | KnowledgeBase.API/Services/Implementations/VoyageEmbeddingService.cs:39-54 | the batch loop: each batch in order, stopping at the first failure, with a 500 ms pause before every batch but the first (a definition; the lemmas below state its properties) |
| VoyageEmbedding.Embed | KnowledgeBase.API/Services/Implementations/VoyageEmbeddingService.cs:33-58 | `GenerateEmbeddingsAsync`: the batch loop over `Batches(texts)` (a definition; `EmbedRequests`, `EmbedPauses` and `EmbedPreservesOrder` state its properties) |
| VoyageEmbedding.EmbedBatchesRequestsAreBatches | KnowledgeBase.API/Services/Implementations/VoyageEmbeddingService.cs:39-47 | every request posted is one of the batches |
| VoyageEmbedding.EmbedBatchesRequestCount | KnowledgeBase.API/Services/Implementations/VoyageEmbeddingService.cs:39-47 | at most 3 requests per batch; a successful run posts at least one request per batch |
| VoyageEmbedding.EmbedRequests | KnowledgeBase.API/Services/Implementations/VoyageEmbeddingService.cs:33-58 | every request holds 1 to 128 texts; at most 3·ceil(n/128) requests in all; at least ceil(n/128) when the run succeeds |
| VoyageEmbedding.EmbedBatchesPauses | KnowledgeBase.API/Services/Implementations/VoyageEmbeddingService.cs:50-54 | a successful run over k batches pauses 500 ms exactly k - 1 times |
| VoyageEmbedding.EmbedPauses | KnowledgeBase.API/Services/Implementations/VoyageEmbeddingService.cs:50-54 | a successful run over n > 0 texts pauses 500 ms exactly ceil(n/128) - 1 times; its waits are the per-batch backoff waits joined by one 500 ms pause each, so a pause falls only between two batches and never after the last |
| VoyageEmbedding.EmbedBatchesPauseBetween | KnowledgeBase.API/Services/Implementations/VoyageEmbeddingService.cs:50-54 | a successful run's waits are the batches' backoff waits, one list per batch, joined by a single 500 ms pause; no batch's own waits contain a 500 ms pause |
| VoyageEmbedding.Indexed | KnowledgeBase.API/Services/Implementations/VoyageEmbeddingService.cs:120-124 | the well-formed response for an input: element j carries index j and the embedding of text j |
| VoyageEmbedding.MapEmbed | KnowledgeBase.API/Services/Implementations/VoyageEmbeddingService.cs:33 | vector i embeds text i |
| VoyageEmbedding.ParseFaithful | KnowledgeBase.API/Services/Implementations/VoyageEmbeddingService.cs:109-112 | a response listing one element per input, in any order, gives the vectors in input order |
| VoyageEmbedding.EmbedBatchesFaithful | KnowledgeBase.API/Services/Implementations/VoyageEmbeddingService.cs:47-48 | concatenating the batch results gives the vectors of the concatenated batches |
| VoyageEmbedding.EmbedPreservesOrder | KnowledgeBase.API/Services/Implementations/VoyageEmbeddingService.cs:33-58 | with a provider that answers every input faithfully, vector i of a successful run is the embedding of text i, across batches and retries |
| VoyageEmbedding.FirstAttemptAccepted | KnowledgeBase.API/Services/Implementations/VoyageEmbeddingService.cs:62-66 | an accepted first call ends the batch: one call, no wait |
| VoyageEmbedding.SingleBatch | KnowledgeBase.API/Services/Implementations/VoyageEmbeddingService.cs:33-58 | up to 128 texts with an accepted first response take exactly one request and no pause |
| VoyageEmbedding.SortTwo | KnowledgeBase.API/Services/Implementations/VoyageEmbeddingService.cs:110 | `OrderBy(Index)` puts the elements with indices 1 and 0 in order 0, 1 (a concrete instance of `VoyageEmbedding.ParsedInIndexOrder`) |
| VoyageEmbedding.ReorderExample | KnowledgeBase.API/Services/Implementations/VoyageEmbeddingService.cs:109-112 | a response listing index 1 before index 0 still yields the vectors in input order (a concrete instance of `VoyageEmbedding.ResponseOrderIrrelevant`) |
| VoyageEmbedding.ShortResponseAccepted | KnowledgeBase.API/Services/Implementations/VoyageEmbeddingService.cs:106-112 | the vector count is not checked against the input: one vector for two texts is accepted |
| VoyageEmbedding.VoyageClient.Post | KnowledgeBase.API/Services/Implementations/VoyageEmbeddingService.cs:96-97 | logs the request and returns the provider's response to that call |
| VoyageEmbedding.VoyageClient.Delay | KnowledgeBase.API/Services/Implementations/VoyageEmbeddingService.cs:73 | logs one wait |
| VoyageEmbedding.VoyageEmbeddingService.GenerateBatchEmbeddings | KnowledgeBase.API/Services/Implementations/VoyageEmbeddingService.cs:81-113 | one POST of the batch; the result is the validation of that response |
| VoyageEmbedding.VoyageEmbeddingService.GenerateBatchWithRetry | KnowledgeBase.API/Services/Implementations/VoyageEmbeddingService.cs:60-79 | the loop's result, posted requests and waits are those of the retry specification `BatchWithRetry` |
| VoyageEmbedding.VoyageEmbeddingService.GenerateEmbeddings | KnowledgeBase.API/Services/Implementations/VoyageEmbeddingService.cs:33-58 | the loop's result, posted requests and waits are those of the run specification `Embed` |
| DocumentProcessing.LineEnd | KnowledgeBase.API/Services/Implementations/DocumentProcessor.cs:107 | the offset of the first line feed, or the length when there is none |
| DocumentProcessing.Paragraphs | KnowledgeBase.API/Services/Implementations/DocumentProcessor.cs:107 | every paragraph is non-empty and holds no line feed (the lemmas below tie the paragraphs to the text) |
| DocumentProcessing.LineBreaksHaveNoParagraphs | KnowledgeBase.API/Services/Implementations/DocumentProcessor.cs:107 | text made only of `\n` and `\r\n` breaks has no paragraphs |
| DocumentProcessing.SingleLineParagraphs | KnowledgeBase.API/Services/Implementations/DocumentProcessor.cs:107 | text without a line feed is one paragraph, or none when empty |
| DocumentProcessing.FirstLineParagraphs | KnowledgeBase.API/Services/Implementations/DocumentProcessor.cs:107 | the first line feed ends the first paragraph (a carriage return just before it belongs to the separator, and an empty first line gives no paragraph); the rest of the text gives the rest of the paragraphs |
| DocumentProcessing.ParagraphsKeepText | KnowledgeBase.API/Services/Implementations/DocumentProcessor.cs:107 | splitting drops only separators: the paragraphs, concatenated, hold the text's non-white-space characters in order |
| DocumentProcessing.LastBreak | KnowledgeBase.API/Services/Implementations/DocumentProcessor.cs:184-199 | the last break of the kind strictly inside the window, with none after it; or none in the window at all |
| DocumentProcessing.BreakPoint | KnowledgeBase.API/Services/Implementations/DocumentProcessor.cs:177-203 | the whole text when it fits; otherwise a cut in the upper half of the allowed length (maxLength/2, maxLength]; never 0 for non-empty text |
| DocumentProcessing.BreakPointOrder | KnowledgeBase.API/Services/Implementations/DocumentProcessor.cs:182-202 | the cut follows the last sentence end in the window if there is one; else the last white space; else the window's end |
| DocumentProcessing.ScanBack | KnowledgeBase.API/Services/Implementations/DocumentProcessor.cs:184-190 | the backward scan finds the last break of its kind above maxLength/2 |
| DocumentProcessing.FindBreakPoint | KnowledgeBase.API/Services/Implementations/DocumentProcessor.cs:177-203 | the method returns `BreakPoint(text, maxLength)` |
| DocumentProcessing.Tail | KnowledgeBase.API/Services/Implementations/DocumentProcessor.cs:119-120 | the overlap seed is the last min(200, length) characters |
| DocumentProcessing.Emit | KnowledgeBase.API/Services/Implementations/DocumentProcessor.cs:118-121 | emitting appends the buffer to the output and re-seeds the buffer with its own last ≤ 200 characters |
| DocumentProcessing.Carve | KnowledgeBase.API/Services/Implementations/DocumentProcessor.cs:125-147 | carving never removes emitted buffers |
| DocumentProcessing.AddParagraph | KnowledgeBase.API/Services/Implementations/DocumentProcessor.cs:110-162 | one paragraph never removes emitted buffers |
| DocumentProcessing.Finish | KnowledgeBase.API/Services/Implementations/DocumentProcessor.cs:165-172 | the final buffer is emitted exactly when it trims to something non-empty; otherwise the output is unchanged |
| DocumentProcessing.TrimAll | KnowledgeBase.API/Services/Implementations/DocumentProcessor.cs:118 | chunk i is emitted buffer i trimmed |
| DocumentProcessing.Emissions | KnowledgeBase.API/Services/Implementations/DocumentProcessor.cs:102-175 | every buffer `ChunkText` adds to its list, untrimmed, in order (a definition; the lemmas on emissions state its properties) |
| DocumentProcessing.Chunks | KnowledgeBase.API/Services/Implementations/DocumentProcessor.cs:102-175 | `ChunkText(text)`: the emitted buffers, trimmed (a definition; `ChunkLengthBound`, `ChunksOverlap` and `ChunksKeepText` state its properties) |
| DocumentProcessing.CarveStep | KnowledgeBase.API/Services/Implementations/DocumentProcessor.cs:135-146 | a buffer emitted while carving holds at most 1000 characters, and the next buffer starts with its overlap seed |
| DocumentProcessing.CarveBound | KnowledgeBase.API/Services/Implementations/DocumentProcessor.cs:125-147 | carving keeps the chunker invariant, and every buffer it emits holds at most 1000 characters |
| DocumentProcessing.AddParagraphGood | KnowledgeBase.API/Services/Implementations/DocumentProcessor.cs:110-162 | each paragraph step keeps the invariant: emitted buffers are bounded, and each starts with the previous one's overlap seed |
| DocumentProcessing.AddParagraphsGood | KnowledgeBase.API/Services/Implementations/DocumentProcessor.cs:110-163 | the paragraph loop keeps the invariant |
| DocumentProcessing.EmissionsGood | KnowledgeBase.API/Services/Implementations/DocumentProcessor.cs:102-175 | every emitted buffer is bounded (≤ 1200, or 1201 ending in a line feed), and each starts with the previous one's overlap seed |
| DocumentProcessing.BoundedTrim | KnowledgeBase.API/Services/Implementations/DocumentProcessor.cs:157 | a bounded buffer trims to at most 1200 characters |
| DocumentProcessing.ChunkLengthBound | KnowledgeBase.API/Services/Implementations/DocumentProcessor.cs:102-175 | every chunk holds at most TargetChunkSize + Overlap = 1200 characters |
| DocumentProcessing.TrimmedOverlap | KnowledgeBase.API/Services/Implementations/DocumentProcessor.cs:141-144 | the trimmed next buffer starts with the trimmed overlap seed |
| DocumentProcessing.ChunksOverlap | KnowledgeBase.API/Services/Implementations/DocumentProcessor.cs:118-121 | one chunk per emitted buffer; chunk i + 1 starts with the trimmed last ≤ 200 characters of buffer i |
| DocumentProcessing.NoParagraphsNoChunks | KnowledgeBase.API/Services/Implementations/DocumentProcessor.cs:107 | empty text, or text made only of line breaks, gives no chunks |
| DocumentProcessing.CarveKeepsText | KnowledgeBase.API/Services/Implementations/DocumentProcessor.cs:125-147 | carving a paragraph writes all of it: the non-white-space characters written grow by exactly those of the paragraph |
| DocumentProcessing.AddParagraphKeepsText | KnowledgeBase.API/Services/Implementations/DocumentProcessor.cs:110-162 | one paragraph step writes all of the paragraph, in order |
| DocumentProcessing.AppendLine | KnowledgeBase.API/Services/Implementations/DocumentProcessor.cs:130 | `StringBuilder.AppendLine`: the line followed by a line feed (a definition; `DocumentProcessing.AddParagraphKeepsText` states that a paragraph step writes all of the paragraph) |
| DocumentProcessing.AddParagraphsKeepText | KnowledgeBase.API/Services/Implementations/DocumentProcessor.cs:110-163 | after the paragraph loop, the text written is the paragraphs' text, in order |
| DocumentProcessing.FinishKeepsText | KnowledgeBase.API/Services/Implementations/DocumentProcessor.cs:165-172 | dropping a blank final buffer loses no non-white-space character |
| DocumentProcessing.ChunksKeepText | KnowledgeBase.API/Services/Implementations/DocumentProcessor.cs:102-175 | no text is lost: the chunks, each with the overlap it repeats from the previous one removed, hold every non-white-space character of the text, in order; chunk i keeps all of buffer i's |
| DocumentProcessing.CarveParagraph | KnowledgeBase.API/Services/Implementations/DocumentProcessor.cs:125-147 | the carving loop computes `Carve`, and its output is the trimmed emissions |
| DocumentProcessing.ChunkParagraph | KnowledgeBase.API/Services/Implementations/DocumentProcessor.cs:110-162 | one loop iteration computes `AddParagraph` |
| DocumentProcessing.ChunkText | KnowledgeBase.API/Services/Implementations/DocumentProcessor.cs:102-175 | the method returns `Chunks(text)`; the chunk lemmas above and below are about that function |
| DocumentProcessing.ExtractText | KnowledgeBase.API/Services/Implementations/DocumentProcessor.cs:56-65 | succeeds exactly for the three supported types, each read by its own extractor; otherwise `NotSupportedException` naming the type |
| DocumentProcessing.UnsupportedMessage | KnowledgeBase.API/Services/Implementations/DocumentProcessor.cs:63 | the `NotSupportedException` text naming the content type (a definition; `DocumentProcessing.ExtractText` states that exactly the unsupported types yield it) |
| DocumentProcessing.ChunkRows | KnowledgeBase.API/Services/Implementations/DocumentProcessor.cs:40-48 | one row per chunk text |
| DocumentProcessing.ChunkRowsIndexed | KnowledgeBase.API/Services/Implementations/DocumentProcessor.cs:42-47 | row i has chunk text i, `ChunkIndex` i and embedding i |
| DocumentProcessing.DocumentProcessor.AttachChunks | KnowledgeBase.API/Services/Implementations/DocumentProcessor.cs:40-48 | attaches the rows when there are enough embeddings; otherwise fails with `ArgumentOutOfRangeException` |
| DocumentProcessing.DocumentProcessor.ProcessDocument | KnowledgeBase.API/Services/Implementations/DocumentProcessor.cs:24-54 | extraction, extraction failure, embedding failure and too few vectors each give their error and store nothing; on success a fresh processed document with rows `ChunkRows(Chunks(text), vectors)`, appended with its chunks to the store; writes only the store's documents, chunk rows and key counter and the embedding client's logs; the delay log grows by exactly the run's waits; the new document's key differs from every stored document's, and the store keeps `Valid` with a counter that never goes back |
| ClaudeApi.Entries | KnowledgeBase.API/Services/Implementations/ClaudeService.cs:87-92 | entry i is the numbered header `[Document i+1]`, the chunk text and a blank line |
| ClaudeApi.Entry | KnowledgeBase.API/Services/Implementations/ClaudeService.cs:89-91 | one context entry: the numbered header, the chunk text and a blank line (a definition; `ClaudeApi.Entries` and `ClaudeApi.ContextLocatesEachChunk` state where each chunk's entry sits) |
| ClaudeApi.Context | KnowledgeBase.API/Services/Implementations/ClaudeService.cs:83-95 | the context block: the entries of all chunks, in order (a definition; `ContextEmptyIff` and `ContextLocatesEachChunk` state its properties) |
| ClaudeApi.ContextEmptyIff | KnowledgeBase.API/Services/Implementations/ClaudeService.cs:83-95 | the context block is empty exactly when there are no chunks |
| ClaudeApi.ContextLocatesEachChunk | KnowledgeBase.API/Services/Implementations/ClaudeService.cs:87-92 | chunk i's entry, with its 1-based number and its text verbatim, follows exactly the entries of the chunks before it |
| ClaudeApi.UserPrompt | KnowledgeBase.API/Services/Implementations/ClaudeService.cs:35-40 | the prompt template with the context block and the question inserted (a definition; `PromptQuotes` states where they occur) |
| ClaudeApi.PromptQuotes | KnowledgeBase.API/Services/Implementations/ClaudeService.cs:35-40 | the prompt quotes the context block and the question verbatim, at fixed offsets |
| ClaudeApi.HistoryTurnsPointwise | KnowledgeBase.API/Services/Implementations/ClaudeService.cs:47-50 | history turn i carries message i's role and content |
| ClaudeApi.HistoryTurns | KnowledgeBase.API/Services/Implementations/ClaudeService.cs:47-50 | the history copied turn by turn (a definition; `ClaudeApi.HistoryTurnsPointwise` states that turn i carries message i's role and content) |
| ClaudeApi.Turns | KnowledgeBase.API/Services/Implementations/ClaudeService.cs:42-53 | the history turns, then the user turn (a definition; `TurnsShape` states its shape) |
| ClaudeApi.TurnsShape | KnowledgeBase.API/Services/Implementations/ClaudeService.cs:42-53 | the messages are the history turns in order, then exactly one user turn with the prompt; without history, only that turn |
| ClaudeApi.Request | KnowledgeBase.API/Services/Implementations/ClaudeService.cs:55-61 | the request body: model, 1024 tokens, the system prompt and `Turns` of the prompt (a definition; `GenerateAnswer` posts it) |
| ClaudeApi.Answer | KnowledgeBase.API/Services/Implementations/ClaudeService.cs:73-80 | a failed status is an `HttpRequestException`; otherwise the first block's text, or the fallback sentence when there is none |
| ClaudeApi.ErrorMessage | KnowledgeBase.API/Services/Implementations/ClaudeService.cs:75 | the `HttpRequestException` text "Claude API error: status - body" (a definition; `ClaudeApi.Answer` states that a failed status yields it) |
| ClaudeApi.ClaudeClient.Post | KnowledgeBase.API/Services/Implementations/ClaudeService.cs:70-71 | logs the request and returns the provider's reply to that call |
| ClaudeApi.ClaudeService.BuildContext | KnowledgeBase.API/Services/Implementations/ClaudeService.cs:83-95 | the loop builds `Context(chunks)` |
| ClaudeApi.ClaudeService.BuildMessages | KnowledgeBase.API/Services/Implementations/ClaudeService.cs:42-53 | the loop builds `Turns(history, prompt)` |
| ClaudeApi.ClaudeService.GenerateAnswer | KnowledgeBase.API/Services/Implementations/ClaudeService.cs:25-81 | posts exactly one request, the assembled `Request(question, chunks, history)`; returns the `Answer` of its reply |
| VectorSearch.Candidates | KnowledgeBase.API/Services/Implementations/VectorSearchService.cs:28-35 | no more candidates than stored chunks |
| VectorSearch.CandidatesAreEmbeddedChunks | KnowledgeBase.API/Services/Implementations/VectorSearchService.cs:28-35 | the candidates are exactly the projections of the stored chunks that have an embedding |
| VectorSearch.Picked | KnowledgeBase.API/Services/Implementations/VectorSearchService.cs:36-37 | the candidates kept by `OrderBy(Distance).Take(topK)`: min(topK, candidates) of them (none for topK ≤ 0), nearest first |
| VectorSearch.Search | KnowledgeBase.API/Services/Implementations/VectorSearchService.cs:36-46 | min(topK, candidates) results (none for topK ≤ 0), in non-increasing similarity |
| VectorSearch.PickedAreNearest | KnowledgeBase.API/Services/Implementations/VectorSearchService.cs:36-37 | the kept candidates are some of the candidates; none left out is nearer than a kept one; all are kept when topK covers them |
| VectorSearch.PickedAreCandidates | KnowledgeBase.API/Services/Implementations/VectorSearchService.cs:29-37 | every kept candidate is a candidate |
| VectorSearch.SearchReportsEmbeddedChunks | KnowledgeBase.API/Services/Implementations/VectorSearchService.cs:28-46 | every result reports a stored embedded chunk: its document, its text and 1 - distance |
| VectorSearch.ToRelevant | KnowledgeBase.API/Services/Implementations/VectorSearchService.cs:41-46 | the projection to `RelevantChunk` with similarity 1 - distance (a definition; `VectorSearch.SearchReportsEmbeddedChunks` states what each result reports) |
| VectorSearch.QueryAlwaysEmbedded | KnowledgeBase.API/Services/Implementations/VectorSearchService.cs:24-25 | embedding one question either fails or yields at least one vector, so `First()` never throws |
| VectorSearch.Retrieve | KnowledgeBase.API/Services/Implementations/VectorSearchService.cs:21-47 | what `SearchAsync` returns: the embedding run's failure, or the ranking against its first vector (a definition; `RetrieveFailsOnlyByEmbedding` states its outcomes) |
| VectorSearch.RetrieveFailsOnlyByEmbedding | KnowledgeBase.API/Services/Implementations/VectorSearchService.cs:21-47 | a search fails exactly when embedding the question fails, with that error; at most max(0, topK) results otherwise |
| VectorSearch.VectorSearchService.SearchAsync | KnowledgeBase.API/Services/Implementations/VectorSearchService.cs:21-47 | posts exactly the requests of one embedding run over `[query]`; returns `Retrieve`: its failure, or the ranking against its first vector |
| Chat.Title | KnowledgeBase.API/Controllers/ChatController.cs:52-54 | the question itself when it has at most 50 characters; otherwise its first 50 followed by "..." |
| Chat.Sources | KnowledgeBase.API/Controllers/ChatController.cs:85-90 | one source per chunk, with the same document and similarity; text unchanged up to 200 characters, otherwise its first 200 followed by "..." |
| Chat.Source | KnowledgeBase.API/Controllers/ChatController.cs:86-90 | one `SourceReference` (a definition; `Chat.Sources` states its document, truncated text and similarity) |
| Chat.Find | KnowledgeBase.API/Controllers/ChatController.cs:41-44 | none exactly when no conversation has the key; otherwise a stored conversation with that key |
| Chat.FindIsFirst | KnowledgeBase.API/Controllers/ChatController.cs:43 | the conversation found is the first one with the key |
| Chat.History | KnowledgeBase.API/Controllers/ChatController.cs:46 | the last min(10, n) messages, oldest first |
| Chat.Generate | KnowledgeBase.API/Controllers/ChatController.cs:59-63 | search then generation: the first failure, or the answer with the passages retrieved (a definition; `GenerateOutcome` states its outcomes) |
| Chat.GenerateOutcome | KnowledgeBase.API/Controllers/ChatController.cs:59-63 | a failure is the embedding run's error, or otherwise an HTTP error of the generator; a success cites at most five passages, those the search returned |
| Chat.ChatController.Ask | KnowledgeBase.API/Controllers/ChatController.cs:30-92 | a blank question is a bad request that changes nothing (no request, no wait, no conversation); an unknown conversation key fails with "Conversation not found" and changes nothing likewise; otherwise it posts exactly the embedding and generation requests and waits exactly the embedding run's delays, and a failure changes no conversation; a success appends the user and assistant turns to the target conversation (others untouched), or stores one fresh conversation titled `Title(question)` holding just those turns; it answers with that conversation's key and the truncated sources; the store keeps `Valid` and the counter never goes back, so each new conversation's key differs from every earlier one |
| Chat.ChatController.Continue | KnowledgeBase.API/Controllers/ChatController.cs:39-47 | an existing conversation: the last ten messages are the history, and the two turns are appended on success only; the requests and the embedding run's delays are those of `Generate` |
| Chat.ChatController.Start | KnowledgeBase.API/Controllers/ChatController.cs:48-57 | a new conversation keyed by the counter (a key no stored conversation has) with the truncated title, stored only when the exchange succeeds; the requests and the embedding run's delays are those of `Generate`; the store keeps `Valid` |
| Chat.ChatController.Respond | KnowledgeBase.API/Controllers/ChatController.cs:59-77 | search, then generation, then the two appended turns; the result is `Generate`, the clients log exactly its requests and the delay log grows by exactly the embedding run's waits, and a failure leaves the conversation as it was |
| Chat.Exchange | KnowledgeBase.API/Controllers/ChatController.cs:66-77 | the user turn then the assistant turn carrying the sources (a definition; `Chat.ChatController.Respond` and `Chat.ChatController.Ask` state that exactly these two turns are appended on success) |

## Left out

- Text extraction from PDF and Word files (iTextSharp, OpenXML) and reading plain-text streams are
  foreign code. An uploaded file is modelled by the text each extractor would return.
- HTTP, JSON serialisation and API keys are left out. Each external service is an oracle from
  (call number, request) to a response. A JSON deserialisation exception on a malformed body is not
  modelled, and neither are the constructors' "API key not configured" errors.
- Logging and `Task.Delay` are not modelled. Delays are recorded in a log of milliseconds
  (`VoyageClient.delays`), and nothing waits.
- `CosineDistance` is computed by the database. The model keeps it as a parameter of the search
  service and uses only that it is a function of the two vectors. Floats are reals, so float
  rounding is not modelled.
- Database ties: ordering by distance keeps equal-distance chunks in store order. SQL leaves that
  order unspecified.
- A negative `topK` gives no results in the model. The database would reject a negative `LIMIT`.
- Entity Framework is modelled in memory:
  - `SaveChangesAsync` is a commit at the end of the operation, so rows added before an exception
    are not stored.
  - A new conversation is stored only when its exchange succeeds.
  - Keys are drawn from a counter in place of `gen_random_uuid()`.
  - Messages are kept in insertion order, which stands for ordering by `CreatedAt`.
  - `CreatedAt`, `UploadedAt` and the `Metadata` columns are left out.
- Strings are sequences of Unicode scalar values. .NET strings are sequences of UTF-16 code units, so
  lengths and offsets agree only for text inside the Basic Multilingual Plane. A character outside
  it counts 2 in .NET and 1 here, which shifts the 1000-, 200- and 50-character limits, the
  `Substring` cuts of `ChunkText` and the truncation of titles and sources.
- DocumentProcessing.ChunksKeepText: that no text is lost is stated for the non-white-space characters only, because
  carving drops the white space at each cut and `AppendLine` adds line feeds; the exact white
  space of a chunk is given by `Chunks` itself.
- `Environment.NewLine` and the line breaks inside the C# verbatim prompt strings are taken to be a
  single line feed.
- `IEmbeddingService` is bound to the Voyage implementation. No other implementation is modelled.
- The serialized `Sources` column of an assistant message is modelled as the list of retrieved
  chunks itself, not as its JSON text.
- `Ask` is split into `Continue` (existing conversation), `Start` (new conversation) and `Respond`
  (search, generate, append). `Ask` performs the request validation and the lookup and then
  delegates, so together they follow the source's single method.
- The other controllers (documents, conversations), `Program.cs` and the Angular front end are not
  part of this model.

## Behaviour of the code worth knowing

These follow the code as written. Where a description of the system says otherwise, the model
follows the code.

- Chunks are not capped at the 1000-character target. An overlap seed of up to 200 characters
  followed by a paragraph of up to 1000 characters is emitted whole. The proved bound is 1200
  (`ChunkLengthBound`).
- A buffer flushed before a long paragraph, or before a paragraph that does not fit, is added to
  the chunk list even when it trims to the empty string. Only the final buffer is checked for
  blankness (`Finish`).
- The overlap seed is cut from the untrimmed buffer, so it can include the line feed `AppendLine`
  wrote (`ChunksOverlap`).
- The number of vectors a provider returns is never compared with the number of texts
  (`ShortResponseAccepted`). Too few vectors make `ProcessDocumentAsync` fail with
  `ArgumentOutOfRangeException` while attaching chunks (`AttachChunks`).
- `embeddings.First()` in `SearchAsync` cannot throw, because a successful embedding run always
  yields at least one vector (`QueryAlwaysEmbedded`).
- The retry filter matches "TooManyRequests" anywhere in the exception message, including the
  response body.
