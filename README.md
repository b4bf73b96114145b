# AI-Tutor retrieval pipeline in Dafny

A model of the retrieval and query core of the AI-Tutor backend, with proofs about it. It covers five parts:

- **The document chunker.** It cuts a text into overlapping windows of at most `chunk_size` characters. Each cut is pulled back to the last `.` in the window's final 200 characters. Each piece is trimmed, and blank pieces are dropped. `chunk_file` checks the file's suffix and adds the file details to every chunk. `get_chunk_statistics` summarises a chunk list.
- **The vector database service.** This is its bookkeeping around the collection: which chunks an upload stores and with what metadata, how a similarity query's answer is formatted, and how documents are fetched, listed and deleted. The health report is included. The collection is a sequence of records.
- **The prompt templates.** These are the tutor prompt and the explanation, summary, analogy and study-guide prompts.
- **The query handler of the backend.** It covers:
  - the relevance filter (distance below 0.8);
  - the context and history texts shown to the language model;
  - the canned answer used without a model;
  - the 20-entry conversation history;
  - `process_query`;
  - the streaming protocol over a websocket whose sends may raise.
- **The older script versions.** These are the chunker and query handler under `scripts/`. The script chunker is proved to agree with the backend chunker.

Modules, one per file:

| file | module | models |
|---|---|---|
| common.dfy | `Common` | `Option`, `Result`, `Min`/`Max` and an order-keeping `Filter` (list comprehensions) |
| text.dfy | `Text` | the Python string operations used: `strip`, `split`, `rfind`, `join`, `lower`, `str(int)` |
| chunker.dfy | `Chunker` | backend_python/services/document_chunker.py |
| legacy_chunker.dfy | `LegacyChunker` | scripts/chunker.py |
| conversation.dfy | `Conversation` | the bounded history both handlers share |
| prompts.dfy | `Prompts` | backend_python/utils/prompts.py |
| vector_store.dfy | `VectorStore` | backend_python/services/vector_db.py |
| query_handler.dfy | `QueryService` | backend_python/services/query_handler.py |
| legacy_query_handler.dfy | `LegacyQueryService` | scripts/query_handler.py |

Code that changes state is modelled as classes with `modifies` clauses:

- `DocumentChunker`, whose `chunk_text` loop is a `while` loop with invariants;
- `VectorDatabase`, whose records field is a `seq`;
- both `QueryHandler`s, whose history field is a `seq`;
- `Channel`, the websocket, which counts send attempts.

Each method is proved against a specification function: `Run`/`ChunkTextSpec`, `Prepared`, `Listed`, `Appended`, `Cleared` and `StreamDelivered`. Lemmas state what those functions promise.

How the streaming protocol is modelled:

- Every send on the websocket is an attempt numbered from 0.
- The attempts in `Channel.failing` raise and deliver nothing.
- `StreamDelivered` says what the client receives for any set of failing attempts. It follows the three nested `except` handlers of `process_query_streaming`, `_generate_streaming_response` and `_generate_mock_streaming_response`.

## Model

| member | source | states |
|---|---|---|
| Chunker.NextEnd | backend_python/services/document_chunker.py:55-63 | a window ends at most `chunk_size` after its start, and either exactly there or past the start inside the last 200 characters |
| Chunker.NextEndRule | backend_python/services/document_chunker.py:55-63 | when the window ends before the text's end and holds a `.` in its last 200 characters past the start, the cut is one past the last such `.` and no `.` follows it in the window; otherwise the cut is `start + chunk_size` |
| Chunker.RunStep | backend_python/services/document_chunker.py:54-85 | one turn of the cursor loop emits the trimmed piece unless it is blank, and the cursor moves strictly forward to `end - overlap` |
| Chunker.WindowsShape | backend_python/services/document_chunker.py:54-85 | every window starts inside the text, ends at the computed cut, spans more than the overlap and at most `chunk_size`, and the next window starts `overlap` before the previous cut |
| Chunker.WindowsCover | backend_python/services/document_chunker.py:54-85 | every position of the text lies in some window |
| Chunker.EmitIds | backend_python/services/document_chunker.py:67-80 | emitted chunks are numbered consecutively, and their metadata holds the piece's length and the source |
| Chunker.EmitFromWindows | backend_python/services/document_chunker.py:65-80 | every chunk spans exactly one visited window |
| Chunker.EmitPieces | backend_python/services/document_chunker.py:65-67 | every chunk holds the trimmed slice of its own span, and that text is never empty |
| Chunker.EmitChained | backend_python/services/document_chunker.py:83 | chunk starts strictly increase, and each start is at least the previous end minus the overlap |
| Chunker.ChunkTextShape | backend_python/services/document_chunker.py:35-92 | a blank text gives no chunks; every chunk is a well-formed cut; starts strictly increase; consecutive chunks overlap by at most `overlap`; ids run 0, 1, 2 and so on; every chunk carries the source and the total count |
| Chunker.ChunkTextCovers | backend_python/services/document_chunker.py:54-85 | every non-whitespace character of the text lies inside some chunk's `[start_pos, end_pos)`, so only whitespace is ever dropped |
| Chunker.SingleChunk | backend_python/services/document_chunker.py:54-85 | a non-blank text no longer than `chunk_size - overlap` becomes exactly one chunk: the whole text, trimmed |
| Chunker.TailChunk | backend_python/services/document_chunker.py:54-85 | a text longer than `chunk_size - overlap` but within `chunk_size` gives a second chunk, the trimmed tail after `chunk_size - overlap` |
| Chunker.Suffix | backend_python/services/document_chunker.py:109 | `Path.suffix` is the name from its last `.` on when that `.` is neither the first nor the last character; otherwise it is empty. Any non-empty result is a `.` followed by at least one character that is not `.`, ending the name |
| Chunker.MinLength | backend_python/services/document_chunker.py:264 | the minimum is the length of some chunk and at most every chunk's length |
| Chunker.MaxLength | backend_python/services/document_chunker.py:265 | the maximum is the length of some chunk and at least every chunk's length |
| Chunker.ChunkStatistics | backend_python/services/document_chunker.py:238-266 | an empty list gives all zeros; otherwise the count, the total length, and a minimum and maximum that are attained and bound every chunk |
| Chunker.SetTotals | backend_python/services/document_chunker.py:87-89 | the update loop sets every chunk's `total_chunks` to the number of chunks and changes nothing else |
| Chunker.DocumentChunker.constructor | backend_python/services/document_chunker.py:21-31 | stores the chunk size and overlap |
| Chunker.DocumentChunker.WindowEnd | backend_python/services/document_chunker.py:55-63 | the sentence-end search computes `NextEnd` |
| Chunker.DocumentChunker.Cut | backend_python/services/document_chunker.py:50-85 | the cursor loop emits exactly `Run` from position 0 |
| Chunker.DocumentChunker.ChunkText | backend_python/services/document_chunker.py:35-92 | `chunk_text` returns exactly `ChunkTextSpec`, whose properties are the lemmas above |
| Chunker.DocumentChunker.ChunkFile | backend_python/services/document_chunker.py:94-134 | a missing file gives `FileNotFound`; a suffix that is not supported once lower-cased gives `UnsupportedFormat`; an extraction that raised gives `ExtractionFailed` (only a plain-text read raises; PDF and Word failures come back as placeholder text, which is chunked like any other text); otherwise the chunks of the text, with the path as source, and the file name, path, lower-cased suffix and size added to every chunk |
| Chunker.DocumentChunker.AddFileInfo | backend_python/services/document_chunker.py:124-131 | every chunk, in order, gets the file details in its metadata and keeps everything else |
| LegacyChunker.LegacyAgreesWithService | scripts/chunker.py:30-77 | the script chunker gives the backend chunker's chunks with source `text_input`, without `total_chunks`; the loop that earns this is `LegacyChunker.DocumentChunker.Cut` |
| LegacyChunker.LegacyShape | scripts/chunker.py:30-77 | a blank text gives nothing; every chunk holds the trimmed slice of its span, is non-empty and within `chunk_size`, carries its length, and is numbered by position; starts increase |
| LegacyChunker.DocumentChunker.constructor | scripts/chunker.py:18-28 | stores the chunk size and overlap |
| LegacyChunker.DocumentChunker.WindowEnd | scripts/chunker.py:47-55 | the sentence-end search computes `NextEnd` |
| LegacyChunker.DocumentChunker.Cut | scripts/chunker.py:43-75 | the loop numbers chunks by `len(chunks)` and gives the projected `Run` |
| LegacyChunker.DocumentChunker.ChunkText | scripts/chunker.py:30-77 | `chunk_text` returns exactly `LegacyChunkText` |
| Conversation.AppendedSpec | backend_python/services/query_handler.py:242-255 | appending keeps the new entry last and the last `min(20, n + 1)` entries of the grown list, and loses nothing below the limit |
| Conversation.AppendedTwice | backend_python/services/query_handler.py:71-84 | a question and its answer become the two newest entries, in that order |
| Conversation.HistoryOfSpec | backend_python/services/query_handler.py:257-261 | with a user, the history at exactly the positions of that user's entries, in increasing order (repeated entries included); without one, everything |
| Conversation.ClearedSpec | backend_python/services/query_handler.py:263-271 | with a user, the history at exactly the positions of every other user's entries, in increasing order, so their interleaving is kept; kept plus removed is the whole history as a multiset; each other user's own history is unchanged; without a user, the history is emptied |
| Conversation.ClearedIdempotent | backend_python/services/query_handler.py:263-271 | clearing twice is clearing once, and a cleared user has no history |
| Prompts.TutorPromptLayout | backend_python/utils/prompts.py:51-67 | the tutor prompt is the history section, then the context section, then the question and instruction |
| Prompts.HistorySectionIff | backend_python/utils/prompts.py:54-55 | the prompt opens with "Previous conversation:" exactly when the history is neither empty nor the "No previous conversation." placeholder |
| Prompts.ContextSectionIff | backend_python/utils/prompts.py:58-59 | the "Relevant course material:" header follows the history section exactly when the context is neither empty nor the placeholder |
| Prompts.ContextSectionHolds | backend_python/utils/prompts.py:58-59 | when shown, the context follows its header verbatim |
| Prompts.QuestionAfterSections | backend_python/utils/prompts.py:62 | the question line comes right after the optional sections |
| Prompts.ClosingLast | backend_python/utils/prompts.py:62-67 | the prompt ends with the question line, a newline and the instruction |
| Prompts.BareTutorPrompt | backend_python/utils/prompts.py:51-67 | the prompt is only the question and instruction exactly when neither section is shown |
| Prompts.JoinOptional | backend_python/utils/prompts.py:67 | newline-joining the optional parts and the fixed ones puts one newline after each part |
| Prompts.OptionalSection | backend_python/utils/prompts.py:82-83 | an optional section's header appears at its place exactly when the section is present, and its body follows the header |
| Prompts.ExplanationPromptSpec | backend_python/utils/prompts.py:69-87 | opens with the topic sentence and ends with the structure footer; the context header follows the opening exactly when the context is non-empty, with the context after it |
| Prompts.SummaryPromptSpec | backend_python/utils/prompts.py:89-107 | the focus clause appears exactly when the topic is non-empty; the content follows the colon and blank line; the prompt ends with the footer |
| Prompts.AnalogyPromptSpec | backend_python/utils/prompts.py:132-150 | opens with the concept sentence and ends with the footer; the context header appears exactly when the context is non-empty |
| Prompts.StudyGuidePromptSpec | backend_python/utils/prompts.py:152-171 | opens with the header and the comma-joined topics and ends with the footer; the context section appears exactly when the context is non-empty |
| Prompts.StudyGuideTopics | backend_python/utils/prompts.py:163 | one topic is listed as itself, and each further topic is appended after ", " |
| VectorStore.PreparedSound | backend_python/services/vector_db.py:97-116 | every stored record comes from a non-blank input chunk, with an id from that upload's range, the chunk's text and the metadata built from it |
| VectorStore.PreparedComplete | backend_python/services/vector_db.py:97-116 | every non-blank input chunk is stored |
| VectorStore.PreparedIncreasing | backend_python/services/vector_db.py:97-116 | records are stored in input order |
| VectorStore.PreparedEmpty | backend_python/services/vector_db.py:118-120 | nothing is stored exactly when every chunk's text is blank |
| VectorStore.PreparedRecords | backend_python/services/vector_db.py:107-115 | every record has non-blank text, the upload's file name and `chunk_size` equal to its text's length |
| VectorStore.AppendPrepared | backend_python/services/vector_db.py:98-99 | ids stay unique after an upload, since each is fresh |
| VectorStore.SearchSimilarSpec | backend_python/services/vector_db.py:148-173 | the result is empty exactly when the query raised, returned no documents, or a row is missing; otherwise one hit per document, with its text, its metadata or `{}`, its distance or 0, and its id or `None` |
| VectorStore.FirstSeenSpec | backend_python/services/vector_db.py:218-233 | listed file names are distinct, are exactly the names of the stored records, and are the keys of the summary map |
| VectorStore.SummaryOf | backend_python/services/vector_db.py:218-233 | a document's summary holds its first chunk's file type (or "unknown"), its number of chunks and the sum of their sizes |
| VectorStore.ListedSpec | backend_python/services/vector_db.py:206-237 | one entry per file name, in first-seen order, with that file's chunk count and total size; every record's file is listed |
| VectorStore.ListedCounts | backend_python/services/vector_db.py:206-237 | the listed chunk counts add up to the number of records |
| VectorStore.DeleteByIds | backend_python/services/vector_db.py:251-257 | with unique ids, deleting the ids fetched by `where={"filename": name}` removes exactly the records whose metadata carries that filename |
| VectorStore.DeletedSpec | backend_python/services/vector_db.py:239-266 | after deletion, the remaining records are the collection at exactly the positions of records not carrying that filename, in order; a second deletion finds nothing |
| VectorStore.HealthReportSpec | backend_python/services/vector_db.py:268-281 | the report is "healthy (documents: n)" exactly when the count succeeded; otherwise it is "unhealthy: " and the error |
| VectorStore.VectorDatabase.constructor | backend_python/services/vector_db.py:21-36 | the collection starts with the given records |
| VectorStore.VectorDatabase.AddDocuments | backend_python/services/vector_db.py:80-134 | succeeds exactly when some chunk is non-blank and the collection's add does not raise; then exactly the prepared records are appended, otherwise nothing changes |
| VectorStore.VectorDatabase.DocumentChunksSpec | backend_python/services/vector_db.py:175-204 | a document's chunks are the collection at exactly the positions of records whose metadata carries that filename, in order (a record without a filename never matches, not even for "unknown"); none when the query raises |
| VectorStore.VectorDatabase.ListDocuments | backend_python/services/vector_db.py:206-237 | the loop over the metadata computes `Listed`, or nothing when the query raises |
| VectorStore.VectorDatabase.DeleteDocument | backend_python/services/vector_db.py:239-266 | succeeds exactly when nothing raises and some record's metadata carries the filename, and then removes exactly those records; otherwise nothing changes |
| VectorStore.UploadKeepsEveryChunk | backend_python/services/vector_db.py:97-116 | every chunk the chunker emits survives the blank check of an upload, with its text unchanged |
| VectorStore.AllKept | backend_python/services/vector_db.py:97-116 | when no chunk is blank, the i-th record is the i-th chunk with id `first + i` |
| QueryService.RelevantContextSpec | backend_python/services/query_handler.py:118-128 | the results at exactly the positions whose distance is below 0.8, in search order; a result without a distance counts as 1.0 and is dropped |
| QueryService.RelevantContextExample | backend_python/services/query_handler.py:121-125 | of distances 0.2, 0.79, 0.81 and a missing one, exactly the first two survive |
| QueryService.RetrieveFailed | backend_python/services/query_handler.py:130-132 | a failed similarity query gives no context |
| QueryService.ContextTextShown | backend_python/services/query_handler.py:187-198 | the context text produces a prompt section exactly when some chunk is relevant |
| QueryService.ContextTextSingle | backend_python/services/query_handler.py:193-196 | one chunk gives "Context 1 (from name):" and its text |
| QueryService.ContextTextAppend | backend_python/services/query_handler.py:192-198 | one more chunk adds a blank line and its block, numbered next |
| QueryService.HistoryTextShown | backend_python/services/query_handler.py:200-211 | the history text produces a prompt section exactly when the caller passed a non-empty history |
| QueryService.HistoryTextWindow | backend_python/services/query_handler.py:206 | only the last 5 entries are shown; entries older than those never affect the text |
| QueryService.ContextInfoSpec | backend_python/services/query_handler.py:215-218 | the context sentence says "I found n" exactly when some chunk was found, with the count in it |
| QueryService.MockResponseShape | backend_python/services/query_handler.py:213-240 | the canned answer opens with the template chosen by the query's length mod 4, quotes the query, carries the context sentence and ends with the addition of the same index |
| QueryService.MockSameLength | backend_python/services/query_handler.py:228-240 | two queries of equal length get the same answer apart from the quoted query |
| QueryService.LlmPromptSections | backend_python/services/query_handler.py:156-167 | the model's prompt shows the caller's history exactly when one was passed, shows the context section exactly when some chunk is relevant, and ends with the question |
| QueryService.ChunkEventsSpec | backend_python/services/query_handler.py:459-476 | the words go out three at a time, `ceil(n / 3)` chunk events in all, and together they spell the words joined by spaces with a trailing space |
| QueryService.StreamPlanShape | backend_python/services/query_handler.py:293-311 | with nothing raising, the stream is "context", "context_found", "generating", the chunks and "complete" |
| QueryService.StreamedDiffersFromAnswer | backend_python/services/query_handler.py:459-487 | the streamed text differs from the recorded answer, whose line breaks the split drops |
| QueryService.MockResponseText | backend_python/services/query_handler.py:439-449 | the canned answer has words and holds a line break |
| QueryService.DeliveredShape | backend_python/services/query_handler.py:415-496 | of one run of the canned stream, the client gets stream events and at most one error or complete event, which comes last; it gets the whole stream when no send raises |
| QueryService.DeliveredAll | backend_python/services/query_handler.py:451-484 | a run in which no send raises delivers the whole stream |
| QueryService.RetriedShape | backend_python/services/query_handler.py:411-413 | after the first run's exception escapes, the re-run followed by the outer apology keeps that shape |
| QueryService.OuterShape | backend_python/services/query_handler.py:289-329 | the outer handler's events followed by the canned stream keep that shape |
| QueryService.OuterRaised | backend_python/services/query_handler.py:319-329 | once an outer send raises, only the apology can follow |
| QueryService.StreamDeliveredShape | backend_python/services/query_handler.py:273-329 | the client receives planned events and at most one error or complete event, which comes last; it receives the whole plan when no send raises |
| QueryService.StreamRetried | backend_python/services/query_handler.py:411-413 | when the first chunk's send and the trouble message's send both raise, the canned stream runs again, so the client sees "generating" twice and then the whole answer |
| QueryService.AnswerRetried | backend_python/services/query_handler.py:331-413 | the re-run of the canned stream repeats it from the generating event |
| QueryService.CompletesAppend | backend_python/services/query_handler.py:451-484 | no send of a concatenation raises exactly when no send of either part raises |
| QueryService.Channel.constructor | backend_python/main.py:274-277 | a fresh connection has delivered nothing and counted no attempts |
| QueryService.Channel.Send | backend_python/main.py:56-57 | each send is one attempt; it delivers the event exactly when that attempt does not raise |
| QueryService.SendChunks | backend_python/services/query_handler.py:459-476 | the loop delivers the chunk events up to the first send that raises; on success it used one attempt per chunk |
| QueryService.TryAnswer | backend_python/services/query_handler.py:451-487 | the `try` block delivers the plan up to the first send that raises; it succeeds exactly when none raises, which is exactly when "complete" was delivered |
| QueryService.SendBody | backend_python/services/query_handler.py:459-484 | delivers the chunks and the complete event up to the first send that raises |
| QueryService.SendAnswer | backend_python/services/query_handler.py:415-496 | the canned stream, then the trouble message when a send raised; the exception escapes only when that send raised too |
| QueryService.QueryHandler.constructor | backend_python/services/query_handler.py:24-37 | the history starts empty, and the language model is fixed |
| QueryService.QueryHandler.AddToHistory | backend_python/services/query_handler.py:242-255 | the new history is `Appended` and stays within 20 entries |
| QueryService.QueryHandler.ConversationHistory | backend_python/services/query_handler.py:257-261 | with a user, the history at exactly the positions of that user's entries, in order; without one, everything |
| QueryService.QueryHandler.ClearHistory | backend_python/services/query_handler.py:263-271 | the new history is `Cleared` |
| QueryService.QueryHandler.ProcessQuery | backend_python/services/query_handler.py:52-105 | always answers: with the model's stripped reply or, without a model or on failure, the canned answer; it reports the number of relevant chunks and records the question and the answer under the user |
| QueryService.QueryHandler.StreamAnswer | backend_python/services/query_handler.py:331-413 | the canned stream and, when its exception escapes, one re-run; the answer is recorded without a user exactly when the client received "complete" |
| QueryService.QueryHandler.ProcessQueryStreaming | backend_python/services/query_handler.py:273-329 | the question is recorded; the client receives `StreamDelivered` for the relevant chunks and the canned answer's words; the answer is recorded without a user exactly when "complete" was delivered |
| QueryService.QueryHandler.StreamReply | backend_python/services/query_handler.py:289-329 | the sends after the question is recorded deliver `StreamDelivered`, and the answer is recorded exactly when "complete" was delivered |
| LegacyQueryService.ContextTextSpec | scripts/query_handler.py:127 | joining the chunk texts succeeds exactly when every chunk has a text; otherwise it raises `KeyError('text')` |
| LegacyQueryService.GenerateResponseSpec | scripts/query_handler.py:111-145 | succeeds exactly when every chunk has a text; the answer is template `len(query) % 4` with the query in place; "I found n relevant sections…" is appended exactly when chunks were given |
| LegacyQueryService.MockContextAnswers | scripts/query_handler.py:90-109 | the two built-in context chunks always give an answer that mentions 2 sections |
| LegacyQueryService.QueryHandler.constructor | scripts/query_handler.py:17-27 | each key is the argument when truthy and the environment's value otherwise; the history starts empty |
| LegacyQueryService.QueryHandler.AddToHistory | scripts/query_handler.py:147-167 | the new history is `Appended` and stays within 20 entries |
| LegacyQueryService.QueryHandler.ConversationHistory | scripts/query_handler.py:169-181 | with a user, the history at exactly the positions of that user's entries, in order; without one, everything |
| LegacyQueryService.QueryHandler.ClearHistory | scripts/query_handler.py:183-196 | the new history is `Cleared` |
| LegacyQueryService.QueryHandler.ProcessQuery | scripts/query_handler.py:29-73 | answers exactly when every chunk used has a text, and then records the question and the answer; otherwise it returns the apology with `'text'` as the error and keeps only the question; without chunks it uses the two built-in ones |
| Text.StripSpec | backend_python/services/document_chunker.py:65 | `strip()` gives a slice of the input bounded by whitespace on both sides, empty exactly when the input is blank, with no whitespace at either end |
| Text.WordsSpec | backend_python/services/query_handler.py:460 | `split()` gives exactly the maximal runs of non-whitespace characters, in order: each word is a slice of the input bordered by whitespace or an end, the words do not touch, and every non-whitespace character lies in one; there are none exactly when the input is blank |
| Text.LastIndexOfIsLast | backend_python/services/document_chunker.py:61 | `rfind` finds the last occurrence in the range |
| Text.Lower | backend_python/services/document_chunker.py:109 | lowers ASCII capitals and keeps every other character, which decides the supported-suffix test as `lower()` does, since the supported suffixes are ASCII |

## Left out

- Text extraction from PDF, DOCX and plain files, `chunk_multiple_files` and the file system are not part of this model. `ChunkFile` takes the existence flag, the size and the extracted text (or the extraction error) as inputs. In the source only a failed plain-text read raises (backend_python/services/document_chunker.py:157-172). A failed PDF or Word extraction returns placeholder text (lines 188-193 and 207-212), which the model receives as ordinary `Ok` text.
- `average_chunk_size` of `get_chunk_statistics` is a float division and is not modelled.
- ChromaDB, the embedding model, similarity ranking and `reset_database` are left out. A similarity query's raw result is an input, and each collection call's failure is a boolean input.
- `uuid4` ids are modelled as consecutive numbers from a counter.
- Timestamps, logging and `asyncio.sleep` are left out.
- The `processing` event sent by the websocket endpoint in backend_python/main.py is not part of this model.
- Streaming with a real language model, and its fallback to the canned stream, are left out. `QueryService.QueryHandler.ProcessQueryStreaming` requires that no model is configured. The batch `ProcessQuery` does model the model's reply, as a function from prompt to optional text.
- The language model client's construction from the environment is left out. The handler takes the model as a parameter.
- The question, clarification and encouragement prompts of prompts.py and `get_learning_suggestions` are left out. They are fixed text around their arguments, with no decisions.
- `Chunker.DocumentChunker.ChunkText`: requires `overlap + 200 <= chunk_size`. The source has no guard. With a larger overlap, a sentence cut can move the cursor backwards, and the loop need not terminate. This requirement applies to every chunker entry point.
- `QueryService.QueryHandler.StreamReply`: when the final apology's send raises, the exception leaves `process_query_streaming`. The model only says that nothing more is delivered.
- `LegacyQueryService.GenerateResponseSpec`: a chunk text that is not a string makes `join` raise `TypeError`. Texts are strings in the model.
- `LegacyQueryService.QueryHandler.constructor`: the API keys are stored but never used by the script.
- `Text.Lower`: lowers ASCII capitals only, where Python's `lower()` also lowers other capitals. No non-ASCII character lowers to one of the ASCII characters of the supported suffixes, so the format test of `chunk_file` decides the same way.
- `Chunker.FileRef.Name`: takes the path in the form `Path` normalises it to. Stripping trailing separators and `.` components is not modelled.
- `QueryService.Line`: `role.title()` is written out only for the two roles the handlers record.

## What the code does where a reader might expect otherwise

The model follows the code in each case below. The Dafny member named in each item proves it.

- **Overlap guard.** The constructor accepts any overlap (backend_python/services/document_chunker.py:21-31). An overlap close to `chunk_size` lets a sentence cut move the cursor backwards (lines 55-63 and 83). The model makes progress a precondition (`Chunker.Progresses`; see "## Left out").
- **Texts shorter than `chunk_size`.** Such a text need not be a single chunk. The cursor stops only at the text's end (line 54), so a non-blank tail after `chunk_size - overlap` gives a second chunk (`Chunker.TailChunk`). Only texts within `chunk_size - overlap` give one chunk (`Chunker.SingleChunk`).
- **`end_pos`.** The stored `end_pos` is the unclamped cut `start + chunk_size` (lines 55 and 71). So it can lie beyond the end of the text (`Chunker.SingleChunk`).
- **Retry.** The canned stream's own trouble send (query_handler.py:489-496) can raise. That exception reaches the handler of `_generate_streaming_response` (lines 410-413), which runs the canned stream again. So the client sees "generating" twice (`QueryService.StreamRetried`).
- **Streamed text.** The streamed chunks do not spell the recorded answer. The word split of line 460 drops the answer's line breaks and adds a trailing space (`QueryService.StreamedDiffersFromAnswer`).
- **Batch error branch.** The error branch of the backend `process_query` (lines 94-105) is unreachable, because every step it calls catches its own exceptions. The model always answers (`QueryService.QueryHandler.ProcessQuery`).
- **Missing distances.** `search_similar` always sets a distance, 0 when the collection gives none (vector_db.py:157-166). So the 1.0 default of the relevance filter (query_handler.py:122-125) only matters for hits built elsewhere (`VectorStore.SearchSimilarSpec`).
- **Recorded answer.** The streamed answer is recorded without the user's id (query_handler.py:487). So `get_conversation_history(user_id)` never returns it (`QueryService.QueryHandler.StreamAnswer`).
- **Order of work.** Streaming computes retrieval and the canned answer before the first send. Both are pure, so the client and the history see the same result.
