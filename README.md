# Formula One chat assistant: ingestion and query orchestration in Dafny

This project models the two halves of a retrieval-augmented chat assistant.

- **The ingestion script (`scripts/loadDb.ts`).** It provisions a vector collection only if it is absent. It scrapes a fixed list of pages and strips their markup. It then embeds each chunk of each page, validates the embedding, and inserts the valid chunks. Along the way it counts processed and skipped chunks.
- **The chat endpoint (`app/api/chat/route.ts`).** It takes the last message as the query and embeds it. It retrieves up to ten documents as context, falling back to an empty context when retrieval throws. It builds the system prompt and the message list, then streams the model's non-empty deltas to the caller and closes the stream.

Every call into a provider is replaced by the outcome it had, passed in as a parameter. The providers are the embedding and chat API, the vector database, and the headless browser with the text splitter. The outcomes include:
- per page: could not be scraped, could not be split, or split into these chunks;
- per chunk: whether the embedding call threw, or which JavaScript value it returned; and whether the insert threw;
- whether listing or creating collections threw;
- the query's embedding response;
- the store's similarity ranking, or a store failure;
- the completion's stream chunks, or a failure.

Modules:

- `Results`: Option, Result and Outcome.
- `Seqs`: subsequence and its append lemmas.
- `Json`: `JSON.stringify` of an array of strings, per the escapes of ECMA-262 QuoteJSONString, i.e. the string grammar of section 7 of RFC 8259. It comes with a decoder and the round trip.
- `Markup`: the regular expression `/<[^>]*>?/gm` replaced by `''`.
- `Embedding`: JavaScript values and `isValidEmbedding`.
- `Ingestion`: the `Database` class, provisioning, the load loop, and its specification functions and lemmas.
- `ChatRoute`: the `POST` handler, the prompt, and the stream controller.

A few behaviours of the code are worth stating outright, because the model follows them:

- A thrown query-embedding call propagates out of the handler. But `embedding.data[0].embedding` is read inside the inner `try` (route.ts:38). So a response whose `data` array is empty, or whose first item is `null` or `undefined`, makes that read throw, and the context degrades to `""`, as on a store failure.
- An embedding call or insert that throws counts as a skipped chunk, just as an invalid embedding does (loadDb.ts:143-146).
- The environment variables are only destructured (loadDb.ts:12-18), never checked, so a missing setting does not fail at start-up.
- Chunk sizes and overlap are produced by the text splitter library, which is not part of this model.

## Model

| member | source | states |
|---|---|---|
| `Embedding.IsValidEmbedding` | scripts/loadDb.ts:87-106 | true exactly when the value is an array of length 1536 whose every element is a finite number; false for non-arrays (null, undefined), wrong lengths, and arrays with a non-number, NaN or infinite element |
| `Embedding.SomeBad` | scripts/loadDb.ts:101 | the element-by-element `some` check is true exactly when some element is not a number, is NaN or is infinite |
| `Markup.StripTags` | scripts/loadDb.ts:170 | stripping never lengthens the text |
| `Markup.StripTagsHasNoOpen` | scripts/loadDb.ts:170 | the stripped text contains no `<` |
| `Markup.StripTagsPlain` | scripts/loadDb.ts:170 | text without `<` is returned unchanged |
| `Markup.StripTagsIdempotent` | scripts/loadDb.ts:170 | stripping twice equals stripping once |
| `Markup.StripTagsIsSubsequence` | scripts/loadDb.ts:170 | the output is the input with characters deleted and the rest kept in order |
| `Markup.StripTagsUnclosed` | scripts/loadDb.ts:170 | a `<` with no later `>` deletes everything from it to the end |
| `Markup.StripTagsClosed` | scripts/loadDb.ts:170 | a tag `<`…`>` is deleted with both brackets; the plain text before it is kept and the text after it is stripped in turn |
| `Ingestion.Database.CheckAndCreateCollection` | scripts/loadDb.ts:58-80 | listing errors are rethrown and change nothing; an existing name returns normally with no creation; an absent name costs exactly one creation request, after which the name is present, or the create error is rethrown; records are untouched |
| `Ingestion.ProvisionTwice` | scripts/loadDb.ts:61-74 | after a first call that returned normally, a second call that can list the collections returns normally and the two calls together request at most one creation; with the name already present nothing is created |
| `Ingestion.Database.InsertOne` | scripts/loadDb.ts:137-140 | a successful insert appends the record; a failing one stores nothing |
| `Ingestion.LoadSampleData` | scripts/loadDb.ts:109-154 | the collection gains exactly `Records(pages)`, appended in order; `processedChunks` is the number of inserted records and `skippedChunks` is `Skipped(pages)`; the collection list is untouched |
| `Ingestion.LoadPage` | scripts/loadDb.ts:116-150 | for one page, the collection gains exactly its stored chunks' records and the counters their counts; a page that failed to scrape or split changes nothing |
| `Ingestion.LoadChunks` | scripts/loadDb.ts:120-147 | for one page's chunks, the collection gains exactly the records of the stored chunks, in chunk order; the counters equal the stored and the skipped counts |
| `Ingestion.ProvisionThenLoad` | scripts/loadDb.ts:173 | loading happens only after provisioning returned normally: on a provisioning error nothing is inserted; on success the collection exists and the records and report are those of the load |
| `Ingestion.RecordsAreValid` | scripts/loadDb.ts:130-140 | every inserted record carries a vector that `isValidEmbedding` accepts |
| `Ingestion.Conservation` | scripts/loadDb.ts:111-147 | processed + skipped equals the number of chunks of the pages that were scraped and split |
| `Ingestion.FailedPageIsInert` | scripts/loadDb.ts:116-150 | a page that failed to scrape or split changes neither the records nor either counter, wherever it stands in the list |
| `Ingestion.LoadAppend` | scripts/loadDb.ts:114-151 | loading two page lists one after the other equals loading their concatenation, for records, skips and chunk totals |
| `Ingestion.RecordsFollowChunkOrder` | scripts/loadDb.ts:114-147 | the inserted records are those of all chunks, pages in list order and chunks in split order |
| `Ingestion.InsertedTextsAreSubsequence` | scripts/loadDb.ts:120-147 | the inserted texts are a subsequence of the chunk texts: skipped chunks are left out and order is kept |
| `Json.StringifyRoundTrip` | app/api/chat/route.ts:47 | the serialised array of texts decodes back to exactly those texts, in order |
| `Json.StringifyInjective` | app/api/chat/route.ts:47 | distinct arrays of texts give distinct contexts |
| `Json.StringifyEmpty` | app/api/chat/route.ts:47 | an empty result list serialises to `[]`, not the empty string |
| `Json.StringifyArray` | app/api/chat/route.ts:47 | the serialisation is bracketed by `[` and `]` |
| `Json.StringifyHasNoControl` | app/api/chat/route.ts:47 | every character of the serialised context is at least U+0020, so it holds no `\n` or `\r`; U+2028 and U+2029 are not escaped and may appear |
| `ChatRoute.LatestMessage` | app/api/chat/route.ts:24 | the query is undefined exactly when there are no messages |
| `ChatRoute.LatestMessageIsLast` | app/api/chat/route.ts:24 | the query is the content of the last message |
| `ChatRoute.LatestMessageOfEmpty` | app/api/chat/route.ts:24 | an empty message list gives an undefined query |
| `ChatRoute.Find` | app/api/chat/route.ts:36-43 | the store's answer is a prefix of its ranking of length min(n, limit) |
| `ChatRoute.Texts` | app/api/chat/route.ts:45 | one text per document, position by position |
| `ChatRoute.RetrieveContext` | app/api/chat/route.ts:26-50 | the context stays `""` when `data` is empty, `data[0]` is `null` or `undefined`, or the store fails; otherwise it decodes to the texts of the first min(10, n) ranked documents, in store order; zero hits give `"[]"`; it is one line |
| `ChatRoute.SystemPrompt` | app/api/chat/route.ts:52-68 | a single-line context sits between the `START CONTEXT` and `END CONTEXT` lines, and the question (or `undefined`) between `Question: ` and the closing rule; both read back exactly |
| `ChatRoute.ContentOfIsOptionalChain` | app/api/chat/route.ts:79 | the delta content is defined exactly when the first choice, its delta and the delta's content are all present |
| `ChatRoute.ForwardedIffNonEmpty` | app/api/chat/route.ts:80 | a chunk is forwarded exactly when its content, a missing one read as empty, is non-empty |
| `ChatRoute.StreamController.Enqueue` | app/api/chat/route.ts:81 | enqueueing on an open controller appends the fragment and keeps it open |
| `ChatRoute.StartStream` | app/api/chat/route.ts:76-86 | the controller receives exactly `Fragments(chunks)` and is then closed; nothing is enqueued after close and it is closed once |
| `ChatRoute.StreamController.Close` | app/api/chat/route.ts:84 | closing keeps what was enqueued, and a closed controller cannot be closed or written again |
| `ChatRoute.FragmentsAreNonEmpty` | app/api/chat/route.ts:79-81 | no empty fragment is enqueued |
| `ChatRoute.FragmentsAreSubsequence` | app/api/chat/route.ts:78-83 | the fragments are the delta contents with missing and empty ones dropped, in arrival order |
| `ChatRoute.FragmentsCarryFullText` | app/api/chat/route.ts:78-83 | the concatenated fragments equal the concatenation of all delta contents, missing ones read as empty |
| `ChatRoute.FragmentsAppend` | app/api/chat/route.ts:78-83 | the fragments of two runs of chunks are the first run's followed by the second's |
| `ChatRoute.MissingDeltaIsSkipped` | app/api/chat/route.ts:78-84 | two non-empty deltas around a chunk with no content give exactly those two fragments, and their concatenation |
| `ChatRoute.StreamExample` | app/api/chat/route.ts:78-84 | deltas "Lewis", (none), " Hamilton" give the fragments "Lewis", " Hamilton", concatenating to "Lewis Hamilton" |
| `ChatRoute.Post` | app/api/chat/route.ts:21-98 | a thrown query embedding or completion call propagates; otherwise the model gets n+1 messages, a system prompt first and then the original messages unchanged and in order; the prompt holds the context (empty on retrieval failure, else the top-ten texts) and the latest message; the response body is the filtered fragments and is closed |

## Left out

- Provider calls: the embedding API, the chat API, the vector database calls (`listCollections`, `createCollection`, `insertOne`, `find`) and the headless browser. Only their outcomes are modelled, as parameters. A failed insert is taken to store nothing.
- The text splitter (`RecursiveCharacterTextSplitter`, 512 units with 100 of overlap). It is a library outside the model. Chunks arrive as part of a page's outcome, and no reconstruction or overlap property is claimed.
- Scraping. The page's outcome is taken after scraping, stripping and splitting. `Markup.StripTags` is the stripping expression, proved on its own. A scrape that yields `undefined` (the `?.`) and then fails to split is one of the failure outcomes.
- Nearest-neighbour ranking and cosine similarity. These are floating-point work inside the database. The ranking is an input, and `ChatRoute.Find` stands for the store honouring `limit: 10`. The model does not check that the store really returns at most `limit` documents.
- Embedding element values. They are abstract (`Finite(id)`, `NaN`, `Infinity`), with no arithmetic.
- Lone UTF-16 surrogates. QuoteJSONString writes an unpaired surrogate as a `\uDXXX` escape, but a Dafny `char` is a Unicode scalar value and cannot hold one, so `Json.EscapeChar` has no such case. Such a surrogate could reach `JSON.stringify` in the running system when the splitter cuts a chunk between the two halves of a pair; the model's texts never contain one.
- JSON decoding. `Json.ParseStringArray` is a reference decoder for arrays of strings written without white space. It is not a general JSON parser.
- Failures outside the modelled outcomes: `req.json()` failing or returning a non-array, and messages without a string `content`. Messages are given as (role, content) pairs.
- Document shapes the store never holds: `documents` being undefined and documents without `text`. Every stored record has a text.
- A model stream that throws part-way. That leaves the stream errored through `ReadableStream` runtime behaviour, which the model does not include.
- `TextEncoder` encoding: fragments are kept as strings. Also left out: HTTP headers, console logging, `browser.close`, and async scheduling.
- Ingestion.LoadSampleData: the body of the loop over pages is a separate method, `Ingestion.LoadPage`, and the loop over one page's chunks inside it is `Ingestion.LoadChunks`, rather than nested loops in one body. Keeping them separate keeps each loop's proof small, and the behaviour is the same.
- Configuration: the environment variables are read but never checked by the code, so the model has no configuration failure. The collection name is a parameter.
- Retries, timeouts and concurrent requests: none exist in the code.
