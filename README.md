# A verified model of the support-ticket RAG service

This project models in Dafny the core of a retrieval-augmented answering service for customer
support tickets. At start-up the service reads the `.txt` files of a data directory. It splits
each file into chunks, embeds the chunks and stores the vectors in a FAISS index, with one
metadata entry per vector. To answer a query it embeds the query and retrieves its nearest
chunks. It then builds a fixed prompt that contains a system role, an output format, the
allowed actions, a few-shot example, the query and the retrieved metadata. Finally it asks a
language model for a JSON reply, validated against the `TicketResponse` schema
(`answer`, `references`, `action_required`).

There is one Dafny module per source file:

- `VectorStore` (`vector_store.dfy`): a class `VectorStore<V, M>`.
  - `index` is the sequence of vectors the FAISS index holds; its `ntotal` is `|index|`.
  - `metadata` is the list kept alongside the index.
  - `Add`, `Search`, `Save` and `Load` are methods. `Search` is proved against the function
    `SearchResults`, which follows Python's list indexing (negative labels count from the end).
- `TextProcessor` (`text_processor.dfy`):
  - the class `FileLoader`, whose loop over a directory walk is proved against `Loaded`;
  - the file-name-to-display-name conversion (`splitext`, `replace("_", " ")`, `title()`);
  - `TextChunker`, whose `split_docs` loop is proved against `ChunkLoop`.
- `PromptBuilder` (`prompt_builder.dfy`):
  - the prompt constants;
  - the prompt as a concatenation of pieces, with the position of every section marker proved.
- `LLMService` (`llm_service.dfy`): client creation, and `generate` with its three outcomes
  (a parsed reply, a schema error, a generic error).
- `RAGService` (`rag_service.dfy`): `answer_query` as a composition of the calls the agent makes
  on its services.
- `ServiceContainer` (`service_container.dfy`): the class that builds all services in order.
  - `Initialize` is proved against `StartupOutcome`, the function that says which stage ends
    start-up.
  - `GetStatus` reports the health flags.

`Wrappers` (`wrappers.dfy`) holds `Option`, `Result` and `Outcome`. `Config` (`config.dfy`)
holds the `TicketResponse` record.

External components become parameters:
- the FAISS index search;
- the sentence-embedding model;
- the text splitter;
- the file system (a directory listing with each file's read outcome);
- the Gemini client;
- pydantic validation and dumping;
- Python's `repr` of the metadata list.

A raised exception becomes a `None`, `Failure` or `Fail` value at the place where the source
catches it.

## Model

| member | source | states |
|---|---|---|
| VectorStore.VectorStore.constructor | src/services/VectorStore.py:9-14 | a new store has the given dimension (384 by default), an empty index and empty metadata |
| VectorStore.VectorStore.Add | src/services/VectorStore.py:16-27 | a length mismatch fails first and changes nothing; a failing index add changes nothing; otherwise the vectors and metadata are appended in order; index and metadata stay aligned |
| VectorStore.VectorStore.Search | src/services/VectorStore.py:29-46 | the results are `SearchResults` of the hits the index reports, or `[]` when the index search raises |
| VectorStore.SearchResultsBounded | src/services/VectorStore.py:34-42 | a search never returns more results than the index reported hits |
| VectorStore.SearchResultsFollowHits | src/services/VectorStore.py:35-40 | when no label is below `-len(metadata)`, there is one result per hit passing `idx < len(metadata)`, in index order, carrying that hit's score and Python's `metadata[idx]` |
| VectorStore.SearchLoopFailureSticks | src/services/VectorStore.py:35-46 | once an `IndexError` escapes the loop, the whole search yields `[]` |
| VectorStore.EmptyStoreSearchesEmpty | src/services/VectorStore.py:36-39 | a store without metadata returns `[]`, whatever the index reports |
| VectorStore.SearchResultsOfValidLabels | src/services/VectorStore.py:35-40 | when every label names a stored entry, the results are exactly `(score_i, metadata[idx_i])` for each hit, in order |
| VectorStore.PaddedSearchRepeatsLast | src/services/VectorStore.py:32-40 | as written: FAISS's shape of answer for `0 < n < k` gives `k` results, and each padded one repeats the last stored entry |
| VectorStore.BoundedSearchResults | src/services/VectorStore.py:35-40 | the intended guard never returns more results than hits |
| VectorStore.BoundedSearchOfPadding | src/services/VectorStore.py:36-39 | under the intended guard, `-1` labels produce no result |
| VectorStore.BoundedSearchOnFaissShape | src/services/VectorStore.py:32-40 | under the intended guard, FAISS's shape of answer gives exactly `min(k, n)` results, one per stored neighbour, in order |
| VectorStore.VectorStore.Save | src/services/VectorStore.py:49-63 | the directory, index file and metadata file are written in order; the first failure is reported with its path; the files hold the current index and metadata |
| VectorStore.VectorStore.Load | src/services/VectorStore.py:66-80 | the index is replaced first and the metadata second; when only the metadata read fails, the new index stays paired with the old metadata |
| VectorStore.SaveThenLoad | src/services/VectorStore.py:49-80 | saving and then loading into a fresh store of the same dimension reproduces index and metadata |
| TextProcessor.HasTxtExtensionExactly | src/services/TextProcessor.py:21 | a file passes the `.txt` test if and only if its name ends in a dot followed by `t`, `x`, `t` in either case |
| TextProcessor.TxtExtensionExamples | src/services/TextProcessor.py:21 | `FAQ.TXT` and `notes.Txt` are loaded; `notes.md` and a bare `txt` are not |
| TextProcessor.StemOfExtension | src/services/TextProcessor.py:26 | `splitext` on `stem + ext`, with `ext` a single dot and no other dot and a stem that is not all dots, gives back the stem; a name without a dot is its own stem |
| TextProcessor.DisplayName | src/services/TextProcessor.py:26 | the display name has the length of the `splitext` stem, which is no longer than the file name |
| TextProcessor.LastIndexOf | src/services/TextProcessor.py:26 | the position of the last occurrence of a character (the dot `splitext` looks for), or none if it is absent |
| TextProcessor.ReplaceUnderscores | src/services/TextProcessor.py:26 | same length, and no `_` is left |
| TextProcessor.TitleCaseAt | src/services/TextProcessor.py:26 | `title()` keeps the length, upper-cases a letter that follows a non-letter and lower-cases a letter that follows a letter |
| TextProcessor.DisplayNameHasNoUnderscore | src/services/TextProcessor.py:26 | no display name contains `_` |
| TextProcessor.DisplayNameOfExtension | src/services/TextProcessor.py:26 | for a stem that is not all dots, `name.ext` displays as the title-cased stem with underscores turned into spaces |
| TextProcessor.DisplayNameExample | src/services/TextProcessor.py:26 | `my_faq.txt` is shown as `My Faq` |
| TextProcessor.DisplayNameOfBareExtension | src/services/TextProcessor.py:26 | `.txt` keeps its dot (`splitext` ignores a leading dot) and is shown as `.Txt` |
| TextProcessor.LoadedAppend | src/services/TextProcessor.py:19-29 | loading a walk in two parts loads each part, in walk order |
| TextProcessor.LoadedExactly | src/services/TextProcessor.py:19-29 | a document is loaded if and only if some walked file loads as it |
| TextProcessor.LoadedNamesHaveNoUnderscore | src/services/TextProcessor.py:19-29 | every loaded entry is a well-formed `(name, content)` pair whose name has no `_` |
| TextProcessor.FileLoader.constructor | src/services/TextProcessor.py:9-10 | the loader remembers its directory |
| TextProcessor.FileLoader.LoadFiles | src/services/TextProcessor.py:12-32 | a missing directory gives `[]`; otherwise the result is `Loaded` of the walk |
| TextProcessor.TagKeepsPieces | src/services/TextProcessor.py:53-60 | tagging keeps the split pieces in order and labels each with the document's name |
| TextProcessor.NewTextChunker | src/services/TextProcessor.py:36-49 | construction succeeds if and only if documents are given, non-empty, and the splitter accepts the chunk size and overlap; otherwise it fails with the `ValueError` of the first check that fails, in that order |
| TextProcessor.TextChunker.SplitIntoChunks | src/services/TextProcessor.py:51-63 | one chunk per piece the splitter returns (none when it raises), each with the document's name, texts in order |
| TextProcessor.TextChunker.AllChunksAppend | src/services/TextProcessor.py:65-73 | chunking two lists of documents concatenates their chunks and adds their counts |
| TextProcessor.TextChunker.ChunkLoopConcatenates | src/services/TextProcessor.py:65-73 | for well-formed documents, `split_docs` returns every document's chunks in order, as many as the splitter produced in total |
| TextProcessor.TextChunker.ChunkLoopFailsOnMalformed | src/services/TextProcessor.py:68-76 | one entry that does not unpack into a pair makes `split_docs` return `[]` |
| TextProcessor.TextChunker.ChunkNamesComeFromDocuments | src/services/TextProcessor.py:53-71 | every chunk's file name is the name of some document |
| TextProcessor.TextChunker.SplitDocs | src/services/TextProcessor.py:65-76 | the loop returns `ChunkLoop` of the documents, or `[]` when it fails |
| TextProcessor.SingleDocumentSingleChunk | src/services/TextProcessor.py:51-73 | a document that the splitter leaves whole yields one chunk, carrying its text and name |
| PromptBuilder.PyListShowsEach | src/services/PromptBuilder.py:16 | every item's quoted form appears in the rendered list |
| PromptBuilder.ActionsNameFiveActions | src/services/PromptBuilder.py:16 | the action list has five distinct names, and each appears quoted in `ACTIONS` |
| PromptBuilder.FewShotActionIsListed | src/services/PromptBuilder.py:25-36 | the few-shot example's `action_required` is one of the listed actions |
| PromptBuilder.OutputFormatNamesTicketFields | src/services/PromptBuilder.py:18-23 | the output format describes exactly the `TicketResponse` fields, in declaration order, each on its own line |
| PromptBuilder.Metadatas | src/services/PromptBuilder.py:72 | the list comprehension fails if and only if some document lacks `metadata`; otherwise it gives each document's value, in order |
| PromptBuilder.Template.FieldsInOrder | src/services/PromptBuilder.py:52-66 | the header shows the system role, output format, action list and the worked example's query, context and answer whole, in that order |
| PromptBuilder.PromptHeaderShowsConstants | src/services/PromptBuilder.py:4-66 | every prompt's header shows `SYSTEM_ROLE`, `OUTPUT_FORMAT`, `ACTIONS` and the three parts of `FEW_SHOT_SAMPLE` whole, in that order |
| PromptBuilder.Template.HeaderMarkersInOrder | src/services/PromptBuilder.py:52-66 | the system role, "Output Format:", "Action List:" and "FEW-SHOT EXAMPLE:" sit in the header at strictly increasing offsets |
| PromptBuilder.Template.MarkersAtStarts | src/services/PromptBuilder.py:52-73 | each of the six section markers sits at its computed offset, and the offsets strictly increase |
| PromptBuilder.Template.MarkersInOrder | src/services/PromptBuilder.py:52-73 | the six section markers occur in the filled prompt in order |
| PromptBuilder.UserSectionLayout | src/services/PromptBuilder.py:68-73 | "USER QUERY:", the query, "QUERY CONTEXT:" and the context sit at fixed offsets of the user section, whose length is `37 + |query| + |context|` |
| PromptBuilder.BuildPrompt | src/services/PromptBuilder.py:40-75 | building fails with `KeyError('metadata')` if and only if some document lacks `metadata` |
| PromptBuilder.SectionsInOrder | src/services/PromptBuilder.py:52-73 | a built prompt holds the system role, Output Format, Action List, FEW-SHOT EXAMPLE, USER QUERY and QUERY CONTEXT sections in that order |
| PromptBuilder.QueryAppearsVerbatim | src/services/PromptBuilder.py:68-73 | the query appears verbatim right after "Query: ", the rendered metadata right after "QUERY CONTEXT:", at fixed offsets past the header |
| PromptBuilder.QueryDeterminesPrompt | src/services/PromptBuilder.py:69 | two queries that give the same prompt over the same documents are equal |
| PromptBuilder.ContextIsMetadataOnly | src/services/PromptBuilder.py:72 | documents with equal metadata give equal prompts: chunk texts and scores never reach the prompt |
| LLMService.NewLLMService | src/services/LLMService.py:15-29 | construction succeeds if and only if the client can be created, and keeps the model name; otherwise it fails with "Client initialization failed" |
| LLMService.Generate | src/services/LLMService.py:31-71 | success if and only if the client returns a non-empty text that validates, and the result is the dump of the parsed object; any failure, including an exception from the client call, says "LLM returned invalid schema" or "LLM generation error" |
| LLMService.InvalidSchemaOnlyFromValidation | src/services/LLMService.py:43-71 | "LLM returned invalid schema" is reported if and only if a `ValidationError` occurs inside the `try`: the client call raised one, or a non-empty reply fails schema validation |
| LLMService.EmptyReplyIsGenericError | src/services/LLMService.py:54-71 | an empty or missing reply text is reported as "LLM generation error", because the generic handler re-wraps the "Empty response from model" error raised inside the `try` |
| LLMService.GenerateAsksInJsonMode | src/services/LLMService.py:43-52 | the outcome of `generate` depends only on the client's reply to the request with the service's model, the prompt, the `application/json` MIME type, the response model's schema and the temperature |
| LLMService.OnlyTheRequestMatters | src/services/LLMService.py:43-63 | two services with the same model whose clients answer that one request alike give the same result |
| RAGService.NewRAGAgent | src/services/RAGService.py:10-23 | the agent holds the LLM service, vector store and embedding service it is given (the schema is dropped, see `OutputSchemaIgnored`) |
| RAGService.EmbedQuery | src/services/RAGService.py:26-32 | the result is `None` if and only if the agent's embedding service raises, and otherwise is that service's embedding |
| RAGService.RetrieveDocuments | src/services/RAGService.py:35-44 | the result is `None` if and only if the agent's store raises on the search with `top_k` forwarded, and otherwise is the store's documents |
| RAGService.AnswerQuery | src/services/RAGService.py:48-57 | an answer comes back if and only if the prompt is built and generation succeeds, and it is generation's result |
| RAGService.NoRelevancyGate | src/services/RAGService.py:48-55 | any retrieved documents, an empty list included, go into the prompt and the prompt goes to the model |
| RAGService.RetrievalOrPromptFailureGivesNoAnswer | src/services/RAGService.py:35-57 | a store that raises, or a document without `metadata`, gives no answer |
| RAGService.EmbedFailureStillAsksModel | src/services/RAGService.py:26-54 | a failed embedding is passed on as `None`; when the store then returns `[]`, the model is asked with the empty-context prompt |
| RAGService.AnswerUsesOnlyTheseCalls | src/services/RAGService.py:51-54 | the answer depends only on the embedding of `[query]`, the search with `top_k` forwarded, and generation with `TicketResponse` |
| RAGService.OutputSchemaIgnored | src/services/RAGService.py:10-20 | the `output_schema` passed to the constructor has no effect on any answer |
| RAGService.EmptyModelReplyGivesNoAnswer | src/services/RAGService.py:48-57 | with the real LLM service behind the agent, an empty model reply gives no answer |
| ServiceContainer.StartupOutcome | src/api/ServiceContainer.py:39-87 | start-up passes only when the LLM and embedding services are built and at least one chunk exists |
| ServiceContainer.RefusedSizesStopBeforeSplitting | src/api/ServiceContainer.py:63-66 | start-up fails with the chunker's `ValueError` if and only if both services were built, documents loaded, and the splitter refuses chunk size 1000 with overlap 100; the splitter, embedder and index are never used then |
| ServiceContainer.StartupChunksAreAllChunks | src/api/ServiceContainer.py:57-67 | the chunks produced at start-up are those of every loaded document, in order, as many as the splitter produced |
| ServiceContainer.NoDocumentsStopsBeforeChunking | src/api/ServiceContainer.py:57-60 | "No documents found in data directory" is raised if and only if both services were built and no document loaded; a missing directory raises it; splitter, embedder and index are never consulted then |
| ServiceContainer.NoChunksStopsBeforeEmbedding | src/api/ServiceContainer.py:64-69 | "Failed to chunk documents" is raised if and only if there are documents, the splitter accepts the sizes, but it gives no piece for any of them; embedder and index are never consulted then |
| ServiceContainer.SuccessEmbedsEveryChunk | src/api/ServiceContainer.py:73-74 | a successful start-up embedded every chunk (one vector each, at least one) and the index accepted them |
| ServiceContainer.ServiceContainer.constructor | src/api/ServiceContainer.py:32-37 | a new container holds no service and reports everything uninitialized, with store size 0 |
| ServiceContainer.ServiceContainer.GetStatus | src/api/ServiceContainer.py:89-98 | in a consistent container, overall initialization implies every service flag; the store size is 0 without a store |
| ServiceContainer.ServiceContainer.Initialize | src/api/ServiceContainer.py:39-87 | the outcome is `StartupOutcome`; services built before a failure stay assigned and the rest keep their old values; on success the fresh 384-dimension store holds exactly the chunks as metadata and their embeddings as vectors, and `get_status` reports all flags and `len(chunks)` vectors; on failure it reports not initialized |

## Left out

- Logging, warnings and `sys.path` set-up are not modelled: they do not affect results.
- FAISS's L2 search is not modelled. The index search is a parameter returning `(score, label)` pairs; scores are opaque, so `float(dist)` is not modelled.
- Floating point is not modelled: vectors are opaque values, and the temperature is a `real`.
- The on-disk formats (`index.faiss`, pickle) are not modelled. A file is modelled as present with its contents or as unreadable.
- `os.walk`, `open` and the file encoding are not modelled: `load_files` takes the walk as a list of `(name, read outcome)` entries, `None` for a missing directory. The directory path (`config.FileLoaderConfig.path`) therefore plays no part.
- `RecursiveCharacterTextSplitter` is a parameter; its splitting rules are not modelled. Which chunk sizes and overlaps its constructor refuses is a parameter too (`SplitterCheck`), as is the message of the `ValueError` it raises.
- `str.lower` and `str.title` are modelled on ASCII letters only; other characters are treated as uncased.
- Python's `repr` of the metadata list is a parameter of the prompt builder. The few-shot example output is rendered from its fields in the dict layout Python prints.
- `EmbeddingService` (src/services/EmbeddingService.py) is not part of this model. Start-up takes whether its model loads and its `encode` as parameters. The container's `metas` are the chunks themselves, as `embed_documents` returns them. The dimension-mismatch warning (which names an unimported `logging`) is not modelled.
- `async`/`await` is not modelled: `generate` and `answer_query` are modelled as plain functions.
- The Gemini client is a function from the one request to a reply.
- The `GOOGLE_API_KEY` environment variable is a parameter.
- `ALLOWED_ORIGINS`, `ENV` and the web application (src/api/app.py) are not part of this model. That includes its fallback reply with action `user_input_required`, which is not one of the five listed actions.
- RAGService.AnswerQuery: the agent holds its services by value and the store's search is a parameter. The model therefore does not capture that the container and the agent share one `VectorStore` object.
- The source has no relevancy threshold, prompt validation or enumerated type for `action_required` (a plain `str`). The model follows the code: `NoRelevancyGate` and `Config.TicketResponse` state this.
- ServiceContainer.ServiceContainer.Initialize: the `logger.exception` and re-raise are modelled as the returned `Fail` outcome; the file loader's directory argument plays no part because the walk is a parameter.

## Findings

| source | as written | input that shows it | evidently intended | confidence | as-written member | corrected member |
|---|---|---|---|---|---|---|
| src/services/VectorStore.py:36-39 | `search` keeps any label with `idx < len(self.metadata)`. FAISS pads missing neighbours with label `-1`, which passes the guard and is read as `metadata[-1]`. | a store of 3 entries searched with `top_k=5`; FAISS reports labels `[0, 1, 2, -1, -1]`; the search returns 5 results, the last two repeating entry 2 | only labels `0 <= idx < len(metadata)` name an entry, so the search returns `min(k, n)` results | not executed | VectorStore.PaddedSearchRepeatsLast | VectorStore.BoundedSearchOnFaissShape |
