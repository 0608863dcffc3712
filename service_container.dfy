/** The application's service container: it builds the language-model service, the embedding
  * service, the vector store and the RAG agent one after the other, and records whether all of
  * that succeeded. */
module ServiceContainer {
  import opened Wrappers
  import TextProcessor
  import VectorStore
  import LLMService
  import RAGService

  const ChunkSize: int := 1000
  const ChunkOverlap: int := 100
  const EmbeddingDim: int := 384
  const DefaultEmbeddingModel: string := "all-MiniLM-L6-v2"

  const NoDocumentsMessage: string := "No documents found in data directory"
  const NoChunksMessage: string := "Failed to chunk documents"

  /** The embedding service as the container holds it. */
  datatype EmbeddingService = EmbeddingService(modelName: string, embeddingDim: int)

  const DefaultEmbedder: EmbeddingService := EmbeddingService(DefaultEmbeddingModel, EmbeddingDim)

  /** The exception that ends a failed start-up. */
  datatype InitError =
    | LlmInitFailed(llmError: LLMService.LLMServiceError)
    | EmbedderInitFailed
    | RuntimeError(message: string)
    | ChunkerInitFailed(chunkerError: TextProcessor.ChunkerError)
    | EmbedFailed
    | StoreAddFailed(storeError: VectorStore.StoreError)

  /** What the environment and the external components do during start-up: the API key from the
    * environment, the model client's creation, whether the sentence-embedding model loads, the
    * data directory's listing, whether the text splitter accepts the configured sizes, the text
    * splitter, and the embedding of a list of texts (`None` when it raises). */
  datatype Startup<V> = Startup(
    apiKey: Option<string>,
    connect: string -> Option<LLMService.Request -> LLMService.Reply>,
    embedderLoads: bool,
    listing: Option<seq<TextProcessor.FileEntry>>,
    splitterCheck: TextProcessor.SplitterCheck,
    splitter: TextProcessor.Splitter,
    encode: seq<string> -> Option<seq<V>>,
    indexAccepts: bool)

  /** The language-model service start-up builds, if its client can be created. */
  function StartupLlm<V>(s: Startup<V>): Result<LLMService.LLMService, LLMService.LLMServiceError> {
    LLMService.NewLLMService(s.apiKey.GetOr(""), LLMService.DefaultModel, s.connect)
  }

  /** Start-up gets past the embedding service, and so creates a vector store. */
  predicate BuildsStore<V>(s: Startup<V>) {
    StartupLlm(s).Success? && s.embedderLoads
  }

  /** The documents the loader returns from the data directory. */
  function StartupDocuments<V>(s: Startup<V>): seq<TextProcessor.DocumentEntry> {
    match s.listing
    case None => []
    case Some(entries) => TextProcessor.Loaded(entries)
  }

  /** The chunker built over those documents with the configured sizes. */
  function StartupChunker<V>(s: Startup<V>): Result<TextProcessor.TextChunker, TextProcessor.ChunkerError> {
    TextProcessor.NewTextChunker(Some(StartupDocuments(s)), s.splitterCheck, ChunkSize, ChunkOverlap)
  }

  /** The chunks `split_docs` returns for those documents. */
  function StartupChunks<V>(s: Startup<V>): seq<TextProcessor.Chunk> {
    var docs := StartupDocuments(s);
    TextProcessor.TextChunker(docs, ChunkSize, ChunkOverlap).ChunkLoop(s.splitter, docs).GetOr([])
  }

  /** How start-up ends: the first stage that fails, in the order LLM service, embedding service,
    * documents, chunker, chunks, embeddings, store population. */
  function StartupOutcome<V>(s: Startup<V>): (r: Outcome<InitError>)
    ensures r.Pass? ==> BuildsStore(s) && StartupChunks(s) != []
  {
    if StartupLlm(s).Failure? then Fail(LlmInitFailed(StartupLlm(s).error))
    else if !s.embedderLoads then Fail(EmbedderInitFailed)
    else if StartupDocuments(s) == [] then Fail(RuntimeError(NoDocumentsMessage))
    else if StartupChunker(s).Failure? then Fail(ChunkerInitFailed(StartupChunker(s).error))
    else if StartupChunks(s) == [] then Fail(RuntimeError(NoChunksMessage))
    else match s.encode(TextProcessor.Texts(StartupChunks(s)))
      case None => Fail(EmbedFailed)
      case Some(embeddings) =>
        if |embeddings| != |StartupChunks(s)| then Fail(StoreAddFailed(VectorStore.LengthMismatch))
        else if !s.indexAccepts then Fail(StoreAddFailed(VectorStore.IndexAddFailed))
        else Pass
  }

  /** The loader yields only well-formed documents, so the chunks are those of every document in
    * order, as many as the splitter produced for all of them together. */
  lemma StartupChunksAreAllChunks<V>(s: Startup<V>)
    ensures var docs := StartupDocuments(s);
            var chunker := TextProcessor.TextChunker(docs, ChunkSize, ChunkOverlap);
            StartupChunks(s) == chunker.AllChunks(s.splitter, docs)
            && |StartupChunks(s)| == chunker.ChunkCount(s.splitter, docs)
  {
    var docs := StartupDocuments(s);
    if s.listing.Some? {
      TextProcessor.LoadedNamesHaveNoUnderscore(s.listing.value);
      assert forall i :: 0 <= i < |docs| ==> docs[i].Document? by {
        forall i | 0 <= i < |docs| ensures docs[i].Document? {
          assert docs[i] in docs;
        }
      }
    }
    var chunker := TextProcessor.TextChunker(docs, ChunkSize, ChunkOverlap);
    chunker.ChunkLoopConcatenates(s.splitter, docs);
  }

  /** An empty or missing data directory stops start-up with "No documents found in data
    * directory" once the two services are built, before the splitter is built or used and before
    * the embedder or the index is used. */
  lemma NoDocumentsStopsBeforeChunking<V>(s: Startup<V>, splitterCheck: TextProcessor.SplitterCheck, splitter: TextProcessor.Splitter,
                                          encode: seq<string> -> Option<seq<V>>, indexAccepts: bool)
    ensures StartupOutcome(s) == Fail(RuntimeError(NoDocumentsMessage))
            <==> BuildsStore(s) && StartupDocuments(s) == []
    ensures BuildsStore(s) && s.listing.None? ==> StartupOutcome(s) == Fail(RuntimeError(NoDocumentsMessage))
    ensures StartupOutcome(s) == Fail(RuntimeError(NoDocumentsMessage))
            ==> StartupOutcome(s.(splitterCheck := splitterCheck, splitter := splitter, encode := encode, indexAccepts := indexAccepts)) == StartupOutcome(s)
  {
    assert NoChunksMessage != NoDocumentsMessage by {
      assert |NoChunksMessage| != |NoDocumentsMessage|;
    }
  }

  /** With documents present, a splitter that refuses the configured chunk size and overlap stops
    * start-up with its `ValueError`, before any document is split. */
  lemma RefusedSizesStopBeforeSplitting<V>(s: Startup<V>, splitter: TextProcessor.Splitter, encode: seq<string> -> Option<seq<V>>, indexAccepts: bool)
    ensures StartupOutcome(s).Fail? && StartupOutcome(s).error.ChunkerInitFailed?
            <==> BuildsStore(s) && StartupDocuments(s) != [] && s.splitterCheck(ChunkSize, ChunkOverlap).Some?
    ensures StartupOutcome(s).Fail? && StartupOutcome(s).error.ChunkerInitFailed?
            ==> StartupOutcome(s).error.chunkerError == TextProcessor.ValueError(s.splitterCheck(ChunkSize, ChunkOverlap).value)
                && StartupOutcome(s.(splitter := splitter, encode := encode, indexAccepts := indexAccepts)) == StartupOutcome(s)
  {
  }

  /** With documents present and the sizes accepted, start-up stops with "Failed to chunk
    * documents" exactly when the splitter gives no piece for any document, before the embedder or
    * the index is used. */
  lemma NoChunksStopsBeforeEmbedding<V>(s: Startup<V>, encode: seq<string> -> Option<seq<V>>, indexAccepts: bool)
    ensures var docs := StartupDocuments(s);
            StartupOutcome(s) == Fail(RuntimeError(NoChunksMessage))
            <==> BuildsStore(s) && docs != [] && s.splitterCheck(ChunkSize, ChunkOverlap).None?
                 && TextProcessor.TextChunker(docs, ChunkSize, ChunkOverlap).ChunkCount(s.splitter, docs) == 0
    ensures StartupOutcome(s) == Fail(RuntimeError(NoChunksMessage))
            ==> StartupOutcome(s.(encode := encode, indexAccepts := indexAccepts)) == StartupOutcome(s)
  {
    StartupChunksAreAllChunks(s);
    assert NoChunksMessage != NoDocumentsMessage by {
      assert |NoChunksMessage| != |NoDocumentsMessage|;
    }
  }

  /** A successful start-up embedded every chunk: one vector per chunk, at least one chunk. */
  lemma SuccessEmbedsEveryChunk<V>(s: Startup<V>)
    requires StartupOutcome(s).Pass?
    ensures s.encode(TextProcessor.Texts(StartupChunks(s))).Some?
    ensures |s.encode(TextProcessor.Texts(StartupChunks(s))).value| == |StartupChunks(s)| > 0
    ensures s.indexAccepts
  {
  }

  /** The health report of `get_status`. */
  datatype Status = Status(
    llmInitialized: bool, embeddingInitialized: bool, vectorStoreInitialized: bool,
    vectorStoreSize: int, ragInitialized: bool, overallInitialized: bool)

  class ServiceContainer<V> {
    var llm: Option<LLMService.LLMService>
    var embedEngine: Option<EmbeddingService>
    var vectorStore: VectorStore.VectorStore?<V, TextProcessor.Chunk>
    var rag: Option<RAGService.RAGAgent<LLMService.LLMService, VectorStore.VectorStore<V, TextProcessor.Chunk>, EmbeddingService>>
    var initialized: bool

    /** When the container says it is initialized, every service is there. */
    ghost predicate Consistent()
      reads this
    {
      initialized ==> llm.Some? && embedEngine.Some? && vectorStore != null && rag.Some?
    }

    constructor ()
      ensures llm == None && embedEngine == None && vectorStore == null && rag == None && !initialized
      ensures Consistent()
      ensures GetStatus() == Status(false, false, false, 0, false, false)
    {
      llm := None;
      embedEngine := None;
      vectorStore := null;
      rag := None;
      initialized := false;
    }

    /** `get_status`: each service flag says whether the field is set; the store size is the
      * index's vector count, 0 without a store. */
    function GetStatus(): (st: Status)
      reads this, vectorStore
      ensures Consistent() && st.overallInitialized
              ==> st.llmInitialized && st.embeddingInitialized && st.vectorStoreInitialized && st.ragInitialized
      ensures st.vectorStoreSize >= 0
      ensures !st.vectorStoreInitialized ==> st.vectorStoreSize == 0
    {
      Status(
        llm.Some?, embedEngine.Some?, vectorStore != null,
        if vectorStore != null then |vectorStore.index| else 0,
        rag.Some?, initialized)
    }

    /**
     * `initialize`: build the services in order, stopping at the first failure. A failure sets
     * `initialized` to false; services assigned before it stay assigned, the others keep their
     * previous values. On success every service is set, the store holds one vector and one
     * metadata entry per chunk, and `initialized` is true.
     */
    method Initialize(s: Startup<V>) returns (r: Outcome<InitError>)
      modifies this
      ensures r == StartupOutcome(s)
      ensures initialized <==> r.Pass?
      ensures llm == if StartupLlm(s).Success? then Some(StartupLlm(s).value) else old(llm)
      ensures embedEngine == if BuildsStore(s) then Some(DefaultEmbedder) else old(embedEngine)
      ensures !BuildsStore(s) ==> vectorStore == old(vectorStore)
      ensures BuildsStore(s) ==> vectorStore != null && fresh(vectorStore) && vectorStore.embeddingDim == EmbeddingDim
                                 && vectorStore.Aligned()
                                 && vectorStore.metadata == (if r.Pass? then StartupChunks(s) else [])
                                 && vectorStore.index == (if r.Pass? then s.encode(TextProcessor.Texts(StartupChunks(s))).value else [])
      ensures rag == if r.Pass? then Some(RAGService.RAGAgent(llm.value, vectorStore, embedEngine.value)) else old(rag)
      ensures Consistent()
      ensures r.Pass? ==> GetStatus() == Status(true, true, true, |StartupChunks(s)|, true, true)
      ensures r.Fail? ==> !GetStatus().overallInitialized
    {
      initialized := false;
      var llmResult := StartupLlm(s);
      if llmResult.Failure? {
        return Fail(LlmInitFailed(llmResult.error));
      }
      llm := Some(llmResult.value);
      if !s.embedderLoads {
        return Fail(EmbedderInitFailed);
      }
      embedEngine := Some(DefaultEmbedder);
      var store := new VectorStore.VectorStore<V, TextProcessor.Chunk>(EmbeddingDim);
      vectorStore := store;

      var loader := new TextProcessor.FileLoader(TextProcessor.DefaultDirectory);
      var docs := loader.LoadFiles(s.listing);
      if docs == [] {
        return Fail(RuntimeError(NoDocumentsMessage));
      }
      var made := TextProcessor.NewTextChunker(Some(docs), s.splitterCheck, ChunkSize, ChunkOverlap);
      if made.Failure? {
        return Fail(ChunkerInitFailed(made.error));
      }
      var chunker := made.value;
      var chunks := chunker.SplitDocs(s.splitter);
      if chunks == [] {
        return Fail(RuntimeError(NoChunksMessage));
      }
      var embeddings := s.encode(TextProcessor.Texts(chunks));
      if embeddings.None? {
        return Fail(EmbedFailed);
      }
      var added := store.Add(embeddings.value, chunks, s.indexAccepts);
      if added.Fail? {
        return Fail(StoreAddFailed(added.error));
      }
      rag := Some(RAGService.RAGAgent(llmResult.value, store, DefaultEmbedder));
      initialized := true;
      r := Pass;
    }
  }
}
