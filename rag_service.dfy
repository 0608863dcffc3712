/** The retrieval-augmented answering pipeline: embed the query, retrieve documents, build the
  * prompt, generate the structured answer. Every stage failure is swallowed and turns into
  * `None`; nothing checks how relevant the retrieved documents are. */
module RAGService {
  import opened Wrappers
  import PromptBuilder
  import LLMService

  const DefaultTopK: int := 5

  /** What is handed to the embedding service: a bare string, or a list of strings. */
  datatype EmbedInput = Text(text: string) | Texts(texts: seq<string>)

  /** A response-model class passed to the language model; the pipeline always passes
    * `TicketResponse`. */
  datatype Schema = Schema(name: string)

  const TicketResponseSchema: Schema := Schema("TicketResponse")

  /** An exception raised by a service and caught by the agent's handler. */
  datatype ServiceException = ServiceException

  /** The agent keeps the three services it was given; the `output_schema` it is constructed with
    * is not kept. */
  datatype RAGAgent<L, S, E> = RAGAgent(llm: L, vectorStore: S, embeddingService: E)

  /** The calls the agent makes on its services: each gives the service's result or the exception
    * it raises. The store is searched with `None` when the embedding was lost. */
  datatype Services<-L, -S, -E, !Emb, V, D> = Services(
    embed: (E, EmbedInput) -> Result<Emb, ServiceException>,
    search: (S, Option<Emb>, int) -> Result<seq<PromptBuilder.ContextDoc<V>>, ServiceException>,
    generate: (L, string, Schema) -> Result<D, LLMService.LLMServiceError>)

  /** `RAGAgent(llm_service, vector_store, embedding_service, output_schema)`: the agent holds the
    * three services it is given; `OutputSchemaIgnored` shows the schema leaves no trace. */
  function NewRAGAgent<L, S, E>(llm: L, vectorStore: S, embeddingService: E, outputSchema: Schema): (r: RAGAgent<L, S, E>)
    ensures r.llm == llm && r.vectorStore == vectorStore && r.embeddingService == embeddingService
  {
    RAGAgent(llm, vectorStore, embeddingService)
  }

  /** `embed_query`: the agent's embedding service's result; an exception is logged and
    * swallowed, and the method returns `None`. */
  function EmbedQuery<L, S, E, Emb, V, D>(agent: RAGAgent<L, S, E>, services: Services<L, S, E, Emb, V, D>, input: EmbedInput): (r: Option<Emb>)
    ensures r.None? <==> services.embed(agent.embeddingService, input).Failure?
    ensures r.Some? ==> r.value == services.embed(agent.embeddingService, input).value
  {
    services.embed(agent.embeddingService, input).ToOption()
  }

  /** `retrieve_documents`: the agent's store searched for the embedding (which may be `None`)
    * with `top_k` forwarded; an exception is logged and swallowed, and the method returns `None`. */
  function RetrieveDocuments<L, S, E, Emb, V, D>(agent: RAGAgent<L, S, E>, services: Services<L, S, E, Emb, V, D>, embedding: Option<Emb>, topK: int := DefaultTopK): (r: Option<seq<PromptBuilder.ContextDoc<V>>>)
    ensures r.None? <==> services.search(agent.vectorStore, embedding, topK).Failure?
    ensures r.Some? ==> r.value == services.search(agent.vectorStore, embedding, topK).value
  {
    services.search(agent.vectorStore, embedding, topK).ToOption()
  }

  /** The prompt `answer_query` builds for the query, when retrieval and prompt building succeed. */
  function PromptFor<L, S, E, Emb, V, D>(agent: RAGAgent<L, S, E>, services: Services<L, S, E, Emb, V, D>, repr: seq<V> -> string, query: string, topK: int): Option<string> {
    var embedding := EmbedQuery(agent, services, Texts([query]));
    match RetrieveDocuments(agent, services, embedding, topK)
    case None => None
    case Some(docs) => PromptBuilder.BuildPrompt(query, docs, repr).ToOption()
  }

  /** `answer_query`: the generated answer, or `None` when any stage fails. A `None` embedding is
    * still handed to the store; a `None` document list makes prompt building raise. `repr` is
    * Python's rendering of the metadata list into the prompt. */
  function AnswerQuery<L, S, E, Emb, V, D>(agent: RAGAgent<L, S, E>, services: Services<L, S, E, Emb, V, D>, repr: seq<V> -> string, query: string, topK: int := DefaultTopK): (r: Option<D>)
    ensures r.Some? <==>
              (PromptFor(agent, services, repr, query, topK).Some?
               && services.generate(agent.llm, PromptFor(agent, services, repr, query, topK).value, TicketResponseSchema).Success?)
    ensures r.Some? ==> services.generate(agent.llm, PromptFor(agent, services, repr, query, topK).value, TicketResponseSchema) == Success(r.value)
  {
    match PromptFor(agent, services, repr, query, topK)
    case None => None
    case Some(prompt) => services.generate(agent.llm, prompt, TicketResponseSchema).ToOption()
  }

  /** There is no relevancy gate: whatever documents the store returns, an empty list included, go
    * into the prompt and the prompt goes to the language model. */
  lemma NoRelevancyGate<L, S, E, Emb, V, D>(agent: RAGAgent<L, S, E>, services: Services<L, S, E, Emb, V, D>, repr: seq<V> -> string, query: string, topK: int, docs: seq<PromptBuilder.ContextDoc<V>>)
    requires services.search(agent.vectorStore, services.embed(agent.embeddingService, Texts([query])).ToOption(), topK) == Success(docs)
    requires forall i :: 0 <= i < |docs| ==> PromptBuilder.MetadataKey in docs[i]
    ensures PromptBuilder.BuildPrompt(query, docs, repr).Success?
    ensures AnswerQuery(agent, services, repr, query, topK)
         == services.generate(agent.llm, PromptBuilder.BuildPrompt(query, docs, repr).value, TicketResponseSchema).ToOption()
  {
  }

  /** A store that raises, or a document without a `metadata` entry, leaves the model unasked
    * and the answer `None`. */
  lemma RetrievalOrPromptFailureGivesNoAnswer<L, S, E, Emb, V, D>(agent: RAGAgent<L, S, E>, services: Services<L, S, E, Emb, V, D>, repr: seq<V> -> string, query: string, topK: int)
    requires var docs := services.search(agent.vectorStore, services.embed(agent.embeddingService, Texts([query])).ToOption(), topK);
             docs.Failure? || exists i :: 0 <= i < |docs.value| && PromptBuilder.MetadataKey !in docs.value[i]
    ensures AnswerQuery(agent, services, repr, query, topK) == None
  {
  }

  /** A failed query embedding does not stop the pipeline: the store is asked with `None`, and when
    * it returns no documents (as `VectorStore.search` does) the model is still asked, with an
    * empty context. */
  lemma EmbedFailureStillAsksModel<L, S, E, Emb, V, D>(agent: RAGAgent<L, S, E>, services: Services<L, S, E, Emb, V, D>, repr: seq<V> -> string, query: string, topK: int)
    requires services.embed(agent.embeddingService, Texts([query])).Failure?
    requires services.search(agent.vectorStore, None, topK) == Success([])
    ensures AnswerQuery(agent, services, repr, query, topK)
         == services.generate(agent.llm, PromptBuilder.PromptHeader + PromptBuilder.UserSection(query, repr([])), TicketResponseSchema).ToOption()
  {
    PromptBuilder.PromptLayout<V>(query, [], repr);
  }

  /** The answer depends on the services only through three calls: the embedding of the query
    * wrapped in a one-element list, the search for that embedding with `top_k` forwarded, and
    * generation with the `TicketResponse` schema. */
  lemma AnswerUsesOnlyTheseCalls<L, S, E, Emb, V, D>(
      agent: RAGAgent<L, S, E>, s1: Services<L, S, E, Emb, V, D>, s2: Services<L, S, E, Emb, V, D>,
      repr: seq<V> -> string, query: string, topK: int)
    requires s1.embed(agent.embeddingService, Texts([query])) == s2.embed(agent.embeddingService, Texts([query]))
    requires var e := s1.embed(agent.embeddingService, Texts([query])).ToOption();
             s1.search(agent.vectorStore, e, topK) == s2.search(agent.vectorStore, e, topK)
    requires forall p :: s1.generate(agent.llm, p, TicketResponseSchema) == s2.generate(agent.llm, p, TicketResponseSchema)
    ensures AnswerQuery(agent, s1, repr, query, topK) == AnswerQuery(agent, s2, repr, query, topK)
  {
    assert PromptFor(agent, s1, repr, query, topK) == PromptFor(agent, s2, repr, query, topK);
  }

  /** The `output_schema` given to the constructor has no effect on any answer. */
  lemma OutputSchemaIgnored<L, S, E, Emb, V, D>(
      llm: L, vectorStore: S, embeddingService: E, schema1: Schema, schema2: Schema,
      services: Services<L, S, E, Emb, V, D>, repr: seq<V> -> string, query: string, topK: int)
    ensures AnswerQuery(NewRAGAgent(llm, vectorStore, embeddingService, schema1), services, repr, query, topK)
         == AnswerQuery(NewRAGAgent(llm, vectorStore, embeddingService, schema2), services, repr, query, topK)
  {
  }

  /** With the real language-model service behind the agent, a model reply that is empty makes the
    * whole answer `None`. */
  lemma EmptyModelReplyGivesNoAnswer<S, E, Emb, V, P, D>(
      agent: RAGAgent<LLMService.LLMService, S, E>, services: Services<LLMService.LLMService, S, E, Emb, V, D>,
      ticketModel: LLMService.ResponseModel<P, D>, repr: seq<V> -> string, query: string, topK: int)
    requires forall p :: services.generate(agent.llm, p, TicketResponseSchema) == LLMService.Generate(agent.llm, p, ticketModel)
    requires forall p :: agent.llm.client(LLMService.RequestFor(agent.llm, p, ticketModel, LLMService.DefaultTemperature)) == LLMService.Replied(Some(""))
    ensures AnswerQuery(agent, services, repr, query, topK) == None
  {
    match PromptFor(agent, services, repr, query, topK)
    case None =>
    case Some(prompt) =>
      assert LLMService.ReplyText(agent.llm.client(LLMService.RequestFor(agent.llm, prompt, ticketModel, LLMService.DefaultTemperature))) == None;
  }
}
