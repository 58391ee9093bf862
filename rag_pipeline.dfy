/** The RAG pipeline: a vector store, an LLM client and a chain that is unset
    until the first successful ingest. Ingest loads and splits a file or a text,
    adds the chunks to the store and (re)builds the chain; query runs the chain;
    similarity search goes to the store directly. */
module RagPipeline {
  import opened Common
  import opened Collaborators
  import opened VectorStores
  import opened LlmClient

  const NoSourceMessage: string := "Either file_path or text must be provided"
  const NotIngestedMessage: string := "No documents ingested. Call ingest_documents first."
  const Separator: string := "\n\n"

  /** The splitter settings of a `DocumentProcessor`. */
  datatype DocumentProcessor = DocumentProcessor(chunkSize: int, chunkOverlap: int)

  /** The composed chain: a retriever over the store, formatting of the retrieved
      documents, the prompt captured when the chain was built, the model and the
      output parser. */
  datatype Chain = Chain(retriever: Retriever, prompt: PromptTemplate, model: ChatModel, parser: OutputParser)

  /** `format_docs`: the page contents joined with a blank line, in retrieval order.
      No documents give the empty context; otherwise the context starts with the
      first document's content. */
  function FormatDocs(docs: seq<Document>): (r: string)
    ensures docs == [] ==> r == ""
    ensures docs != [] ==> docs[0].content <= r
  {
    if docs == [] then ""
    else if |docs| == 1 then docs[0].content
    else docs[0].content + Separator + FormatDocs(docs[1..])
  }

  function TotalLength(docs: seq<Document>): (r: nat)
  {
    if docs == [] then 0 else |docs[0].content| + TotalLength(docs[1..])
  }

  /** Formatting a concatenation joins the two formatted halves with the separator. */
  lemma {:induction false} FormatDocsAppend(a: seq<Document>, b: seq<Document>)
    requires a != [] && b != []
    ensures FormatDocs(a + b) == FormatDocs(a) + Separator + FormatDocs(b)
  {
    assert (a + b)[0] == a[0];
    if |a| == 1 {
      assert (a + b)[1..] == b;
    } else {
      assert (a + b)[1..] == a[1..] + b;
      FormatDocsAppend(a[1..], b);
    }
  }

  /** The context is exactly the contents plus one separator between each pair. */
  lemma {:induction false} FormatDocsLength(docs: seq<Document>)
    ensures |FormatDocs(docs)| == TotalLength(docs) + (if docs == [] then 0 else |Separator| * (|docs| - 1))
  {
    if |docs| > 1 {
      FormatDocsLength(docs[1..]);
    }
  }

  /** The i-th retrieved document's content sits in the context right after the
      contents of the documents ranked before it and one separator per each. */
  lemma {:induction false} FormatDocsPlacesInOrder(docs: seq<Document>, i: nat)
    requires i < |docs|
    ensures TotalLength(docs[..i]) + |Separator| * i + |docs[i].content| <= |FormatDocs(docs)|
    ensures var at := TotalLength(docs[..i]) + |Separator| * i;
            FormatDocs(docs)[at..at + |docs[i].content|] == docs[i].content
  {
    var head := docs[0].content;
    if i == 0 {
      assert docs[..0] == [];
      if |docs| > 1 {
        assert FormatDocs(docs) == head + (Separator + FormatDocs(docs[1..]));
      }
    } else {
      var rest := docs[1..];
      FormatDocsPlacesInOrder(rest, i - 1);
      assert docs[..i][1..] == rest[..i - 1];
      assert TotalLength(docs[..i]) == |head| + TotalLength(rest[..i - 1]);
      assert rest[i - 1] == docs[i];
      var inner := TotalLength(rest[..i - 1]) + |Separator| * (i - 1);
      var at := TotalLength(docs[..i]) + |Separator| * i;
      assert at == |head| + |Separator| + inner;
      var prefix := head + Separator;
      assert FormatDocs(docs) == prefix + FormatDocs(rest);
      assert FormatDocs(docs)[at..at + |docs[i].content|] == FormatDocs(rest)[inner..inner + |docs[i].content|];
    }
  }

  /** `k or self.top_k`: a missing or zero k falls back to the pipeline's top_k. */
  function EffectiveK(k: Option<int>, topK: int): (r: int)
    ensures TruthyInt(k) ==> r == k.value
    ensures !TruthyInt(k) ==> r == topK
  {
    if TruthyInt(k) then k.value else topK
  }

  /** The chunks `ingest_documents` loads: a truthy `file_path` wins over `text`;
      with both falsy it raises before anything else happens. */
  function LoadChunks(processor: DocumentProcessor, filePath: Option<string>, text: Option<string>, lib: Libraries)
    : (r: Result<seq<Document>>)
    ensures !Truthy(filePath) && !Truthy(text) ==> r == Failure(ValueError(NoSourceMessage))
    ensures Truthy(filePath) ==> r == lib.loadFile(processor.chunkSize, processor.chunkOverlap, filePath.value)
    ensures !Truthy(filePath) && Truthy(text) ==> r == Success(lib.splitText(processor.chunkSize, processor.chunkOverlap, text.value))
  {
    if Truthy(filePath) then lib.loadFile(processor.chunkSize, processor.chunkOverlap, filePath.value)
    else if Truthy(text) then Success(lib.splitText(processor.chunkSize, processor.chunkOverlap, text.value))
    else Failure(ValueError(NoSourceMessage))
  }

  /** The chunks an `ingest_documents` call ends up storing, or what it raises:
      loading first, then the store's `add_documents`. */
  function Ingested(processor: DocumentProcessor, filePath: Option<string>, text: Option<string>, lib: Libraries)
    : (r: Result<seq<Document>>)
  {
    match LoadChunks(processor, filePath, text, lib)
    case Failure(e) => Failure(e)
    case Success(chunks) =>
      match lib.index(chunks)
      case Fail(e) => Failure(e)
      case Pass => Success(chunks)
  }

  /** `chain.invoke(question)`: retrieve with the retriever's k, format the
      documents into the context, fill the prompt and call the model; the
      output parser passes the text through. */
  function InvokeChain(chain: Chain, stored: seq<Document>, question: string, lib: Libraries): (r: Result<string>)
    ensures var found := lib.search(stored, question, chain.retriever.searchK);
            found.Failure? ==> r == Failure(found.error)
    ensures var found := lib.search(stored, question, chain.retriever.searchK);
            found.Success? ==>
              r == lib.chat(chain.model, chain.prompt, map["context" := FormatDocs(found.value), "question" := question])
  {
    match lib.search(stored, question, chain.retriever.searchK)
    case Failure(e) => Failure(e)
    case Success(docs) => lib.chat(chain.model, chain.prompt, map["context" := FormatDocs(docs), "question" := question])
  }

  /** The prompt `get_prompt` leaves installed. */
  function PromptAfterGet(prompt: Option<PromptTemplate>): (r: Option<PromptTemplate>)
  {
    if prompt.Some? then prompt else Some(PromptTemplate(DefaultPromptTemplate))
  }

  class RAGPipeline {
    const docProcessor: DocumentProcessor
    const embeddings: Embeddings
    const llm: LLMClient
    const topK: int
    const vectorStore: VectorStore
    var chain: Option<Chain>

    ghost function Repr(): set<object>
    {
      {this, vectorStore, llm}
    }

    /** A chain exists only once a batch has been added (so `as_retriever` did not
        raise) and the prompt has been installed; it retrieves `top_k` documents
        and uses the client's model and parser. */
    ghost predicate Valid()
      reads this, vectorStore, llm
    {
      llm.Valid()
      && (chain.Some? ==>
            vectorStore.store.Some? && llm.prompt.Some?
            && chain.value.retriever == Retriever(topK)
            && chain.value.prompt.template != ""
            && chain.value.model == llm.model && chain.value.parser == llm.parser)
    }

    constructor (docProcessor: DocumentProcessor, embeddings: Embeddings, llm: LLMClient, topK: int, vectorStore: VectorStore)
      requires llm.Valid()
      ensures Valid()
      ensures this.docProcessor == docProcessor && this.embeddings == embeddings && this.llm == llm
      ensures this.topK == topK && this.vectorStore == vectorStore
      ensures chain == None
    {
      this.docProcessor := docProcessor;
      this.embeddings := embeddings;
      this.llm := llm;
      this.topK := topK;
      this.vectorStore := vectorStore;
      chain := None;
    }

    /** `ingest_documents`: on success returns the number of chunks handed to the
        store, which has grown by exactly those chunks, and the chain is set; when
        loading or the store raises, store, chain and prompt are as they were. */
    method IngestDocuments(filePath: Option<string>, text: Option<string>, lib: Libraries) returns (r: Result<nat>)
      requires Valid()
      modifies this, vectorStore, llm
      ensures Valid()
      ensures var ingested := Ingested(docProcessor, filePath, text, lib);
              ingested.Failure? ==>
                r == Failure(ingested.error) && chain == old(chain)
                && vectorStore.store == old(vectorStore.store) && llm.prompt == old(llm.prompt)
      ensures var ingested := Ingested(docProcessor, filePath, text, lib);
              ingested.Success? ==>
                r == Success(|ingested.value|)
                && vectorStore.store == Added(old(vectorStore.store), ingested.value)
                && llm.prompt == PromptAfterGet(old(llm.prompt))
                && chain == Some(Chain(Retriever(topK), llm.prompt.value, llm.model, llm.parser))
    {
      var chunks := LoadChunks(docProcessor, filePath, text, lib);
      if chunks.Failure? {
        return Failure(chunks.error);
      }
      var added := vectorStore.AddDocuments(chunks.value, lib);
      if added.Fail? {
        return Failure(added.error);
      }
      BuildChain();
      r := Success(|chunks.value|);
    }

    /** `_build_chain`, reached only after a successful `add_documents`. */
    method BuildChain()
      requires Valid() && vectorStore.store.Some?
      modifies this, llm
      ensures Valid()
      ensures llm.prompt == PromptAfterGet(old(llm.prompt))
      ensures chain == Some(Chain(Retriever(topK), llm.prompt.value, llm.model, llm.parser))
    {
      var retriever := vectorStore.AsRetriever(topK);
      var prompt := llm.GetPrompt();
      var model := llm.GetModel();
      var parser := llm.GetParser();
      chain := Some(Chain(retriever.value, prompt, model, parser));
    }

    /** `query`: raises until an ingest has succeeded; afterwards runs the chain
        over the store's current documents. */
    method Query(question: string, lib: Libraries) returns (r: Result<string>)
      requires Valid()
      ensures chain.None? ==> r == Failure(ValueError(NotIngestedMessage))
      ensures chain.Some? ==> r == InvokeChain(chain.value, vectorStore.store.value, question, lib)
    {
      if chain.None? {
        return Failure(ValueError(NotIngestedMessage));
      }
      r := InvokeChain(chain.value, vectorStore.store.value, question, lib);
    }

    /** `search_similar`: not gated on the chain; k defaults to top_k when it is
        `None` or 0, and an empty store gives `[]`. */
    method SearchSimilar(query: string, k: Option<int>, lib: Libraries) returns (r: Result<seq<Document>>)
      ensures vectorStore.store.None? ==> r == Success([])
      ensures vectorStore.store.Some? && TruthyInt(k) ==> r == lib.search(vectorStore.store.value, query, k.value)
      ensures vectorStore.store.Some? && !TruthyInt(k) ==> r == lib.search(vectorStore.store.value, query, topK)
    {
      var effective := EffectiveK(k, topK);
      r := vectorStore.SimilaritySearch(query, lib, effective);
    }
  }

  /** `RAGPipeline.__init__`: builds the vector store through the factory, whose
      `ValueError` propagates; a new pipeline has no chain and an empty store. */
  method NewPipeline(docProcessor: DocumentProcessor, embeddings: Embeddings, vectorStoreType: string,
                     llm: LLMClient, indexName: Option<string> := None, topK: int := 4)
    returns (r: Result<RAGPipeline>)
    requires llm.Valid()
    ensures r.Failure? <==> SelectBackend(vectorStoreType, indexName).Failure?
    ensures r.Failure? ==> r.error == SelectBackend(vectorStoreType, indexName).error
    ensures r.Success? ==>
              fresh(r.value) && fresh(r.value.vectorStore) && r.value.Valid()
              && r.value.chain == None && r.value.topK == topK && r.value.llm == llm
              && r.value.docProcessor == docProcessor && r.value.embeddings == embeddings
              && r.value.vectorStore.store == None && r.value.vectorStore.embeddings == embeddings
              && r.value.vectorStore.backend == SelectBackend(vectorStoreType, indexName).value
  {
    var store := Create(vectorStoreType, embeddings, indexName);
    if store.Failure? {
      return Failure(store.error);
    }
    var pipeline := new RAGPipeline(docProcessor, embeddings, llm, topK, store.value);
    r := Success(pipeline);
  }
}
