# Es2al video question answering: a Dafny model of its core

Es2al answers questions about a YouTube video. It downloads the audio, has
Whisper transcribe it, and splits the transcript into chunks. The chunks go
into a vector store (in memory or Pinecone), and a LangChain retrieval chain
then answers questions over them. This project models the repository's own
logic around those libraries, and proves properties of that model:

- `Settings` (`settings.dfy`): the configuration dataclass defaults and `validate`.
- `LlmClient` (`llm_client.dfy`): the LLM client and its prompt. The prompt
  stays unset until it is first set or first needed, and a falsy template
  falls back to the default one.
- `VectorStores` (`vector_store.dfy`): the store factory, and the wrapper
  whose store starts as `None`. The first `add_documents` builds the store;
  later calls append to it.
- `RagPipeline` (`rag_pipeline.dfy`): the RAG pipeline. Its chain stays unset
  until an ingest succeeds. Ingest gives a file path precedence over text, and
  `format_docs` joins the retrieved contents. The query is gated on the chain.
  Similarity search is not gated on the chain.
- `VideoService` (`video_service.dfy`): the singleton session service.
  `process_video` runs download, model, transcription, a new pipeline and
  ingest, in that order, and each step's effect on the fields is kept even
  when a later step fails. The query, search, transcription and status
  operations turn every outcome into a response record.
- `Common` and `Collaborators` (`common.dfy`, `collaborators.dfy`): Python
  truthiness, the `Result`/`Outcome` types, the `Document` record, and the
  library behaviours.

Each library the code calls is a function value in a `Libraries` or `Media`
record, passed to the operation that uses it. This covers text loading and
splitting, embedding plus indexing, similarity search, the chat model, yt-dlp
and Whisper. Each call may succeed or raise. A raised exception is an `Error`:
`ValueError` for the repository's own raises, `LibraryError` for anything a
library raises.

Behaviours of the code worth noting:
- `search_similar` is not gated on a prior ingest. Before any ingest it
  returns `[]`.
- When the ingest inside `process_video` fails, the freshly built pipeline
  stays installed without a chain. The previous pipeline is not restored.
- A transcript that strips to `""` makes `ingest_documents` raise its
  `ValueError`, because the empty text is falsy.

## Model

| member | source | states |
|---|---|---|
| Settings.Validate | backend/config/settings.py:46-51 | validation passes exactly when the OpenAI key is non-empty and, under the Pinecone store, the Pinecone key is non-empty; a failure is a ValueError |
| Settings.OpenAIKeyCheckedFirst | backend/config/settings.py:48-51 | an empty OpenAI key raises the OpenAI error whatever the store type and whatever the Pinecone key |
| Settings.PineconeNeedsItsKey | backend/config/settings.py:50-51 | with an OpenAI key and the Pinecone store, validation fails exactly when the Pinecone key is empty, with the Pinecone message |
| Settings.InMemoryNeedsNoPineconeKey | backend/config/settings.py:46-51 | with an OpenAI key, the in-memory store validates without any Pinecone key |
| Settings.DefaultConfig | backend/config/settings.py:12-44 | `Settings()` keeps the two keys from the environment and takes the dataclass defaults for the rest; since the default store is Pinecone, it validates exactly when both keys are non-empty |
| Settings.DefaultsConsistent | backend/config/settings.py:12-44 | the default overlap 20 is below the chunk size 1000, top_k 4 is positive, max_tokens is positive, and the default store is Pinecone with a non-empty index name |
| VideoService.DefaultSettingsBuildPinecone | backend/config/settings.py:28-33 | the default store settings pass the factory's Pinecone check and select index "es2al-index" |
| LlmClient.DefaultTemplateShape | backend/core/llm_client.py:13-20 | the default template contains the `{context}` and `{question}` placeholders and the "I don't know" fallback |
| LlmClient.TemplateOrDefault | backend/core/llm_client.py:54 | a truthy template is kept; `None` or `""` gives the default template; the result is never empty |
| LlmClient.LLMClient.constructor | backend/core/llm_client.py:22-45 | a new client holds the model built from its arguments (defaults gpt-3.5-turbo, 0.0, 1000) and the string parser, and has no prompt |
| LlmClient.LLMClient.SetPromptTemplate | backend/core/llm_client.py:47-55 | the installed prompt is the given template when truthy, the default one otherwise |
| LlmClient.LLMClient.GetPrompt | backend/core/llm_client.py:77-81 | an existing prompt is returned and kept; only an unset prompt is replaced, by the default; the returned prompt is the installed one |
| LlmClient.LLMClient.GetModel | backend/core/llm_client.py:73-75 | returns the construction-time model |
| LlmClient.LLMClient.GetParser | backend/core/llm_client.py:83-85 | returns the construction-time parser |
| LlmClient.LLMClient.Generate | backend/core/llm_client.py:57-71 | installs the default prompt only if none is set, keeps an existing one, and answers with the chat model run on the installed prompt and the variables |
| VectorStores.SelectBackend | backend/core/vector_store.py:49-56 | "in_memory" selects the in-memory backend whatever the index name; "pinecone" needs a truthy index name and keeps it, else ValueError; any other type raises the "Unknown vector store type" ValueError |
| VectorStores.Create | backend/core/vector_store.py:30-56 | the factory fails exactly when the backend selection fails, with its error; otherwise it returns a fresh, empty wrapper for the selected backend |
| VectorStores.VectorStore.constructor | backend/core/vector_store.py:62-70 | a new wrapper keeps its backend and embeddings and has no store |
| VectorStores.Added | backend/core/vector_store.py:72-80 | after a successful add the store exists; from empty it is exactly the batch; otherwise the old documents followed by the batch |
| VectorStores.AddedAllFromEmpty | backend/core/vector_store.py:72-80 | from an empty wrapper, successive adds leave the concatenation of all batches in call order, and the store stays empty only when nothing was added |
| VectorStores.AddedAllAppends | backend/core/vector_store.py:79-80 | successive adds to an existing store append every batch in call order |
| VectorStores.AddTwiceKeepsDuplicates | backend/core/vector_store.py:72-80 | adding the same batch twice stores each of its documents twice: no deduplication |
| VectorStores.VectorStore.AddDocuments | backend/core/vector_store.py:72-80 | the outcome is the library's; on success the store becomes `Added(old store, documents)`, on a library error it is unchanged; backend, index name and embeddings never change |
| VectorStores.VectorStore.SimilaritySearch | backend/core/vector_store.py:82-86 | an empty wrapper answers `[]` for every query and k; otherwise the library's search over the stored documents with k |
| VectorStores.VectorStore.AsRetriever | backend/core/vector_store.py:88-92 | raises the "empty" ValueError exactly while the store is unset; otherwise a retriever with the requested k |
| RagPipeline.NewPipeline | backend/pipeline/rag_pipeline.py:18-50 | construction fails exactly when the factory raises, with its ValueError; a new pipeline has no chain, an empty fresh store of the selected backend holding the given embeddings, and the given top_k, processor, embeddings and client |
| RagPipeline.RAGPipeline.constructor | backend/pipeline/rag_pipeline.py:38-50 | the fields are the arguments and the chain is unset |
| RagPipeline.LoadChunks | backend/pipeline/rag_pipeline.py:63-68 | a truthy file path is loaded even when text is given; otherwise truthy text is split; with both falsy the "Either file_path or text" ValueError |
| RagPipeline.RAGPipeline.IngestDocuments | backend/pipeline/rag_pipeline.py:52-73 | on success returns the chunk count, the store has grown by exactly those chunks and the chain is set; when loading or the store raises, store, chain and prompt keep their previous values |
| RagPipeline.RAGPipeline.BuildChain | backend/pipeline/rag_pipeline.py:75-93 | the chain retrieves top_k documents and uses the client's prompt (installed if unset), model and parser |
| RagPipeline.FormatDocs | backend/pipeline/rag_pipeline.py:81-83 | no documents give `""`; otherwise the context starts with the first retrieved document's content |
| RagPipeline.FormatDocsAppend | backend/pipeline/rag_pipeline.py:81-83 | formatting two non-empty runs of documents joins the two formatted runs with one "\n\n" |
| RagPipeline.FormatDocsLength | backend/pipeline/rag_pipeline.py:81-83 | the context is the contents plus one separator between each neighbouring pair; no documents give `""` |
| RagPipeline.FormatDocsPlacesInOrder | backend/pipeline/rag_pipeline.py:81-83 | the i-th document's content appears in the context right after the contents of the documents before it and i separators |
| RagPipeline.RAGPipeline.Query | backend/pipeline/rag_pipeline.py:95-108 | raises the "No documents ingested" ValueError while the chain is unset; otherwise runs the chain over the current store |
| RagPipeline.InvokeChain | backend/pipeline/rag_pipeline.py:85-93 | a retrieval error propagates and the model is not called; otherwise the model gets the chain's prompt with the retrieved documents, formatted in order, as context and the question unchanged |
| RagPipeline.EffectiveK | backend/pipeline/rag_pipeline.py:121 | a truthy k is used; `None` or 0 falls back to top_k |
| RagPipeline.RAGPipeline.SearchSimilar | backend/pipeline/rag_pipeline.py:110-122 | not gated on the chain: an empty store gives `[]`; otherwise the library's search with k, or with top_k when k is `None` or 0 |
| VideoService.ServiceRegistry.Instance | backend/services/video_service.py:24-41 | the first call creates an initialised instance with every field unset; every later call returns the same instance with its state unchanged; the returned instance always satisfies the service invariant, so it can be used |
| VideoService.VideoRAGService.constructor | backend/services/video_service.py:26-31 | a new instance is not yet initialised |
| VideoService.VideoRAGService.Init | backend/services/video_service.py:33-41 | the first initialisation unsets every field; later ones change nothing |
| VideoService.VideoRAGService.LoadWhisperModel | backend/services/video_service.py:43-47 | a cached model is returned without calling the loader; otherwise the "base" model is loaded and cached only if loading succeeded |
| VideoService.StripStart | backend/services/video_service.py:89 | leading strip is no longer than its input and does not start with whitespace |
| VideoService.StripEnd | backend/services/video_service.py:89 | trailing strip is no longer than its input and does not end with whitespace |
| VideoService.Strip | backend/services/video_service.py:89 | `strip()` is no longer than its input and neither starts nor ends with whitespace |
| VideoService.StripStartTrims | backend/services/video_service.py:89 | leading strip drops only whitespace and leaves a suffix that does not start with whitespace |
| VideoService.StripEndTrims | backend/services/video_service.py:89 | trailing strip drops only whitespace and leaves a prefix that does not end with whitespace |
| VideoService.StripKeepsTrimmedSlice | backend/services/video_service.py:89 | `strip()` keeps one contiguous slice of the transcript, with only whitespace around it, and the slice neither starts nor ends with whitespace |
| VideoService.StripEmptyIffBlank | backend/services/video_service.py:89 | the stripped transcript is `""` exactly when the raw transcript is all whitespace |
| VideoService.StripIdempotent | backend/services/video_service.py:89 | stripping twice is stripping once |
| VideoService.TitleOf | backend/services/video_service.py:81 | the title `extract_info` reports, or "Unknown" when it reports none |
| VideoService.ProcessResponseFor | backend/services/video_service.py:99-110 | success exactly for a processed video, then with its title, transcript length and chunk count and no error; a failure carries only the failing step's message |
| VideoService.VideoRAGService.InitializePipeline | backend/services/video_service.py:112-140 | a fresh pipeline built from the settings replaces the current one: the configured chunking, embedding model and key, chat model (name, key, temperature, token limit), store backend with its index name and top_k, with no chain, an empty store and no prompt; when the factory raises nothing changes |
| VideoService.VideoRAGService.ProcessVideo | backend/services/video_service.py:49-110 | the run follows `Plan`: the title is set once downloaded, the model once loaded, the stripped transcript once transcribed; a later failure keeps those; a pipeline built from the settings is installed once the factory accepts them; the response reports the failing step's message or, on success, the title, transcript length and chunk count; the URL is recorded only on success |
| VideoService.VideoRAGService.IndexTranscript | backend/services/video_service.py:91-110 | a new pipeline built from the settings is installed even when the ingest then fails, and is then left with no chain and an empty store; on success the store holds the transcript's chunks, the chain is set and the URL is recorded |
| VideoService.ProcessedTranscriptIngested | backend/services/video_service.py:89-104 | a processed video had a non-empty stripped transcript, and the reported chunk count is the number of chunks the splitter produced and the store accepted |
| VideoService.BlankTranscriptFailsIngest | backend/services/video_service.py:89-95 | an all-whitespace transcript strips to `""`, so the ingest raises its ValueError after the new pipeline was installed |
| VideoService.VideoRAGService.Query | backend/services/video_service.py:142-170 | without a pipeline, the fixed error and an empty answer; otherwise the chain's answer, or any raised error's message with an empty answer |
| VideoService.VideoRAGService.SearchChunks | backend/services/video_service.py:172-208 | without a pipeline, no chunks and the fixed error; otherwise one chunk per retrieved document in retrieval order with its content and metadata (k = num_chunks, default 3), or the error's message with no chunks |
| VideoService.VideoRAGService.GetTranscription | backend/services/video_service.py:210-227 | succeeds exactly when the transcript is truthy, returning it; otherwise an empty transcription and the fixed error |
| VideoService.VideoRAGService.GetStatus | backend/services/video_service.py:229-240 | initialised iff a pipeline is installed, transcription available iff a transcript is set (even `""`), and the current URL |
| VideoService.VideoRAGService.EmptyTranscriptQuirk | backend/services/video_service.py:217-240 | status reports a transcript that cannot be fetched exactly when the transcript is `""` |

## Left out

- Document loading and splitting (`DocumentProcessor`) is a library function
  of the chunk size, the overlap and the input. No bound on the chunks' sizes
  or overlap is stated, because no code in the repository enforces one.
- The embeddings client (`EmbeddingsManager`) and the vectors are only a
  model name and key. Embedding and indexing one batch is a single library
  step that may raise.
- Similarity ranking inside the in-memory and Pinecone stores is a library
  function of the stored documents, the query and k. No ranking or length
  promise is stated, because the code makes none.
- A Pinecone index's contents from before the wrapper was created are not
  modelled: the wrapper's store is the documents added through it.
- A library add that raises after partly indexing a batch is modelled as
  leaving the store unchanged.
- The LangChain runnable composition and the chat-model call are one library
  function of the model, the prompt and the variables. The output parser
  passes the text through. Parsing errors of a prompt template are not
  modelled.
- The temperature is a `real`. Floating-point rounding is not modelled.
- The two wrapper classes are one class tagged with its backend. They share
  their control flow, but they call different library classes: the
  in-memory search class, and Pinecone's, which is given the index name. The
  modelled `index` call receives only the batch, so neither the backend nor
  the index name reaches it, and both backends index alike.
- `process_video`'s download, temporary directory, audio extraction and
  Whisper transcription are library steps that give a title and a raw text,
  or raise.
  - A title key that is present but `None` is not distinguished from an
    absent one.
  - Exceptions from constructing the document processor (its library text
    splitter), the LLM client or the embeddings client are not modelled.
    Only the store factory can make `_initialize_pipeline` raise.
- The environment (`os.getenv`, `load_dotenv`) is not modelled: the two API
  keys are parameters of `DefaultConfig`. The module-level `settings`
  instance is the `Config` passed to `process_video`.
- The HTTP layer (`backend/api/routes.py`, `backend/api/models.py`) is not
  part of this model, and neither is its `1 <= num_chunks <= 10` bound.
  `SearchChunks` accepts any integer, as the service method does.
- `backend/main.py` is a demo script and is not part of this model.
- Concurrent requests against the singleton are not modelled: calls are
  taken one at a time. The class attribute `_instance` is the
  `ServiceRegistry` object.
