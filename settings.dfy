/** Configuration: the dataclass defaults and the start-up validation of the
    API keys against the selected vector store. The keys, read from the
    environment in the source, are parameters here. */
module Settings {
  import opened Common

  const OpenAIKeyMissing: string := "OPENAI_API_KEY not found in environment"
  const PineconeKeyMissing: string := "PINECONE_API_KEY required for Pinecone vector store"

  datatype ModelConfig = ModelConfig(llmModel: string, embeddingModel: string, temperature: real, maxTokens: int)

  datatype ChunkingConfig = ChunkingConfig(chunkSize: int, chunkOverlap: int)

  datatype VectorStoreConfig = VectorStoreConfig(storeType: string, indexName: string, topK: int)

  datatype Config = Config(
    openaiApiKey: string,
    pineconeApiKey: string,
    model: ModelConfig,
    chunking: ChunkingConfig,
    vectorStore: VectorStoreConfig)

  /** The dataclass defaults of `ModelConfig`, `ChunkingConfig` and `VectorStoreConfig`. */
  const DefaultModelConfig: ModelConfig := ModelConfig("gpt-3.5-turbo", "text-embedding-ada-002", 0.0, 1000)
  const DefaultChunkingConfig: ChunkingConfig := ChunkingConfig(1000, 20)
  const DefaultVectorStoreConfig: VectorStoreConfig := VectorStoreConfig("pinecone", "es2al-index", 4)

  /** `Settings()` with every field defaulted; the two keys are whatever the
      environment held (the empty string when unset). Since the default store is
      Pinecone, such settings validate exactly when both keys are present. */
  function DefaultConfig(openaiApiKey: string, pineconeApiKey: string): (r: Config)
    ensures r.openaiApiKey == openaiApiKey && r.pineconeApiKey == pineconeApiKey
    ensures r.model == DefaultModelConfig && r.chunking == DefaultChunkingConfig
    ensures r.vectorStore == DefaultVectorStoreConfig
    ensures Validate(r).Pass? <==> openaiApiKey != "" && pineconeApiKey != ""
  {
    Config(openaiApiKey, pineconeApiKey, DefaultModelConfig, DefaultChunkingConfig, DefaultVectorStoreConfig)
  }

  /** `Settings.validate`: the OpenAI key is checked first, then the Pinecone key
      when the Pinecone store is selected. */
  function Validate(s: Config): (r: Outcome)
    ensures r.Pass? <==> s.openaiApiKey != "" && (s.vectorStore.storeType == "pinecone" ==> s.pineconeApiKey != "")
    ensures r.Fail? ==> r.error.ValueError?
  {
    if s.openaiApiKey == "" then Fail(ValueError(OpenAIKeyMissing))
    else if s.vectorStore.storeType == "pinecone" && s.pineconeApiKey == "" then Fail(ValueError(PineconeKeyMissing))
    else Pass
  }

  /** A missing OpenAI key fails validation whatever store is selected, and its
      error is the one reported even when the Pinecone key is missing too. */
  lemma OpenAIKeyCheckedFirst(s: Config)
    requires s.openaiApiKey == ""
    ensures Validate(s) == Fail(ValueError(OpenAIKeyMissing))
  {
  }

  /** With an OpenAI key, the Pinecone store fails validation exactly when its key is missing. */
  lemma PineconeNeedsItsKey(s: Config)
    requires s.openaiApiKey != "" && s.vectorStore.storeType == "pinecone"
    ensures Validate(s).Fail? <==> s.pineconeApiKey == ""
    ensures s.pineconeApiKey == "" ==> Validate(s) == Fail(ValueError(PineconeKeyMissing))
  {
  }

  /** The in-memory store needs no Pinecone key. */
  lemma InMemoryNeedsNoPineconeKey(s: Config)
    requires s.openaiApiKey != "" && s.vectorStore.storeType == "in_memory"
    ensures Validate(s) == Pass
  {
  }

  /** The defaults agree with each other: the overlap is smaller than the chunk
      size, at least one document is retrieved, and the default store is Pinecone
      with a non-empty index name. */
  lemma DefaultsConsistent(openaiApiKey: string, pineconeApiKey: string)
    ensures var c := DefaultConfig(openaiApiKey, pineconeApiKey);
      0 <= c.chunking.chunkOverlap < c.chunking.chunkSize
      && c.vectorStore.topK > 0
      && c.vectorStore.storeType == "pinecone" && c.vectorStore.indexName != ""
      && c.model.maxTokens > 0
  {
  }
}
