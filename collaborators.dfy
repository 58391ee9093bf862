/** The library objects the core handles without looking inside, and the
    behaviour of the library calls it makes. Every library call is a function
    value supplied by the caller of an operation, so that a proof about the
    operation holds whatever the library does on that call, raising included. */
module Collaborators {
  import opened Common

  /** LangChain's `Document`: page content plus metadata. */
  datatype Document = Document(content: string, metadata: map<string, string>)

  /** The OpenAI embeddings client an `EmbeddingsManager` hands out. */
  datatype Embeddings = Embeddings(model: string, apiKey: string)

  /** The `ChatOpenAI` model object an `LLMClient` builds once. */
  datatype ChatModel = ChatModel(name: string, apiKey: Option<string>, temperature: real, maxTokens: int)

  /** LangChain's `StrOutputParser`, which passes the model's text through. */
  datatype OutputParser = StrOutputParser

  /** A `ChatPromptTemplate` built from a template string. */
  datatype PromptTemplate = PromptTemplate(template: string)

  /** What the libraries do, one call at a time.
      - loadFile(chunkSize, chunkOverlap, path): `TextLoader` then the splitter; may raise.
      - splitText(chunkSize, chunkOverlap, text): the splitter on one document.
      - index(documents): embedding and storing a batch (`from_documents` on the first
        batch, `add_documents` afterwards); may raise.
      - search(stored, query, k): similarity search over the stored documents; may raise.
      - chat(model, prompt, variables): prompt, model and parser invoked on the
        variables; may raise. */
  datatype Libraries = Libraries(
    loadFile: (int, int, string) -> Result<seq<Document>>,
    splitText: (int, int, string) -> seq<Document>,
    index: seq<Document> -> Outcome,
    search: (seq<Document>, string, int) -> Result<seq<Document>>,
    chat: (ChatModel, PromptTemplate, map<string, string>) -> Result<string>)
}
