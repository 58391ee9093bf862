/** The vector-store wrappers and their factory. Both wrappers start empty
    (`store is None`); the first `add_documents` builds the library store from
    the batch, later calls append to it without deduplication. The in-memory
    and Pinecone wrappers run the same code and differ only in the index name
    the Pinecone one keeps, so they are one class tagged with its backend. */
module VectorStores {
  import opened Common
  import opened Collaborators

  const EmptyStoreMessage: string := "Vector store is empty. Add documents first."
  const IndexNameRequired: string := "index_name required for Pinecone vector store"

  datatype Backend = InMemory | Pinecone(indexName: string)

  /** A retriever over the wrapper's library store, with its `search_kwargs` k. */
  datatype Retriever = Retriever(searchK: int)

  /** The dispatch of `VectorStoreFactory.create` on `store_type`. */
  function SelectBackend(storeType: string, indexName: Option<string>): (r: Result<Backend>)
    ensures r.Success? <==> storeType == "in_memory" || (storeType == "pinecone" && Truthy(indexName))
    ensures storeType == "in_memory" ==> r == Success(InMemory)
    ensures storeType == "pinecone" && Truthy(indexName) ==> r == Success(Pinecone(indexName.value))
    ensures storeType == "pinecone" && !Truthy(indexName) ==> r == Failure(ValueError(IndexNameRequired))
    ensures storeType != "in_memory" && storeType != "pinecone" ==>
              r == Failure(ValueError("Unknown vector store type: " + storeType))
  {
    if storeType == "in_memory" then Success(InMemory)
    else if storeType == "pinecone" then
      if !Truthy(indexName) then Failure(ValueError(IndexNameRequired))
      else Success(Pinecone(indexName.value))
    else Failure(ValueError("Unknown vector store type: " + storeType))
  }

  /** The store after a successful `add_documents` of `documents`. */
  function Added(store: Option<seq<Document>>, documents: seq<Document>): (r: Option<seq<Document>>)
    ensures r.Some?
    ensures store.None? ==> r.value == documents
    ensures store.Some? ==> |r.value| == |store.value| + |documents|
    ensures store.Some? ==> r.value[..|store.value|] == store.value && r.value[|store.value|..] == documents
  {
    if store.None? then Some(documents) else Some(store.value + documents)
  }

  /** The store after successful `add_documents` calls with each batch in turn. */
  function AddedAll(store: Option<seq<Document>>, batches: seq<seq<Document>>): (r: Option<seq<Document>>)
    decreases |batches|
  {
    if batches == [] then store else AddedAll(Added(store, batches[0]), batches[1..])
  }

  function Concat(batches: seq<seq<Document>>): (r: seq<Document>)
  {
    if batches == [] then [] else batches[0] + Concat(batches[1..])
  }

  lemma {:induction false} AddedAllAppends(prefix: seq<Document>, batches: seq<seq<Document>>)
    ensures AddedAll(Some(prefix), batches) == Some(prefix + Concat(batches))
    decreases |batches|
  {
    if batches != [] {
      assert Added(Some(prefix), batches[0]) == Some(prefix + batches[0]);
      AddedAllAppends(prefix + batches[0], batches[1..]);
      assert prefix + batches[0] + Concat(batches[1..]) == prefix + Concat(batches);
    } else {
      assert prefix + Concat(batches) == prefix;
    }
  }

  /** Starting empty, a run of successful `add_documents` calls leaves the store
      holding every batch in call order, duplicates kept; it stays empty only
      when no call was made. */
  lemma {:induction false} AddedAllFromEmpty(batches: seq<seq<Document>>)
    ensures batches == [] ==> AddedAll(None, batches) == None
    ensures batches != [] ==> AddedAll(None, batches) == Some(Concat(batches))
  {
    if batches != [] {
      AddedAllAppends(batches[0], batches[1..]);
    }
  }

  /** Adding the same batch twice stores every document of it twice. */
  lemma AddTwiceKeepsDuplicates(documents: seq<Document>)
    ensures Added(Added(None, documents), documents) == Some(documents + documents)
    ensures multiset(Added(Added(None, documents), documents).value) == multiset(documents) + multiset(documents)
  {
  }

  class VectorStore {
    const backend: Backend
    const embeddings: Embeddings
    var store: Option<seq<Document>>

    constructor (backend: Backend, embeddings: Embeddings)
      ensures this.backend == backend && this.embeddings == embeddings
      ensures store == None
    {
      this.backend := backend;
      this.embeddings := embeddings;
      store := None;
    }

    /** `add_documents`: builds the store from the first batch, appends every
        later one; when the library raises, the store is left as it was. Only the
        store changes: `backend` (with its index name) and `embeddings` are fixed. */
    method AddDocuments(documents: seq<Document>, lib: Libraries) returns (r: Outcome)
      modifies this
      ensures r == lib.index(documents)
      ensures store == if r.Pass? then Added(old(store), documents) else old(store)
    {
      r := lib.index(documents);
      if r.Pass? {
        if store.None? {
          store := Some(documents);
        } else {
          store := Some(store.value + documents);
        }
      }
    }

    /** `similarity_search`: an empty wrapper answers `[]` without consulting the
        library; otherwise the library's ranking is returned as is. */
    function SimilaritySearch(query: string, lib: Libraries, k: int := 4): (r: Result<seq<Document>>)
      reads this
      ensures store.None? ==> r == Success([])
      ensures store.Some? ==> r == lib.search(store.value, query, k)
    {
      if store.None? then Success([]) else lib.search(store.value, query, k)
    }

    /** `as_retriever`: raises while the wrapper is empty. */
    function AsRetriever(searchK: int): (r: Result<Retriever>)
      reads this
      ensures r.Failure? <==> store.None?
      ensures r.Failure? ==> r.error == ValueError(EmptyStoreMessage)
      ensures r.Success? ==> r.value.searchK == searchK
    {
      if store.None? then Failure(ValueError(EmptyStoreMessage)) else Success(Retriever(searchK))
    }
  }

  /** `VectorStoreFactory.create`: an empty wrapper for the selected backend, or
      the factory's `ValueError`. */
  method Create(storeType: string, embeddings: Embeddings, indexName: Option<string> := None)
    returns (r: Result<VectorStore>)
    ensures r.Failure? <==> SelectBackend(storeType, indexName).Failure?
    ensures r.Failure? ==> r.error == SelectBackend(storeType, indexName).error
    ensures r.Success? ==> fresh(r.value) && r.value.store == None && r.value.embeddings == embeddings
                           && r.value.backend == SelectBackend(storeType, indexName).value
  {
    var backend := SelectBackend(storeType, indexName);
    if backend.Failure? {
      return Failure(backend.error);
    }
    var store := new VectorStore(backend.value, embeddings);
    r := Success(store);
  }
}
