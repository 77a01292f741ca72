/** The vector-store lifecycle of the research module: three nullable
    module-level handles (`_vectorstore`, `_retriever`, `_embeddings`),
    lazy build-or-reuse, the empty-collection fallback, and the retriever
    whose `k` callers overwrite in place.

    Loading, splitting, embedding and MMR search are library calls; they
    enter the model as inputs: `Ingest` says what the directory listing,
    the loader and the index build produced, `Splitter` and `Mmr` are
    function values. */
module VectorStore {
  import opened Wrappers
  import opened Paths

  const CollectionName := "base_conocimientos"
  const EmbeddingModel := "text-embedding-3-small"
  const ReadmeName := "README.txt"
  const SearchType := "mmr"
  const DefaultK := 4
  const DefaultFetchK := 10

  /** A LangChain document: its text and its metadata mapping. */
  datatype Document = Document(pageContent: string, metadata: map<string, string>)

  /** The embeddings client; only its model name is visible. */
  datatype Embeddings = Embeddings(model: string)

  /** The arguments a `RecursiveCharacterTextSplitter` is built with. */
  datatype SplitterConfig = SplitterConfig(chunkSize: int, chunkOverlap: int, separators: Option<seq<string>>)

  /** The splitter used when the store is (re)built. */
  const BuildSplitter := SplitterConfig(1000, 200, Some(["\n\n", "\n", ". ", " ", ""]))
  /** The splitter used by `add_documents`, which passes no separators. */
  const AddSplitter := SplitterConfig(1000, 200, None)

  /** `RecursiveCharacterTextSplitter(config).split_documents(docs)`. */
  type Splitter = (SplitterConfig, seq<Document>) -> seq<Document>
  /** An MMR search over the chunks of a collection: (chunks, query, k, fetch_k). */
  type Mmr = (seq<Document>, string, int, int) -> seq<Document>

  /** What the world answers during one initialization: the names the
      documents directory lists (in glob order), what `loader.load()`
      returned or raised, and whether building the index from the chunks
      raised (`indexError`). */
  datatype Ingest = Ingest(listing: seq<string>, loaded: Result<seq<Document>, string>, indexError: Option<string>)

  predicate IsEligible(name: string) {
    IsTxt(name) && name != ReadmeName
  }

  /** `[f for f in docs_dir.glob("*.txt") if f.name != "README.txt"]`. */
  function EligibleFiles(listing: seq<string>): (r: seq<string>)
    ensures |r| <= |listing|
    ensures forall n :: n in r <==> n in listing && IsEligible(n)
    ensures r == [] <==> forall i :: 0 <= i < |listing| ==> !IsEligible(listing[i])
  {
    if listing == [] then []
    else (if IsEligible(listing[0]) then [listing[0]] else []) + EligibleFiles(listing[1..])
  }

  /** Filtering keeps the listing's order: it distributes over concatenation. */
  lemma {:induction false} EligibleFilesAppend(a: seq<string>, b: seq<string>)
    ensures EligibleFiles(a + b) == EligibleFiles(a) + EligibleFiles(b)
  {
    if a == [] {
      assert a + b == b;
    } else {
      assert (a + b)[0] == a[0] && (a + b)[1..] == a[1..] + b;
      EligibleFilesAppend(a[1..], b);
    }
  }

  /** What a non-short-circuit initialization installs. */
  datatype Build = Populated(chunks: seq<Document>) | Empty

  /** The branch `initialize_vectorstore` takes: a populated store only when there is
      something to load (or loading is forced), the loader returned a
      non-empty list and building the index raised nothing. */
  function PlanBuild(forceReload: bool, ingest: Ingest, split: Splitter): (b: Build)
    ensures b.Populated? <==>
      && (EligibleFiles(ingest.listing) != [] || forceReload)
      && ingest.loaded.Success? && ingest.loaded.value != []
      && ingest.indexError.None?
    ensures b.Populated? ==> b.chunks == split(BuildSplitter, ingest.loaded.value)
  {
    if EligibleFiles(ingest.listing) != [] || forceReload then
      match ingest.loaded
      case Failure(_) => Empty
      case Success(documents) =>
        if documents == [] then Empty
        else if ingest.indexError.Some? then Empty
        else Populated(split(BuildSplitter, documents))
    else Empty
  }

  /** The chunks a non-short-circuit initialization puts in the new store. */
  function BuiltChunks(forceReload: bool, ingest: Ingest, split: Splitter): seq<Document> {
    match PlanBuild(forceReload, ingest, split)
    case Populated(chunks) => chunks
    case Empty => []
  }

  /** A Chroma collection handle. `chunks` are the entries added through this
      handle; what the persist directory already held is not modelled. */
  class Store {
    const name: string
    const persistDirectory: string
    const embedding: Embeddings
    var chunks: seq<Document>

    constructor (name: string, persistDirectory: string, embedding: Embeddings, chunks: seq<Document>)
      ensures this.name == name && this.persistDirectory == persistDirectory
      ensures this.embedding == embedding && this.chunks == chunks
    {
      this.name := name;
      this.persistDirectory := persistDirectory;
      this.embedding := embedding;
      this.chunks := chunks;
    }

    /** `Chroma.add_documents`. */
    method AddDocuments(documents: seq<Document>)
      modifies this
      ensures chunks == old(chunks) + documents
    {
      chunks := chunks + documents;
    }
  }

  /** `vectorstore.as_retriever(...)`: a view of `store` with search kwargs.
      `k` is a mutable entry of `search_kwargs`; nothing writes `fetch_k`. */
  class Retriever {
    const store: Store
    const searchType: string
    var k: int
    const fetchK: int

    constructor (store: Store, searchType: string, k: int, fetchK: int)
      ensures this.store == store && this.searchType == searchType
      ensures this.k == k && this.fetchK == fetchK
    {
      this.store := store;
      this.searchType := searchType;
      this.k := k;
      this.fetchK := fetchK;
    }

    /** `retriever.invoke(query)`: the chunks MMR selects with the current kwargs. */
    method Invoke(query: string, mmr: Mmr) returns (docs: seq<Document>)
      ensures docs == mmr(store.chunks, query, k, fetchK)
    {
      docs := mmr(store.chunks, query, k, fetchK);
    }
  }

  /** The module globals of the vector-store module. */
  class ResearchIndex {
    var vectorstore: Store?
    var retriever: Retriever?
    var embeddings: Option<Embeddings>
    /** How many embedding clients have been constructed. */
    ghost var embeddingClients: nat

    /** What holds between calls: both handles null or both set, the
        retriever views the current store with the fixed MMR kwargs, and
        at most one embeddings client ever exists. */
    ghost predicate Valid()
      reads this
    {
      && (vectorstore == null <==> retriever == null)
      && (retriever != null ==>
            retriever.store == vectorstore && retriever.searchType == SearchType
            && retriever.fetchK == DefaultFetchK)
      && (vectorstore != null ==>
            vectorstore.name == CollectionName
            && embeddings.Some? && vectorstore.embedding == embeddings.value)
      && (embeddings.Some? ==> embeddings.value.model == EmbeddingModel)
      && embeddingClients <= 1
      && (embeddings.Some? <==> embeddingClients == 1)
    }

    /** The state at import time: every handle `None`. */
    constructor ()
      ensures Valid()
      ensures vectorstore == null && retriever == null && embeddings == None
      ensures embeddingClients == 0
    {
      vectorstore, retriever, embeddings := null, null, None;
      embeddingClients := 0;
    }

    /** `get_embeddings`: creates the client on first use only. */
    method GetEmbeddings() returns (e: Embeddings)
      requires Valid()
      modifies this
      ensures Valid()
      ensures embeddings == Some(e) && e.model == EmbeddingModel
      ensures old(embeddings).Some? ==> e == old(embeddings).value && embeddingClients == old(embeddingClients)
      ensures vectorstore == old(vectorstore) && retriever == old(retriever)
    {
      if embeddings.None? {
        embeddings := Some(Embeddings(EmbeddingModel));
        embeddingClients := embeddingClients + 1;
      }
      e := embeddings.value;
    }

    /** `_create_empty_vectorstore`. */
    static method CreateEmptyStore(embedding: Embeddings, chromaDir: Path) returns (s: Store)
      ensures fresh(s)
      ensures s.name == CollectionName && s.persistDirectory == Render(chromaDir)
      ensures s.embedding == embedding && s.chunks == []
    {
      s := new Store(CollectionName, Render(chromaDir), embedding, []);
    }

    /** The build branch of `initialize_vectorstore`: load, split and index
        the documents, or fall back to an empty collection. */
    static method BuildStore(forceReload: bool, embedding: Embeddings, chromaDir: Path, ingest: Ingest, split: Splitter)
      returns (s: Store)
      ensures fresh(s)
      ensures s.name == CollectionName && s.persistDirectory == Render(chromaDir)
      ensures s.embedding == embedding && s.chunks == BuiltChunks(forceReload, ingest, split)
    {
      var txtFiles := EligibleFiles(ingest.listing);
      if txtFiles != [] || forceReload {
        match ingest.loaded {
          case Failure(_) =>
            s := CreateEmptyStore(embedding, chromaDir);
          case Success(documents) =>
            if documents != [] {
              var chunks := split(BuildSplitter, documents);
              if ingest.indexError.None? {
                s := new Store(CollectionName, Render(chromaDir), embedding, chunks);
              } else {
                s := CreateEmptyStore(embedding, chromaDir);
              }
            } else {
              s := CreateEmptyStore(embedding, chromaDir);
            }
        }
      } else {
        s := CreateEmptyStore(embedding, chromaDir);
      }
    }

    /** `initialize_vectorstore(force_reload)`. `chromaDir` is the configured
        vector-store directory. */
    method Initialize(forceReload: bool, chromaDir: Path, ingest: Ingest, split: Splitter) returns (s: Store)
      requires Valid()
      modifies this
      ensures Valid()
      ensures vectorstore == s
      // reuse: nothing changes, not even the retriever's (possibly overwritten) k
      ensures old(vectorstore) != null && !forceReload ==>
        && s == old(vectorstore) && retriever == old(retriever)
        && retriever.k == old(retriever.k)
        && embeddings == old(embeddings) && embeddingClients == old(embeddingClients)
      // (re)build: a new store and a new retriever with the fixed kwargs
      ensures old(vectorstore) == null || forceReload ==>
        && fresh(s) && fresh(retriever)
        && s.name == CollectionName && s.persistDirectory == Render(chromaDir)
        && s.chunks == BuiltChunks(forceReload, ingest, split)
        && retriever.searchType == SearchType && retriever.k == DefaultK && retriever.fetchK == DefaultFetchK
        && (old(embeddings).Some? ==> embeddings == old(embeddings))
    {
      if vectorstore != null && !forceReload {
        return vectorstore;
      }
      var embedding := GetEmbeddings();
      s := BuildStore(forceReload, embedding, chromaDir, ingest, split);
      vectorstore := s;
      retriever := new Retriever(s, SearchType, DefaultK, DefaultFetchK);
    }

    /** `get_retriever`: initializes only when there is no retriever. */
    method GetRetriever(chromaDir: Path, ingest: Ingest, split: Splitter) returns (r: Retriever)
      requires Valid()
      modifies this
      ensures Valid()
      ensures retriever == r
      ensures old(retriever) != null ==>
        && r == old(retriever) && r.k == old(retriever.k)
        && vectorstore == old(vectorstore) && embeddings == old(embeddings)
        && embeddingClients == old(embeddingClients)
      ensures old(retriever) == null ==>
        && fresh(r) && fresh(vectorstore)
        && r.k == DefaultK && r.store.chunks == BuiltChunks(false, ingest, split)
    {
      if retriever == null {
        var _ := Initialize(false, chromaDir, ingest, split);
      }
      r := retriever;
    }

    /** `search_documents(query, k)`: overwrites the shared retriever's `k`
        for this and every later search; `fetch_k` stays 10. */
    method SearchDocuments(query: string, k: int, chromaDir: Path, ingest: Ingest, split: Splitter, mmr: Mmr)
      returns (docs: seq<Document>)
      requires Valid()
      modifies this, retriever
      ensures Valid()
      ensures retriever != null && retriever.k == k && retriever.fetchK == DefaultFetchK
      ensures docs == mmr(retriever.store.chunks, query, k, DefaultFetchK)
      ensures old(retriever) != null ==>
        && retriever == old(retriever) && vectorstore == old(vectorstore)
        && vectorstore.chunks == old(vectorstore.chunks) && embeddings == old(embeddings)
      ensures old(retriever) == null ==>
        fresh(retriever) && retriever.store.chunks == BuiltChunks(false, ingest, split)
    {
      var r := GetRetriever(chromaDir, ingest, split);
      r.k := k;
      docs := r.Invoke(query, mmr);
    }

    /** `add_documents`: initializes when there is no store, then adds exactly
        the chunks of the separator-less splitter. */
    method AddDocuments(documents: seq<Document>, chromaDir: Path, ingest: Ingest, split: Splitter)
      requires Valid()
      modifies this, vectorstore
      ensures Valid()
      ensures vectorstore != null
      ensures old(vectorstore) != null ==>
        && vectorstore == old(vectorstore) && retriever == old(retriever)
        && vectorstore.chunks == old(vectorstore.chunks) + split(AddSplitter, documents)
      ensures old(vectorstore) == null ==>
        && fresh(vectorstore) && fresh(retriever) && retriever.k == DefaultK
        && vectorstore.chunks == BuiltChunks(false, ingest, split) + split(AddSplitter, documents)
    {
      if vectorstore == null {
        var _ := Initialize(false, chromaDir, ingest, split);
      }
      var chunks := split(AddSplitter, documents);
      vectorstore.AddDocuments(chunks);
    }

    /** `reset_vectorstore`: nulls the two handles; the embeddings client and
        whatever was persisted stay. */
    method Reset()
      requires Valid()
      modifies this
      ensures Valid()
      ensures vectorstore == null && retriever == null
      ensures embeddings == old(embeddings) && embeddingClients == old(embeddingClients)
    {
      vectorstore := null;
      retriever := null;
    }
  }

  /** A caller's view of the lifecycle: a caller-chosen `k` sticks to the
      shared retriever, a plain re-initialization keeps it, and only a reset
      brings back `k = 4`. */
  method LifecycleScenario(chromaDir: Path, ingest: Ingest, split: Splitter, mmr: Mmr)
  {
    var index := new ResearchIndex();
    var first := index.Initialize(false, chromaDir, ingest, split);
    var _ := index.SearchDocuments("consulta", 20, chromaDir, ingest, split, mmr);
    assert index.retriever.k == 20 > index.retriever.fetchK;
    var again := index.Initialize(false, chromaDir, ingest, split);
    assert again == first && index.retriever.k == 20;
    var r := index.GetRetriever(chromaDir, ingest, split);
    assert r.k == 20;
    index.Reset();
    r := index.GetRetriever(chromaDir, ingest, split);
    assert r.k == DefaultK && r.store != first;
    assert index.embeddingClients == 1;
  }
}
