/**
 * The ingestion script's `main`: check the key, load every PDF of the
 * knowledge base, stop early if nothing was loaded, split the pages with a
 * fixed configuration, then delete any existing vector store and build a
 * new one from this run's chunks. The PDF reader, the text splitter and
 * the embedding model are opaque functions; the vector store is an object
 * whose state the script changes.
 */
module Ingest {
  import opened Wrappers
  import opened Text
  import opened Common
  import RagServices

  const KeyNotFoundMessage := "GOOGLE_API_KEY not found in .env file"

  /** `RecursiveCharacterTextSplitter(chunk_size=..., chunk_overlap=...)`. */
  datatype SplitterConfig = SplitterConfig(chunkSize: nat, chunkOverlap: nat)

  const IngestSplitter := SplitterConfig(1000, 200)

  /** A regular file under the knowledge base: path components below it, and its bytes. */
  datatype KbFile = KbFile(path: seq<string>, bytes: seq<bv8>)

  /** `PyPDFLoader(file).load()`: the file's pages as documents, or an exception. */
  type PdfReader = KbFile -> Result<seq<Document>, Failure>

  /** `split_documents` of a splitter with the given configuration. */
  type Splitter = (SplitterConfig, seq<Document>) -> seq<Document>

  /** `embed_documents` of the configured embedding model on the chunk texts. */
  type Embedder = (EmbeddingConfig, seq<string>) -> Outcome<Failure>

  // The pattern `**/*.pdf`: any depth below the knowledge base, last
  // component ending in `.pdf` (case-sensitive).
  predicate MatchesPdfGlob(path: seq<string>)
    ensures MatchesPdfGlob(path) ==> path != [] && |path[|path| - 1]| >= 4
    ensures path != [] && EndsWith(path[|path| - 1], ".pdf") ==> MatchesPdfGlob(path)
  {
    |path| > 0 && EndsWith(path[|path| - 1], ".pdf")
  }

  /** The pattern matches at any depth: extra directories above a file do not change it. */
  lemma PdfGlobAnyDepth(dirs: seq<string>, path: seq<string>)
    requires path != []
    ensures MatchesPdfGlob(dirs + path) <==> MatchesPdfGlob(path)
  {
    assert (dirs + path)[|dirs + path| - 1] == path[|path| - 1];
  }

  // `DirectoryLoader(KNOWLEDGE_BASE_DIR, glob="**/*.pdf", loader_cls=PyPDFLoader).load()`:
  // the pages of every matching file, file after file; the first reader
  // exception propagates.
  function LoadKnowledgeBase(files: seq<KbFile>, read: PdfReader): (r: Result<seq<Document>, Failure>)
    // The load succeeds exactly when every matching file can be read ...
    ensures r.Ok? <==> forall i :: 0 <= i < |files| && MatchesPdfGlob(files[i].path) ==> read(files[i]).Ok?
    // ... and otherwise raises the error of the first matching file that cannot.
    ensures r.Err? ==> exists i :: (
      && 0 <= i < |files| && MatchesPdfGlob(files[i].path)
      && read(files[i]) == Err(r.error)
      && forall j :: 0 <= j < i && MatchesPdfGlob(files[j].path) ==> read(files[j]).Ok?)
  {
    if files == [] then Ok([])
    else if !MatchesPdfGlob(files[0].path) then LoadKnowledgeBase(files[1..], read)
    else
      match read(files[0])
      case Err(e) => Err(e)
      case Ok(pages) =>
        match LoadKnowledgeBase(files[1..], read)
        case Err(e) => Err(e)
        case Ok(rest) => Ok(pages + rest)
  }

  /** Only files matching the pattern are read: readers that agree on them load the same. */
  lemma {:induction false} LoadReadsOnlyPdfs(files: seq<KbFile>, read1: PdfReader, read2: PdfReader)
    requires forall f :: f in files && MatchesPdfGlob(f.path) ==> read1(f) == read2(f)
    ensures LoadKnowledgeBase(files, read1) == LoadKnowledgeBase(files, read2)
  {
    if files != [] {
      LoadReadsOnlyPdfs(files[1..], read1, read2);
    }
  }

  /**
   * A successful load holds exactly the pages of the matching files: every
   * page of every matching file, and nothing that is not a page of one.
   */
  lemma {:induction false} LoadedExactlyThePdfPages(files: seq<KbFile>, read: PdfReader)
    requires LoadKnowledgeBase(files, read).Ok?
    ensures forall f :: f in files && MatchesPdfGlob(f.path) ==>
      read(f).Ok? && forall d :: d in read(f).value ==> d in LoadKnowledgeBase(files, read).value
    ensures forall d :: d in LoadKnowledgeBase(files, read).value ==>
      exists f :: f in files && MatchesPdfGlob(f.path) && read(f).Ok? && d in read(f).value
  {
    if files != [] {
      LoadedExactlyThePdfPages(files[1..], read);
      var loaded := LoadKnowledgeBase(files, read).value;
      forall d | d in loaded
        ensures exists f :: f in files && MatchesPdfGlob(f.path) && read(f).Ok? && d in read(f).value
      {
        if MatchesPdfGlob(files[0].path) && d in read(files[0]).value {
          assert files[0] in files;
        } else {
          var f :| f in files[1..] && MatchesPdfGlob(f.path) && read(f).Ok? && d in read(f).value;
          assert f in files;
        }
      }
    }
  }

  /** A knowledge base without a matching file loads nothing. */
  lemma {:induction false} NoPdfsLoadNothing(files: seq<KbFile>, read: PdfReader)
    requires forall f :: f in files ==> !MatchesPdfGlob(f.path)
    ensures LoadKnowledgeBase(files, read) == Ok([])
  {
    if files != [] {
      NoPdfsLoadNothing(files[1..], read);
    }
  }

  /** The embedding model the script configures with the key it read. */
  function IngestEmbeddings(apiKey: string): (config: EmbeddingConfig)
    ensures config.model == "models/embedding-001" && config.apiKey == apiKey
  {
    EmbeddingConfig(EmbeddingModel, apiKey)
  }

  /**
   * With the same key, the script indexes with the embedding model and key
   * that the retrieval service later embeds queries with.
   */
  lemma IngestAndQueryEmbedAlike(env: Env)
    requires RagServices.NewRagService(env).Ok?
    ensures ApiKeyVariable in env
    ensures RagServices.NewRagService(env).value.embeddings == IngestEmbeddings(env[ApiKeyVariable])
  {
  }

  // ---------------------------------------------------------------------
  // The vector store directory.
  // ---------------------------------------------------------------------

  /** What the store directory does; `history` records it in order. */
  datatype StoreEvent =
    | Removed          // `shutil.rmtree` of the directory
    | Created          // a new, empty collection written to a missing directory
    | Opened           // an existing collection opened in place
    | Added(count: nat) // chunks embedded and added to the collection

  /** Whether the directory exists, and the chunks its collection holds. */
  datatype StoreState = StoreState(present: bool, entries: seq<Document>)

  /**
   * `Chroma.from_documents(chunks, ...)` at the store's directory: open the
   * collection there or create an empty one, embed all chunk texts, then add
   * the chunks to whatever the collection already held.
   */
  function FromDocumentsSpec(before: StoreState, chunks: seq<Document>, embedded: Outcome<Failure>)
    : (r: (StoreState, seq<StoreEvent>))
    ensures r.0.present
    ensures embedded.Pass? ==> r.0.entries == (if before.present then before.entries else []) + chunks
    ensures embedded.Fail? ==> r.0.entries == (if before.present then before.entries else [])
    ensures r.1 == [if before.present then Opened else Created]
      + (if embedded.Pass? then [Added(|chunks|)] else [])
  {
    var kept := if before.present then before.entries else [];
    var first := if before.present then Opened else Created;
    if embedded.Pass? then (StoreState(true, kept + chunks), [first, Added(|chunks|)])
    else (StoreState(true, kept), [first])
  }

  /** How a run of `main` ends: by raising, by returning early, or by completing. */
  datatype IngestOutcome =
    | MissingKey(message: string)       // `ValueError` before anything is loaded
    | LoadFailed(cause: Failure)        // the loader raised
    | NoDocuments                       // nothing loaded: early return
    | EmbeddingFailed(cause: Failure)   // `from_documents` raised after the old store was removed
    | Ingested(documentCount: nat, chunkCount: nat) // the page and chunk counts the script prints

  /** A run's outcome, the store it leaves, and what it did to the store, in order. */
  datatype IngestRun = IngestRun(outcome: IngestOutcome, after: StoreState, events: seq<StoreEvent>)

  /** The chunks a run indexes: the loaded pages split with the fixed configuration. */
  function RunChunks(files: seq<KbFile>, read: PdfReader, split: Splitter): (chunks: seq<Document>)
    requires LoadKnowledgeBase(files, read).Ok?
    ensures chunks == split(SplitterConfig(1000, 200), LoadKnowledgeBase(files, read).value)
  {
    split(IngestSplitter, LoadKnowledgeBase(files, read).value)
  }

  /** One run of `main` against a store in state `before`. */
  function IngestSpec(
    env: Env, files: seq<KbFile>, read: PdfReader, split: Splitter, embed: Embedder, before: StoreState)
    : (run: IngestRun)
    requires before.present || before.entries == []
    // A missing or empty key raises before any loading or store change.
    ensures ApiKeyVariable !in env || env[ApiKeyVariable] == "" ==>
      run == IngestRun(MissingKey("GOOGLE_API_KEY not found in .env file"), before, [])
    // An empty load returns early; neither it nor a failed load touches the store.
    ensures run.outcome.NoDocuments? <==>
      ApiKeyVariable in env && env[ApiKeyVariable] != "" && LoadKnowledgeBase(files, read) == Ok([])
    // A failed load raises the loader's error.
    ensures run.outcome.LoadFailed? <==>
      ApiKeyVariable in env && env[ApiKeyVariable] != "" && LoadKnowledgeBase(files, read).Err?
    ensures run.outcome.LoadFailed? ==> run.outcome.cause == LoadKnowledgeBase(files, read).error
    // With a key and at least one page the run reaches the store, and it
    // completes exactly when embedding this run's chunks succeeds.
    ensures (run.outcome.Ingested? || run.outcome.EmbeddingFailed?) <==>
      && ApiKeyVariable in env && env[ApiKeyVariable] != ""
      && LoadKnowledgeBase(files, read).Ok? && LoadKnowledgeBase(files, read).value != []
    ensures run.outcome.Ingested? <==>
      && ApiKeyVariable in env && env[ApiKeyVariable] != ""
      && LoadKnowledgeBase(files, read).Ok? && LoadKnowledgeBase(files, read).value != []
      && embed(IngestEmbeddings(env[ApiKeyVariable]), PageContents(RunChunks(files, read, split))).Pass?
    ensures run.outcome.Ingested? ==> run.outcome.chunkCount == |RunChunks(files, read, split)|
    ensures run.outcome.EmbeddingFailed? ==>
      run.outcome.cause == embed(IngestEmbeddings(env[ApiKeyVariable]), PageContents(RunChunks(files, read, split))).error
    ensures run.outcome.MissingKey? || run.outcome.LoadFailed? || run.outcome.NoDocuments? ==>
      run.after == before && run.events == []
    // After success the store holds this run's chunks and nothing from earlier runs.
    ensures run.outcome.Ingested? ==>
      && LoadKnowledgeBase(files, read).Ok?
      && run.outcome.documentCount == |LoadKnowledgeBase(files, read).value| > 0
      && run.after == StoreState(true, RunChunks(files, read, split))
    // A failed build leaves an empty store; the old one is not restored.
    ensures run.outcome.EmbeddingFailed? ==> run.after == StoreState(true, [])
    // The old store is removed exactly when it existed and the run got that far,
    // and the removal comes before the new store is created; nothing is ever opened in place.
    ensures run.outcome.Ingested? || run.outcome.EmbeddingFailed? ==>
      run.events == (if before.present then [Removed] else []) + [Created]
        + (if run.outcome.Ingested? then [Added(run.outcome.chunkCount)] else [])
    ensures Opened !in run.events
  {
    var key := Getenv(env, ApiKeyVariable);
    if !Truthy(key) then IngestRun(MissingKey(KeyNotFoundMessage), before, [])
    else
      match LoadKnowledgeBase(files, read)
      case Err(e) => IngestRun(LoadFailed(e), before, [])
      case Ok(documents) =>
        if documents == [] then IngestRun(NoDocuments, before, [])
        else
          var chunks := split(IngestSplitter, documents);
          var embedded := embed(IngestEmbeddings(key.value), PageContents(chunks));
          var removal := if before.present then [Removed] else [];
          var built := FromDocumentsSpec(StoreState(false, []), chunks, embedded);
          var outcome := if embedded.Pass? then Ingested(|documents|, |chunks|) else EmbeddingFailed(embedded.error);
          IngestRun(outcome, built.0, removal + built.1)
  }

  /** The persistent vector store directory the script replaces. */
  class VectorStore {
    var present: bool
    var entries: seq<Document>
    var history: seq<StoreEvent>

    /** A missing directory holds nothing. */
    ghost predicate Valid()
      reads this
    {
      present || entries == []
    }

    function State(): StoreState
      reads this
    {
      StoreState(present, entries)
    }

    /** The directory as the script finds it. */
    constructor (present: bool, entries: seq<Document>)
      requires present || entries == []
      ensures Valid() && State() == StoreState(present, entries) && history == []
    {
      this.present := present;
      this.entries := entries;
      this.history := [];
    }

    /** `shutil.rmtree(VECTOR_DB_DIR)`, called only when the directory exists. */
    method RemoveTree()
      requires present
      modifies this
      ensures Valid() && State() == StoreState(false, [])
      ensures history == old(history) + [Removed]
    {
      present := false;
      entries := [];
      history := history + [Removed];
    }

    /** `Chroma.from_documents(documents=chunks, embedding=..., persist_directory=VECTOR_DB_DIR)`. */
    method FromDocuments(chunks: seq<Document>, embed: Embedder, config: EmbeddingConfig)
      returns (embedded: Outcome<Failure>)
      requires Valid()
      modifies this
      ensures Valid()
      ensures embedded == embed(config, PageContents(chunks))
      ensures State() == FromDocumentsSpec(old(State()), chunks, embedded).0
      ensures history == old(history) + FromDocumentsSpec(old(State()), chunks, embedded).1
    {
      if present {
        history := history + [Opened];
      } else {
        present := true;
        entries := [];
        history := history + [Created];
      }
      embedded := embed(config, PageContents(chunks));
      if embedded.Pass? {
        entries := entries + chunks;
        history := history + [Added(|chunks|)];
      }
    }
  }

  /** `main()` of the ingestion script, run against `store`. */
  method RunIngestion(
    env: Env, files: seq<KbFile>, read: PdfReader, split: Splitter, embed: Embedder, store: VectorStore)
    returns (outcome: IngestOutcome)
    requires store.Valid()
    modifies store
    ensures store.Valid()
    ensures var run := IngestSpec(env, files, read, split, embed, old(store.State()));
      && outcome == run.outcome
      && store.State() == run.after
      && store.history == old(store.history) + run.events
  {
    var key := Getenv(env, ApiKeyVariable);
    if !Truthy(key) {
      return MissingKey(KeyNotFoundMessage);
    }
    var loaded := LoadKnowledgeBase(files, read);
    if loaded.Err? {
      return LoadFailed(loaded.error);
    }
    var documents := loaded.value;
    if documents == [] {
      return NoDocuments;
    }
    var chunks := split(IngestSplitter, documents);
    var embeddings := IngestEmbeddings(key.value);
    if store.present {
      store.RemoveTree();
    }
    var embedded := store.FromDocuments(chunks, embed, embeddings);
    if embedded.Fail? {
      return EmbeddingFailed(embedded.error);
    }
    outcome := Ingested(|documents|, |chunks|);
  }
}
