/** Incremental ingestion into the vector store (modules/ingestion.py).

    The filesystem is the set `fs` of paths that exist (files and
    directories alike). The Chroma store is a `VectorStore` object holding
    the chunks of its collection and the chunks last persisted to disk. The
    semantic chunker and the fixed-window splitter are oracles from a text to
    its pieces; `split_documents` gives every piece a copy of its document's
    metadata, so every chunk keeps the `source` of the document it came from. */
module Ingestion {
  import opened Base
  import opened TextClean
  import opened DocumentLoading

  // ---------------------------------------------------------------------
  // `does_vectorstore_exist`

  const INDEX_DIR := "index"
  const COLLECTIONS_FILE := "chroma-collections.parquet"
  const EMBEDDINGS_FILE := "chroma-embeddings.parquet"

  /** `os.path.join(dir, name)` for a relative `name`. */
  function PathJoin(dir: string, name: string): (r: string)
    ensures EndsWith(r, name)
  {
    if dir == [] || dir[|dir| - 1] == '/' then dir + name else dir + "/" + name
  }

  /** `p` is matched by the glob of the index directory for `ext`: a visible
      entry directly inside the index directory whose name ends in `ext`. */
  predicate IsIndexFile(dir: string, p: string, ext: string) {
    var prefix := PathJoin(dir, "index/");
    StartsWith(p, prefix) && GlobName(p[|prefix|..], ext)
  }

  /** A name matched by the glob pattern `*` + `ext`: it ends in `ext`, has
      no `/` and does not start with `.` (glob skips hidden entries). */
  predicate GlobName(name: string, ext: string) {
    name != [] && name[0] != '.' && '/' !in name && EndsWith(name, ext)
  }

  /** The existing paths matched by the glob for `ext`. */
  function IndexFiles(dir: string, fs: set<string>, ext: string): set<string> {
    set p | p in fs && IsIndexFile(dir, p, ext)
  }

  /** `does_vectorstore_exist(dir)`: the index directory and both parquet
      files exist, and the two globs together list more than three files. */
  predicate DoesVectorstoreExist(dir: string, fs: set<string>) {
    && PathJoin(dir, INDEX_DIR) in fs
    && PathJoin(dir, COLLECTIONS_FILE) in fs
    && PathJoin(dir, EMBEDDINGS_FILE) in fs
    && |IndexFiles(dir, fs, ".bin")| + |IndexFiles(dir, fs, ".pkl")| > 3
  }

  /** No path is matched by both globs, so the length of the concatenated
      glob results is the number of distinct index files. */
  lemma {:induction false} IndexGlobsDisjoint(dir: string, fs: set<string>)
    ensures IndexFiles(dir, fs, ".bin") * IndexFiles(dir, fs, ".pkl") == {}
    ensures |IndexFiles(dir, fs, ".bin")| + |IndexFiles(dir, fs, ".pkl")| ==
            |IndexFiles(dir, fs, ".bin") + IndexFiles(dir, fs, ".pkl")|
  {
    var bins := IndexFiles(dir, fs, ".bin");
    var pkls := IndexFiles(dir, fs, ".pkl");
    forall p | p in bins
      ensures p !in pkls
    {
      var prefix := PathJoin(dir, "index/");
      GlobNamesDiffer(p[|prefix|..]);
    }
  }

  lemma {:induction false} GlobNamesDiffer(name: string)
    requires GlobName(name, ".bin")
    ensures !GlobName(name, ".pkl")
  {
    assert name[|name| - 1] == 'n';
  }

  /** The store is recognised exactly when the index directory and both
      parquet files exist and there are at least four distinct index files;
      three are not enough. */
  lemma {:induction false} VectorstoreExistsIff(dir: string, fs: set<string>)
    ensures DoesVectorstoreExist(dir, fs) <==>
              && PathJoin(dir, INDEX_DIR) in fs
              && PathJoin(dir, COLLECTIONS_FILE) in fs
              && PathJoin(dir, EMBEDDINGS_FILE) in fs
              && |IndexFiles(dir, fs, ".bin") + IndexFiles(dir, fs, ".pkl")| >= 4
  {
    IndexGlobsDisjoint(dir, fs);
  }

  lemma {:induction false} SubsetCard<T>(a: set<T>, b: set<T>)
    requires a <= b
    ensures |a| <= |b|
    decreases a
  {
    if a != {} {
      var x :| x in a;
      SubsetCard(a - {x}, b - {x});
    }
  }

  /** Adding files never makes an existing store disappear. */
  lemma {:induction false} VectorstoreExistsMonotone(dir: string, fs: set<string>, more: set<string>)
    requires fs <= more
    requires DoesVectorstoreExist(dir, fs)
    ensures DoesVectorstoreExist(dir, more)
  {
    SubsetCard(IndexFiles(dir, fs, ".bin"), IndexFiles(dir, more, ".bin"));
    SubsetCard(IndexFiles(dir, fs, ".pkl"), IndexFiles(dir, more, ".pkl"));
  }

  // ---------------------------------------------------------------------
  // `process_documents`

  /** A text splitter: the pieces a text is cut into. */
  type TextSplitter = string -> seq<string>

  /** `RecursiveCharacterTextSplitter(chunk_size, chunk_overlap)`. */
  type WindowSplitter = (nat, nat, string) -> seq<string>

  const CHUNK_SIZE: nat := 500
  const CHUNK_OVERLAP: nat := 50

  /** The fixed-window splitter with the configured size and overlap. */
  function FixedWindow(window: WindowSplitter): TextSplitter {
    t => window(CHUNK_SIZE, CHUNK_OVERLAP, t)
  }

  /** `splitter.split_documents(docs)`: the pieces of every document in
      order, each carrying the `source` of the document it was cut from. */
  function SplitDocuments(docs: seq<Document>, split: TextSplitter): (r: seq<Document>)
    ensures forall c :: c in r ==>
              exists i :: 0 <= i < |docs| && c.source == docs[i].source && c.pageContent in split(docs[i].pageContent)
  {
    if docs == [] then []
    else
      var head := WithSource(split(docs[0].pageContent), docs[0].source);
      var rest := SplitDocuments(docs[1..], split);
      assert forall c :: c in rest ==>
               exists i :: 1 <= i < |docs| && c.source == docs[i].source && c.pageContent in split(docs[i].pageContent) by {
        forall c | c in rest
          ensures exists i :: 1 <= i < |docs| && c.source == docs[i].source && c.pageContent in split(docs[i].pageContent)
        {
          var i :| 0 <= i < |docs[1..]| && c.source == docs[1..][i].source && c.pageContent in split(docs[1..][i].pageContent);
          assert docs[1..][i] == docs[i + 1];
        }
      }
      assert forall c :: c in head ==> c.source == docs[0].source && c.pageContent in split(docs[0].pageContent) by {
        forall c | c in head
          ensures c.source == docs[0].source && c.pageContent in split(docs[0].pageContent)
        {
          var k :| 0 <= k < |head| && head[k] == c;
        }
      }
      head + rest
  }

  /** The documents the fixed-window split is applied to: the semantic
      chunks when an embedding model is given, the loaded documents
      otherwise. */
  function SemanticPass(docs: seq<Document>, semantic: Option<TextSplitter>): seq<Document> {
    match semantic
    case Some(chunker) => SplitDocuments(docs, chunker)
    case None => docs
  }

  /** What `process_documents(source_folder, embedding_model, ignored_files)`
      returns or raises. */
  function Processed(listing: seq<string>, ignored: Option<seq<string>>, load: Loader, clean: Cleaner,
                     semantic: Option<TextSplitter>, window: WindowSplitter): Result<seq<Document>> {
    match Documents(listing, ignored, load, clean)
    case Err(e) => Err(e)
    case Ok(docs) =>
      if docs == [] then Ok([])
      else Ok(SplitDocuments(SemanticPass(docs, semantic), FixedWindow(window)))
  }

  /** `process_documents`: load, return `[]` when nothing loaded, otherwise
      split semantically when an embedding model is given and then always
      with the fixed window. */
  method ProcessDocuments(listing: seq<string>, ignored: Option<seq<string>>, load: Loader, clean: Cleaner,
                          semantic: Option<TextSplitter>, window: WindowSplitter)
    returns (r: Result<seq<Document>>)
    ensures r == Processed(listing, ignored, load, clean, semantic, window)
  {
    var loaded := LoadDocuments(listing, ignored, load, clean);
    if loaded.Err? {
      return Err(loaded.error);
    }
    var documents := loaded.value;
    if documents == [] {
      return Ok([]);
    }
    if semantic.Some? {
      documents := SplitDocuments(documents, semantic.value);
    }
    var texts := SplitDocuments(documents, FixedWindow(window));
    r := Ok(texts);
  }

  /** Every chunk `process_documents` returns is a piece the fixed-window
      splitter produced, and comes from a file of the listing that is not
      ignored and has a supported extension. */
  lemma {:induction false} ProcessedChunks(listing: seq<string>, ignored: Option<seq<string>>, load: Loader, clean: Cleaner,
                        semantic: Option<TextSplitter>, window: WindowSplitter)
    ensures var r := Processed(listing, ignored, load, clean, semantic, window);
      r.Ok? ==> forall c :: c in r.value ==>
        && (exists t :: c.pageContent in window(CHUNK_SIZE, CHUNK_OVERLAP, t))
        && c.source in listing && !Ignored(c.source, ignored) && Extension(c.source) in LOADER_EXTENSIONS
  {
    DocumentsSources(listing, ignored, load, clean);
    var loaded := Documents(listing, ignored, load, clean);
    if loaded.Ok? && loaded.value != [] {
      var docs := loaded.value;
      var mid := SemanticPass(docs, semantic);
      assert Processed(listing, ignored, load, clean, semantic, window) == Ok(SplitDocuments(mid, FixedWindow(window)));
      SemanticPassSources(docs, semantic);
      WindowChunks(mid, window);
      ChunkSources(docs, mid, window, listing, ignored);
    }
  }

  /** Chunks cut from documents whose sources come from `docs` have sources
      that are listed, not ignored and supported, when those of `docs` are. */
  lemma {:induction false} ChunkSources(docs: seq<Document>, mid: seq<Document>, window: WindowSplitter,
                                        listing: seq<string>, ignored: Option<seq<string>>)
    requires forall e :: e in docs ==>
               e.source in listing && !Ignored(e.source, ignored) && Extension(e.source) in LOADER_EXTENSIONS
    requires forall d :: d in mid ==> exists e :: e in docs && e.source == d.source
    requires forall c :: c in SplitDocuments(mid, FixedWindow(window)) ==> exists d :: d in mid && d.source == c.source
    ensures forall c :: c in SplitDocuments(mid, FixedWindow(window)) ==>
              c.source in listing && !Ignored(c.source, ignored) && Extension(c.source) in LOADER_EXTENSIONS
  {
    forall c | c in SplitDocuments(mid, FixedWindow(window))
      ensures c.source in listing && !Ignored(c.source, ignored) && Extension(c.source) in LOADER_EXTENSIONS
    {
      var d :| d in mid && d.source == c.source;
      var e :| e in docs && e.source == d.source;
    }
  }

  /** The semantic pass keeps sources: each of its documents has the source
      of an input document. */
  lemma {:induction false} SemanticPassSources(docs: seq<Document>, semantic: Option<TextSplitter>)
    ensures forall d :: d in SemanticPass(docs, semantic) ==> exists e :: e in docs && e.source == d.source
  {
    forall d | d in SemanticPass(docs, semantic)
      ensures exists e :: e in docs && e.source == d.source
    {
      if semantic.Some? {
        var i :| 0 <= i < |docs| && d.source == docs[i].source && d.pageContent in semantic.value(docs[i].pageContent);
        assert docs[i] in docs;
      }
    }
  }

  /** Every fixed-window chunk is a 500/50 window piece of the text of an
      input document and has that document's source. */
  lemma {:induction false} WindowChunks(docs: seq<Document>, window: WindowSplitter)
    ensures forall c :: c in SplitDocuments(docs, FixedWindow(window)) ==>
              exists d :: d in docs && d.source == c.source && c.pageContent in window(CHUNK_SIZE, CHUNK_OVERLAP, d.pageContent)
  {
    forall c | c in SplitDocuments(docs, FixedWindow(window))
      ensures exists d :: d in docs && d.source == c.source && c.pageContent in window(CHUNK_SIZE, CHUNK_OVERLAP, d.pageContent)
    {
      var i :| 0 <= i < |docs| && c.source == docs[i].source && c.pageContent in FixedWindow(window)(docs[i].pageContent);
      assert c.pageContent in window(CHUNK_SIZE, CHUNK_OVERLAP, docs[i].pageContent);
      assert docs[i] in docs;
    }
  }

  /** How a chunk was cut from a loaded text: by the 500/50 window alone, or,
      with a semantic chunker, by the window from one of its semantic pieces. */
  ghost predicate CutFrom(chunk: string, text: string, semantic: Option<TextSplitter>, window: WindowSplitter) {
    match semantic
    case None => chunk in window(CHUNK_SIZE, CHUNK_OVERLAP, text)
    case Some(chunker) => exists p :: p in chunker(text) && chunk in window(CHUNK_SIZE, CHUNK_OVERLAP, p)
  }

  /** Semantic chunking comes first and the fixed window last: every chunk
      `process_documents` returns was cut, in that order, from the text of one
      loaded document, and carries that document's source. */
  lemma {:induction false} ProcessedLineage(listing: seq<string>, ignored: Option<seq<string>>, load: Loader, clean: Cleaner,
                                            semantic: Option<TextSplitter>, window: WindowSplitter)
    ensures var r := Processed(listing, ignored, load, clean, semantic, window);
      r.Ok? ==> (Documents(listing, ignored, load, clean).Ok? &&
        forall c :: c in r.value ==>
          exists d :: d in Documents(listing, ignored, load, clean).value && d.source == c.source &&
                      CutFrom(c.pageContent, d.pageContent, semantic, window))
  {
    var loaded := Documents(listing, ignored, load, clean);
    if loaded.Ok? && loaded.value != [] {
      var docs := loaded.value;
      var mid := SemanticPass(docs, semantic);
      assert Processed(listing, ignored, load, clean, semantic, window) == Ok(SplitDocuments(mid, FixedWindow(window)));
      WindowChunks(mid, window);
      forall c | c in SplitDocuments(mid, FixedWindow(window))
        ensures exists d :: d in docs && d.source == c.source && CutFrom(c.pageContent, d.pageContent, semantic, window)
      {
        var m :| m in mid && m.source == c.source && c.pageContent in window(CHUNK_SIZE, CHUNK_OVERLAP, m.pageContent);
        match semantic {
          case None =>
            assert CutFrom(c.pageContent, m.pageContent, semantic, window);
          case Some(chunker) =>
            var i :| 0 <= i < |docs| && m.source == docs[i].source && m.pageContent in chunker(docs[i].pageContent);
            assert docs[i] in docs;
            assert CutFrom(c.pageContent, docs[i].pageContent, semantic, window);
        }
      }
    }
  }

  /** When nothing loads, `process_documents` returns `[]` without calling
      either splitter: the result does not depend on them. */
  lemma {:induction false} ProcessedNothingLoaded(listing: seq<string>, ignored: Option<seq<string>>, load: Loader, clean: Cleaner,
                               semantic: Option<TextSplitter>, window: WindowSplitter,
                               semantic': Option<TextSplitter>, window': WindowSplitter)
    requires Documents(listing, ignored, load, clean) == Ok([])
    ensures Processed(listing, ignored, load, clean, semantic, window) == Ok([])
    ensures Processed(listing, ignored, load, clean, semantic, window) ==
            Processed(listing, ignored, load, clean, semantic', window')
  {
  }

  /** With a cleaner like `clean_text`, `process_documents` raises only the
      impossible-date error. */
  lemma {:induction false} ProcessedErrors(listing: seq<string>, ignored: Option<seq<string>>, load: Loader, clean: Cleaner,
                        semantic: Option<TextSplitter>, window: WindowSplitter)
    requires RaisesOnlyInvalidDate(clean)
    ensures Processed(listing, ignored, load, clean, semantic, window).Err? ==>
              Processed(listing, ignored, load, clean, semantic, window).error.InvalidDate?
  {
    DocumentsErrors(listing, ignored, load, clean);
  }

  // ---------------------------------------------------------------------
  // `ingest`

  /** The Chroma collection at the store directory and what was last
      persisted of it. */
  class VectorStore {
    var chunks: seq<Document>
    var persisted: seq<Document>

    constructor (chunks: seq<Document>, persisted: seq<Document>)
      ensures this.chunks == chunks && this.persisted == persisted
    {
      this.chunks := chunks;
      this.persisted := persisted;
    }

    /** `db.add_documents(texts)` and `Chroma.from_documents(texts, ...)`:
        both add the chunks to the collection at the directory. */
    method AddDocuments(texts: seq<Document>)
      modifies this
      ensures chunks == old(chunks) + texts
      ensures persisted == old(persisted)
    {
      chunks := chunks + texts;
    }

    /** `db.persist()`. */
    method Persist()
      modifies this
      ensures chunks == old(chunks)
      ensures persisted == chunks
    {
      persisted := chunks;
    }
  }

  /** The ignored-file list `ingest` passes to `process_documents`: the
      sources of the stored chunks when the store exists, none otherwise. */
  function IgnoredFor(storeExists: bool, stored: seq<Document>): (r: Option<seq<string>>)
    ensures storeExists ==> r.Some? && forall s :: s in r.value <==> exists c :: c in stored && c.source == s
    ensures !storeExists ==> r == None
  {
    if storeExists then
      var sources := Sources(stored);
      assert forall s :: s in sources <==> exists c :: c in stored && c.source == s by {
        forall s ensures s in sources <==> exists c :: c in stored && c.source == s {
          if s in sources {
            var i :| 0 <= i < |sources| && sources[i] == s;
            assert stored[i] in stored;
          }
          if c :| c in stored && c.source == s {
            var i :| 0 <= i < |stored| && stored[i] == c;
            assert sources[i] == s;
          }
        }
      }
      Some(sources)
    else None
  }

  /** `ingest(db_folder, source_folder)`: choose the branch on
      `does_vectorstore_exist`, process the source documents with the
      embedding model's semantic chunker (skipping the sources already
      stored when the store exists), add the chunks to the collection and
      persist it. A failure while processing leaves the store untouched. */
  method Ingest(store: VectorStore, dbFolder: string, fs: set<string>, listing: seq<string>, load: Loader,
                semantic: TextSplitter, window: WindowSplitter)
    returns (r: Result<seq<Document>>)
    modifies store
    ensures r == Processed(listing, IgnoredFor(DoesVectorstoreExist(dbFolder, fs), old(store.chunks)),
                           load, CleanTextAsWritten, Some(semantic), window)
    ensures r.Ok? ==> store.chunks == old(store.chunks) + r.value && store.persisted == store.chunks
    ensures r.Err? ==> r.error.InvalidDate? && store.chunks == old(store.chunks) && store.persisted == old(store.persisted)
  {
    CleanersRaiseOnlyInvalidDate();
    ProcessedErrors(listing, IgnoredFor(DoesVectorstoreExist(dbFolder, fs), store.chunks),
                    load, CleanTextAsWritten, Some(semantic), window);
    var texts;
    if DoesVectorstoreExist(dbFolder, fs) {
      var ignored := Sources(store.chunks);
      texts := ProcessDocuments(listing, Some(ignored), load, CleanTextAsWritten, Some(semantic), window);
    } else {
      texts := ProcessDocuments(listing, None, load, CleanTextAsWritten, Some(semantic), window);
    }
    if texts.Err? {
      return texts;
    }
    store.AddDocuments(texts.value);
    store.Persist();
    r := texts;
  }

  /** Deduplication: when the store exists, no chunk `ingest` adds comes
      from a source that is already stored. */
  lemma {:induction false} IngestSkipsStoredSources(stored: seq<Document>, listing: seq<string>, load: Loader,
                                 semantic: TextSplitter, window: WindowSplitter)
    ensures var r := Processed(listing, IgnoredFor(true, stored), load, CleanTextAsWritten, Some(semantic), window);
      r.Ok? ==> forall c, d :: c in r.value && d in stored ==> c.source != d.source
  {
    var ignored := IgnoredFor(true, stored);
    ProcessedChunks(listing, ignored, load, CleanTextAsWritten, Some(semantic), window);
  }

  /** A new store ignores nothing: processing with no ignored list is the
      same as processing with an empty one. */
  lemma {:induction false} NewStoreIgnoresNothing(listing: seq<string>, load: Loader, semantic: TextSplitter, window: WindowSplitter)
    ensures Processed(listing, None, load, CleanTextAsWritten, Some(semantic), window) ==
            Processed(listing, Some([]), load, CleanTextAsWritten, Some(semantic), window)
  {
    DocumentsNothingIgnored(listing, load, CleanTextAsWritten);
    SameDocumentsSameChunks(listing, None, Some([]), load, CleanTextAsWritten, Some(semantic), window);
  }

  /** Processing depends on the ignored list only through the documents it loads. */
  lemma {:induction false} SameDocumentsSameChunks(listing: seq<string>, ignored: Option<seq<string>>, ignored': Option<seq<string>>,
                                                  load: Loader, clean: Cleaner, semantic: Option<TextSplitter>, window: WindowSplitter)
    requires Documents(listing, ignored, load, clean) == Documents(listing, ignored', load, clean)
    ensures Processed(listing, ignored, load, clean, semantic, window) == Processed(listing, ignored', load, clean, semantic, window)
  {
  }
}
