/** Document selection and loading (modules/utils.py): `load_single_document`
    dispatches on the file extension to a loader and cleans the text of PDF,
    HTML and plain-text documents; `load_documents` collects the files of
    every supported extension, in the order of the loader table, skips the
    ignored ones and loads the rest.

    The file loaders are one oracle, `Loader`, that returns the page contents
    a loader of the given kind reads from a path. The directory walk of
    `glob` is the sequence `listing` of visible file paths below the source
    directory, in the order the walk visits them. */
module DocumentLoading {
  import opened Base
  import opened TextClean

  // ---------------------------------------------------------------------
  // The loader table

  /** The loader classes of `LOADER_MAPPING`. */
  datatype LoaderKind =
    | CsvLoader
    | WordDocumentLoader
    | HtmlLoader
    | MarkdownLoader
    | OdtLoader
    | PdfLoader
    | PowerPointLoader
    | TextLoader

  /** What a loader of the given kind reads from a path: the page contents of
      the documents it returns. Every returned document carries the path as
      its `source`. */
  type Loader = (LoaderKind, string) -> seq<string>

  /** The keys of `LOADER_MAPPING`, in the dictionary's order. */
  const LOADER_EXTENSIONS: seq<string> :=
    [".csv", ".doc", ".docx", ".html", ".md", ".odt", ".pdf", ".ppt", ".pptx", ".txt"]

  /** The extensions whose documents go through `clean_text`. */
  const CLEANED_EXTENSIONS: seq<string> := [".pdf", ".html", ".txt"]

  /** `LOADER_MAPPING.get(ext)`, without the loader arguments. */
  function LoaderFor(ext: string): (r: Option<LoaderKind>)
    ensures r.Some? <==> ext in LOADER_EXTENSIONS
  {
    if ext == ".csv" then Some(CsvLoader)
    else if ext == ".doc" || ext == ".docx" then Some(WordDocumentLoader)
    else if ext == ".html" then Some(HtmlLoader)
    else if ext == ".md" then Some(MarkdownLoader)
    else if ext == ".odt" then Some(OdtLoader)
    else if ext == ".pdf" then Some(PdfLoader)
    else if ext == ".ppt" || ext == ".pptx" then Some(PowerPointLoader)
    else if ext == ".txt" then Some(TextLoader)
    else None
  }

  // ---------------------------------------------------------------------
  // `"." + file_path.rsplit(".", 1)[-1]`

  /** The text after the last `.`, or the whole string when it has none. */
  function AfterLastDot(s: string): (r: string)
    ensures '.' !in r
    ensures EndsWith(s, r)
    ensures |r| < |s| ==> s[|s| - |r| - 1] == '.'
    ensures |r| == |s| ==> '.' !in s
    ensures '.' in s ==> |r| < |s|
  {
    if s == [] then []
    else if s[|s| - 1] == '.' then []
    else
      var r := AfterLastDot(s[..|s| - 1]) + [s[|s| - 1]];
      assert s[|s| - |r|..] == s[..|s| - 1][|s| - |r|..] + [s[|s| - 1]];
      r
  }

  /** The extension `load_single_document` dispatches on. */
  function Extension(path: string): (r: string)
    ensures |r| >= 1 && r[0] == '.' && '.' !in r[1..]
    ensures '.' in path ==> EndsWith(path, r)
    ensures '.' !in path ==> r == "." + path
  {
    var tail := AfterLastDot(path);
    AfterLastDotShape(path);
    assert ("." + tail)[1..] == tail;
    "." + tail
  }

  lemma {:induction false} AfterLastDotShape(path: string)
    ensures '.' !in path ==> AfterLastDot(path) == path
    ensures '.' in path ==> |AfterLastDot(path)| < |path| &&
                            path[|path| - |AfterLastDot(path)| - 1..] == "." + AfterLastDot(path)
  {
    var tail := AfterLastDot(path);
    var n := |path| - |tail|;
    if '.' in path {
      assert path[n - 1..] == [path[n - 1]] + path[n..];
    } else {
      assert path[n..] == path;
    }
  }

  /** A path ending in a dot and a dot-free name has that extension. */
  lemma {:induction false} ExtensionOfSuffix(path: string, ext: string)
    requires |ext| >= 1 && ext[0] == '.' && '.' !in ext[1..]
    requires EndsWith(path, ext)
    ensures Extension(path) == ext
  {
    var tail := AfterLastDot(path);
    var k := |path| - |ext|;
    assert path[k] == '.';
    assert '.' in path;
    assert tail == path[|path| - |tail|..] == ext[1..];
  }

  lemma {:induction false} LoaderExtensionsWellFormed()
    ensures forall e :: e in LOADER_EXTENSIONS ==> |e| >= 1 && e[0] == '.' && '.' !in e[1..]
  {
  }

  // ---------------------------------------------------------------------
  // `load_single_document`

  /** The text cleaner `load_single_document` applies: `clean_text`. */
  type Cleaner = string -> Result<string>

  /** `doc.page_content = clean(doc.page_content)` for each document in
      turn: the cleaned contents, or the error of the first that fails. */
  function CleanAll(contents: seq<string>, clean: Cleaner): (r: Result<seq<string>>)
    ensures r.Ok? ==> |r.value| == |contents|
    ensures r.Ok? ==> forall i :: 0 <= i < |contents| ==> clean(contents[i]) == Ok(r.value[i])
  {
    if contents == [] then Ok([])
    else match clean(contents[0])
      case Err(e) => Err(e)
      case Ok(first) =>
        match CleanAll(contents[1..], clean)
        case Err(e) => Err(e)
        case Ok(rest) => Ok([first] + rest)
  }

  /** Cleaning fails exactly when one of the texts fails to clean. */
  lemma {:induction false} CleanAllFails(contents: seq<string>, clean: Cleaner)
    ensures CleanAll(contents, clean).Err? <==> exists i :: 0 <= i < |contents| && clean(contents[i]).Err?
  {
    if contents != [] {
      CleanAllFails(contents[1..], clean);
      if clean(contents[0]).Ok? && CleanAll(contents, clean).Err? {
        var i :| 0 <= i < |contents[1..]| && clean(contents[1..][i]).Err?;
        assert contents[i + 1] == contents[1..][i];
      }
    }
  }

  /** The error reported is that of the first text that fails to clean. */
  lemma {:induction false} CleanAllFirstError(contents: seq<string>, clean: Cleaner, i: nat)
    requires i < |contents| && clean(contents[i]).Err?
    requires forall k :: 0 <= k < i ==> clean(contents[k]).Ok?
    ensures CleanAll(contents, clean) == Err(clean(contents[i]).error)
    decreases i
  {
    if i > 0 {
      assert forall k :: 0 <= k < i - 1 ==> contents[1..][k] == contents[k + 1];
      CleanAllFirstError(contents[1..], clean, i - 1);
    }
  }

  /** The documents a list of page contents becomes, all with `source` set to the path. */
  function WithSource(contents: seq<string>, path: string): (r: seq<Document>)
    ensures |r| == |contents|
    ensures forall i :: 0 <= i < |r| ==> r[i] == Document(contents[i], path)
  {
    seq(|contents|, i requires 0 <= i < |contents| => Document(contents[i], path))
  }

  /** Documents pairing each content with the source at the same position. */
  function Relabel(contents: seq<string>, sources: seq<string>): (r: seq<Document>)
    requires |contents| == |sources|
    ensures |r| == |contents|
    ensures forall i :: 0 <= i < |r| ==> r[i] == Document(contents[i], sources[i])
  {
    seq(|contents|, i requires 0 <= i < |contents| => Document(contents[i], sources[i]))
  }

  /** The documents with every text cleaned, sources kept; or the error of
      the first text that fails to clean. */
  function CleanDocs(docs: seq<Document>, clean: Cleaner): Result<seq<Document>> {
    match CleanAll(Contents(docs), clean)
    case Ok(c) => Ok(Relabel(c, Sources(docs)))
    case Err(e) => Err(e)
  }

  /** What `load_single_document(path)` returns or raises, with `clean` as
      the text cleaner. */
  function SingleDocument(path: string, load: Loader, clean: Cleaner): Result<seq<Document>> {
    var ext := Extension(path);
    match LoaderFor(ext)
    case None => Err(UnsupportedExtension(ext))
    case Some(kind) =>
      var contents := load(kind, path);
      if ext in CLEANED_EXTENSIONS then CleanDocs(WithSource(contents, path), clean)
      else Ok(WithSource(contents, path))
  }

  /** The first text that fails to clean, given one that does. */
  lemma {:induction false} FirstFailure(contents: seq<string>, clean: Cleaner, i: nat) returns (k: nat)
    requires i < |contents| && clean(contents[i]).Err?
    ensures k <= i && clean(contents[k]).Err?
    ensures forall j :: 0 <= j < k ==> clean(contents[j]).Ok?
    decreases i
  {
    if i == 0 || clean(contents[0]).Err? {
      k := 0;
    } else {
      var k' := FirstFailure(contents[1..], clean, i - 1);
      k := k' + 1;
      assert forall j :: 1 <= j < k ==> contents[j] == contents[1..][j - 1];
    }
  }

  /** Cleaning the pages of one file: it succeeds exactly when every page
      cleans, giving one document per page with the cleaned text and the
      path as `source`; otherwise the error of a page that fails. */
  lemma {:induction false} CleanDocsOutcome(contents: seq<string>, path: string, clean: Cleaner)
    ensures var r := CleanDocs(WithSource(contents, path), clean);
      && (r.Ok? <==> forall i :: 0 <= i < |contents| ==> clean(contents[i]).Ok?)
      && (r.Ok? ==> (|r.value| == |contents| &&
            forall i :: 0 <= i < |contents| ==> r.value[i] == Document(clean(contents[i]).value, path)))
      && (r.Err? ==> exists i :: 0 <= i < |contents| && clean(contents[i]).Err? && r == Err(clean(contents[i]).error))
  {
    assert Contents(WithSource(contents, path)) == contents;
    CleanAllFails(contents, clean);
    var c := CleanAll(contents, clean);
    if c.Err? {
      var i :| 0 <= i < |contents| && clean(contents[i]).Err?;
      var k := FirstFailure(contents, clean, i);
      CleanAllFirstError(contents, clean, k);
    }
  }

  /** The outcomes of `load_single_document`: ValueError for an extension
      outside the table; otherwise one document per loaded page, all with
      the path as `source`, the text cleaned for PDF, HTML and plain text and
      verbatim for the other types; the error of a text that fails to clean
      when one does. */
  lemma {:induction false} SingleDocumentOutcome(path: string, load: Loader, clean: Cleaner)
    ensures var ext := Extension(path);
      var r := SingleDocument(path, load, clean);
      && (ext !in LOADER_EXTENSIONS ==> r == Err(UnsupportedExtension(ext)))
      && (ext in LOADER_EXTENSIONS && ext !in CLEANED_EXTENSIONS ==>
            r == Ok(WithSource(load(LoaderFor(ext).value, path), path)))
      && (ext in CLEANED_EXTENSIONS ==>
            var contents := load(LoaderFor(ext).value, path);
            && (r.Ok? <==> forall i :: 0 <= i < |contents| ==> clean(contents[i]).Ok?)
            && (r.Ok? ==> (|r.value| == |contents| &&
                  forall i :: 0 <= i < |contents| ==> r.value[i] == Document(clean(contents[i]).value, path)))
            && (r.Err? ==> exists i :: 0 <= i < |contents| && clean(contents[i]).Err? && r == Err(clean(contents[i]).error)))
  {
    var ext := Extension(path);
    if ext !in LOADER_EXTENSIONS {
      SingleDocumentUnsupported(path, load, clean);
    } else if ext !in CLEANED_EXTENSIONS {
      SingleDocumentVerbatim(path, load, clean);
    } else {
      SingleDocumentCleaned(path, load, clean);
    }
  }

  /** A file whose extension is outside the loader table is refused. */
  lemma {:induction false} SingleDocumentUnsupported(path: string, load: Loader, clean: Cleaner)
    requires Extension(path) !in LOADER_EXTENSIONS
    ensures Extension(path) !in CLEANED_EXTENSIONS
    ensures SingleDocument(path, load, clean) == Err(UnsupportedExtension(Extension(path)))
  {
    CleanedAreLoaded();
  }

  /** A file of a supported type other than PDF, HTML and plain text is its
      loaded pages, verbatim. */
  lemma {:induction false} SingleDocumentVerbatim(path: string, load: Loader, clean: Cleaner)
    requires Extension(path) in LOADER_EXTENSIONS && Extension(path) !in CLEANED_EXTENSIONS
    ensures SingleDocument(path, load, clean) == Ok(WithSource(load(LoaderFor(Extension(path)).value, path), path))
  {
  }

  /** A PDF, HTML or plain-text file is its loaded pages run through the cleaner. */
  lemma {:induction false} SingleDocumentCleaned(path: string, load: Loader, clean: Cleaner)
    requires Extension(path) in CLEANED_EXTENSIONS
    ensures LoaderFor(Extension(path)).Some?
    ensures var contents := load(LoaderFor(Extension(path)).value, path);
      var r := SingleDocument(path, load, clean);
      && (r.Ok? <==> forall i :: 0 <= i < |contents| ==> clean(contents[i]).Ok?)
      && (r.Ok? ==> (|r.value| == |contents| &&
            forall i :: 0 <= i < |contents| ==> r.value[i] == Document(clean(contents[i]).value, path)))
      && (r.Err? ==> exists i :: 0 <= i < |contents| && clean(contents[i]).Err? && r == Err(clean(contents[i]).error))
  {
    CleanedAreLoaded();
    var contents := load(LoaderFor(Extension(path)).value, path);
    assert SingleDocument(path, load, clean) == CleanDocs(WithSource(contents, path), clean);
    CleanDocsOutcome(contents, path, clean);
  }

  /** The cleaned extensions are in the loader table. */
  lemma {:induction false} CleanedAreLoaded()
    ensures forall e :: e in CLEANED_EXTENSIONS ==> e in LOADER_EXTENSIONS
  {
  }

  /** A cleaner whose only error is the impossible-date ValueError of
      `clean_text`. */
  ghost predicate RaisesOnlyInvalidDate(clean: Cleaner) {
    forall text :: clean(text).Err? ==> clean(text).error.InvalidDate?
  }

  /** `clean_text` as written qualifies, and so does the single-pass rewrite. */
  lemma {:induction false} CleanersRaiseOnlyInvalidDate()
    ensures RaisesOnlyInvalidDate(CleanTextAsWritten)
    ensures RaisesOnlyInvalidDate(CleanText)
  {
    forall text
      ensures CleanTextAsWritten(text).Err? ==> CleanTextAsWritten(text).error.InvalidDate?
      ensures CleanText(text).Err? ==> CleanText(text).error.InvalidDate?
    {
      CleanTextAsWrittenSpec(text);
      CleanTextSpec(text);
    }
  }

  /** With a cleaner like `clean_text`, `load_single_document` raises only
      for an unsupported extension or, for a supported one, an impossible date. */
  lemma {:induction false} SingleDocumentErrors(path: string, load: Loader, clean: Cleaner)
    requires RaisesOnlyInvalidDate(clean)
    ensures SingleDocument(path, load, clean).Err? ==>
              if Extension(path) in LOADER_EXTENSIONS then SingleDocument(path, load, clean).error.InvalidDate?
              else SingleDocument(path, load, clean).error == UnsupportedExtension(Extension(path))
  {
    var ext := Extension(path);
    if ext !in LOADER_EXTENSIONS {
      SingleDocumentUnsupported(path, load, clean);
    } else if ext !in CLEANED_EXTENSIONS {
      SingleDocumentVerbatim(path, load, clean);
    } else {
      CleanedErrors(path, load, clean);
    }
  }

  /** A PDF, HTML or plain-text file fails only with an error of the cleaner. */
  lemma {:induction false} CleanedErrors(path: string, load: Loader, clean: Cleaner)
    requires Extension(path) in CLEANED_EXTENSIONS
    requires RaisesOnlyInvalidDate(clean)
    ensures SingleDocument(path, load, clean).Err? ==> SingleDocument(path, load, clean).error.InvalidDate?
  {
    SingleDocumentCleaned(path, load, clean);
    var r := SingleDocument(path, load, clean);
    if r.Err? {
      var contents := load(LoaderFor(Extension(path)).value, path);
      var i :| 0 <= i < |contents| && clean(contents[i]).Err? && r == Err(clean(contents[i]).error);
      var text := contents[i];
      assert clean(text).error.InvalidDate?;
    }
  }

  /** The loop of `load_single_document` that replaces the text of each
      document in turn by its cleaned text; the first failure aborts it. */
  method CleanDocuments(docs: seq<Document>, clean: Cleaner) returns (r: Result<seq<Document>>)
    ensures r == CleanDocs(docs, clean)
  {
    var out := docs;
    var i := 0;
    while i < |out|
      invariant 0 <= i <= |out| == |docs|
      invariant forall k :: 0 <= k < i ==> clean(docs[k].pageContent).Ok? && out[k] == Document(clean(docs[k].pageContent).value, docs[k].source)
      invariant forall k :: i <= k < |out| ==> out[k] == docs[k]
    {
      var cleaned := clean(out[i].pageContent);
      if cleaned.Err? {
        CleanAllFirstError(Contents(docs), clean, i);
        return Err(cleaned.error);
      }
      out := out[i := Document(cleaned.value, out[i].source)];
      i := i + 1;
    }
    CleanAllFails(Contents(docs), clean);
    var c := CleanAll(Contents(docs), clean).value;
    assert out == Relabel(c, Sources(docs));
    r := Ok(out);
  }

  /** `load_single_document`, rewriting each loaded document's text in place. */
  method LoadSingleDocument(path: string, load: Loader, clean: Cleaner) returns (r: Result<seq<Document>>)
    ensures r == SingleDocument(path, load, clean)
  {
    var ext := Extension(path);
    var kind := LoaderFor(ext);
    if kind.None? {
      return Err(UnsupportedExtension(ext));
    }
    var contents := load(kind.value, path);
    var docs := WithSource(contents, path);
    if ext in CLEANED_EXTENSIONS {
      r := CleanDocuments(docs, clean);
      return;
    }
    r := Ok(docs);
  }

  // ---------------------------------------------------------------------
  // `load_documents`

  /** The recursive `glob.glob` for one extension below the source
      directory: the listed paths that end in the extension, in walk order. */
  function Glob(listing: seq<string>, ext: string): (r: seq<string>)
    ensures forall p :: p in r <==> p in listing && EndsWith(p, ext)
  {
    if listing == [] then []
    else (if EndsWith(listing[0], ext) then [listing[0]] else []) + Glob(listing[1..], ext)
  }

  /** `all_files`: the matches of each extension in turn. */
  function FilesFor(listing: seq<string>, exts: seq<string>): (r: seq<string>)
    ensures forall p :: p in r <==> p in listing && exists k :: 0 <= k < |exts| && EndsWith(p, exts[k])
  {
    if exts == [] then []
    else
      var r := Glob(listing, exts[0]) + FilesFor(listing, exts[1..]);
      assert forall p :: (exists k :: 0 <= k < |exts| && EndsWith(p, exts[k])) <==>
                         (EndsWith(p, exts[0]) || exists k :: 0 <= k < |exts[1..]| && EndsWith(p, exts[1..][k])) by {
        forall p ensures (exists k :: 0 <= k < |exts| && EndsWith(p, exts[k])) ==>
                         (EndsWith(p, exts[0]) || exists k :: 0 <= k < |exts[1..]| && EndsWith(p, exts[1..][k])) {
          if k :| 0 <= k < |exts| && EndsWith(p, exts[k]) {
            if k > 0 { assert exts[1..][k - 1] == exts[k]; }
          }
        }
      }
      r
  }

  /** Matches keep the order of the listing: the matches of a listing are
      those of its first part followed by those of the rest. */
  lemma {:induction false} GlobAppend(a: seq<string>, b: seq<string>, ext: string)
    ensures Glob(a + b, ext) == Glob(a, ext) + Glob(b, ext)
  {
    if a == [] {
      assert a + b == b;
    } else {
      var ab := a + b;
      assert ab[0] == a[0] && ab[1..] == a[1..] + b;
      GlobAppend(a[1..], b, ext);
      var head := if EndsWith(a[0], ext) then [a[0]] else [];
      assert Glob(ab, ext) == head + (Glob(a[1..], ext) + Glob(b, ext));
      assert Glob(a, ext) == head + Glob(a[1..], ext);
    }
  }

  /** The files come grouped by extension, in the order of the table: the
      files collected for a prefix of the table come first, then those of
      the rest. */
  lemma {:induction false} FilesForGrouped(listing: seq<string>, exts: seq<string>, l: nat)
    requires l <= |exts|
    ensures FilesFor(listing, exts) == FilesFor(listing, exts[..l]) + FilesFor(listing, exts[l..])
    decreases l
  {
    if l == 0 {
      assert exts[..0] == [] && exts[0..] == exts;
    } else {
      var tail := exts[1..];
      FilesForGrouped(listing, tail, l - 1);
      assert tail[..l - 1] == exts[..l][1..];
      assert tail[l - 1..] == exts[l..];
      assert exts[..l][0] == exts[0];
      var g := Glob(listing, exts[0]);
      assert FilesFor(listing, exts) == g + (FilesFor(listing, exts[..l][1..]) + FilesFor(listing, exts[l..]));
      assert FilesFor(listing, exts[..l]) == g + FilesFor(listing, exts[..l][1..]);
    }
  }

  /** A file matched by an earlier extension of the table is collected
      before a file matched by a later one. */
  lemma {:induction false} FilesForOrder(listing: seq<string>, exts: seq<string>, k: nat, l: nat, p: string, q: string)
    requires k < l < |exts|
    requires p in Glob(listing, exts[k]) && q in Glob(listing, exts[l])
    ensures exists i, j :: 0 <= i < j < |FilesFor(listing, exts)| &&
              FilesFor(listing, exts)[i] == p && FilesFor(listing, exts)[j] == q
  {
    FilesForGrouped(listing, exts, l);
    assert exts[..l][k] == exts[k];
    assert exts[l..][0] == exts[l];
    var i := CollectedAt(listing, exts[..l], k, p);
    var j := CollectedAt(listing, exts[l..], 0, q);
    PairAcross(FilesFor(listing, exts), FilesFor(listing, exts[..l]), FilesFor(listing, exts[l..]), p, q, i, j);
  }

  /** An element of the first part of a concatenation comes before an
      element of its second part. */
  lemma {:induction false} PairAcross(all: seq<string>, before: seq<string>, after: seq<string>, p: string, q: string, i: nat, j: nat)
    requires all == before + after
    requires i < |before| && before[i] == p && j < |after| && after[j] == q
    ensures exists i', j' :: 0 <= i' < j' < |all| && all[i'] == p && all[j'] == q
  {
    assert all[i] == p && all[|before| + j] == q;
  }

  /** A match of one extension of the table is among the collected files. */
  lemma {:induction false} CollectedAt(listing: seq<string>, exts: seq<string>, k: nat, p: string) returns (i: nat)
    requires k < |exts| && p in Glob(listing, exts[k])
    ensures i < |FilesFor(listing, exts)| && FilesFor(listing, exts)[i] == p
  {
    assert p in listing && EndsWith(p, exts[k]);
    assert p in FilesFor(listing, exts);
    i :| 0 <= i < |FilesFor(listing, exts)| && FilesFor(listing, exts)[i] == p;
  }

  function AllFiles(listing: seq<string>): seq<string> {
    FilesFor(listing, LOADER_EXTENSIONS)
  }

  /** `file_path in ignored_files`, with `None` read as the empty list. */
  predicate Ignored(path: string, ignored: Option<seq<string>>) {
    ignored.Some? && path in ignored.value
  }

  /** The files that are not ignored, in order. */
  function Selected(files: seq<string>, ignored: Option<seq<string>>): (r: seq<string>)
    ensures forall p :: p in r <==> p in files && !Ignored(p, ignored)
    ensures ignored == None ==> r == files
  {
    if files == [] then []
    else (if Ignored(files[0], ignored) then [] else [files[0]]) + Selected(files[1..], ignored)
  }

  /** The documents of one file followed by those of the files after it;
      the first error wins. */
  function Then(first: Result<seq<Document>>, rest: Result<seq<Document>>): Result<seq<Document>> {
    match first
    case Err(e) => Err(e)
    case Ok(docs) => Prefixed(docs, rest)
  }

  /** `documents` followed by what the rest of the files load to. */
  function Prefixed(documents: seq<Document>, rest: Result<seq<Document>>): Result<seq<Document>> {
    match rest
    case Ok(docs) => Ok(documents + docs)
    case Err(e) => Err(e)
  }

  /** An empty ignored list skips nothing, like `None`. */
  lemma {:induction false} SelectedNothingIgnored(files: seq<string>)
    ensures Selected(files, Some([])) == files
  {
    if files != [] {
      SelectedNothingIgnored(files[1..]);
      assert files == [files[0]] + files[1..];
    }
  }

  /** Loading with an empty ignored list loads what loading with `None` does. */
  lemma {:induction false} DocumentsNothingIgnored(listing: seq<string>, load: Loader, clean: Cleaner)
    ensures Documents(listing, None, load, clean) == Documents(listing, Some([]), load, clean)
  {
    SelectedNothingIgnored(AllFiles(listing));
  }

  /** `documents.extend(load_single_document(file_path))` over the files: the
      concatenated documents, or the error of the first file that fails. */
  function LoadAll(files: seq<string>, load: Loader, clean: Cleaner): Result<seq<Document>> {
    if files == [] then Ok([])
    else Then(SingleDocument(files[0], load, clean), LoadAll(files[1..], load, clean))
  }

  /** What `load_documents(source_dir, ignored_files)` returns or raises. */
  function Documents(listing: seq<string>, ignored: Option<seq<string>>, load: Loader, clean: Cleaner): Result<seq<Document>> {
    LoadAll(Selected(AllFiles(listing), ignored), load, clean)
  }

  /** `load_documents`: collect the files extension by extension, then load
      every file that is not ignored, in that order. */
  method LoadDocuments(listing: seq<string>, ignored: Option<seq<string>>, load: Loader, clean: Cleaner)
    returns (r: Result<seq<Document>>)
    ensures r == Documents(listing, ignored, load, clean)
  {
    var allFiles := CollectFiles(listing, LOADER_EXTENSIONS);
    r := LoadFiles(allFiles, ignored, load, clean);
  }

  /** The `all_files` loop: the glob matches of each extension in turn. */
  method CollectFiles(listing: seq<string>, exts: seq<string>) returns (allFiles: seq<string>)
    ensures allFiles == FilesFor(listing, exts)
  {
    allFiles := [];
    var k := 0;
    while k < |exts|
      invariant 0 <= k <= |exts|
      invariant allFiles + FilesFor(listing, exts[k..]) == FilesFor(listing, exts)
    {
      assert exts[k..][1..] == exts[k + 1..];
      allFiles := allFiles + Glob(listing, exts[k]);
      k := k + 1;
    }
    assert exts[k..] == [];
  }

  /** One step of the file loop: an ignored file is skipped. */
  lemma {:induction false} LoadAllSkip(files: seq<string>, i: nat, ignored: Option<seq<string>>, load: Loader, clean: Cleaner)
    requires i < |files| && Ignored(files[i], ignored)
    ensures LoadAll(Selected(files[i..], ignored), load, clean) == LoadAll(Selected(files[i + 1..], ignored), load, clean)
  {
    SelectedStep(files, i, ignored);
    var rest := Selected(files[i + 1..], ignored);
    assert Selected(files[i..], ignored) == rest by {
      assert [] + rest == rest;
    }
  }

  /** One step of the file loop: a file that is not ignored is loaded and
      its documents come first. */
  lemma {:induction false} LoadAllStep(files: seq<string>, i: nat, ignored: Option<seq<string>>, load: Loader, clean: Cleaner)
    requires i < |files| && !Ignored(files[i], ignored)
    ensures LoadAll(Selected(files[i..], ignored), load, clean) ==
              Then(SingleDocument(files[i], load, clean), LoadAll(Selected(files[i + 1..], ignored), load, clean))
  {
    SelectedStep(files, i, ignored);
    LoadAllCons(files[i], Selected(files[i + 1..], ignored), load, clean);
  }

  lemma {:induction false} SelectedStep(files: seq<string>, i: nat, ignored: Option<seq<string>>)
    requires i < |files|
    ensures Selected(files[i..], ignored) ==
              (if Ignored(files[i], ignored) then [] else [files[i]]) + Selected(files[i + 1..], ignored)
  {
    assert files[i..][1..] == files[i + 1..];
  }

  lemma {:induction false} LoadAllCons(path: string, rest: seq<string>, load: Loader, clean: Cleaner)
    ensures LoadAll([path] + rest, load, clean) ==
              Then(SingleDocument(path, load, clean), LoadAll(rest, load, clean))
  {
    assert ([path] + rest)[1..] == rest;
  }

  lemma {:induction false} PrefixedEmpty(rest: Result<seq<Document>>)
    ensures Prefixed([], rest) == rest
  {
    if rest.Ok? {
      assert [] + rest.value == rest.value;
    }
  }

  lemma {:induction false} PrefixedAppend(a: seq<Document>, b: seq<Document>, rest: Result<seq<Document>>)
    ensures Prefixed(a, Prefixed(b, rest)) == Prefixed(a + b, rest)
  {
    if rest.Ok? {
      assert a + (b + rest.value) == a + b + rest.value;
    }
  }

  /** The loop of `load_documents` over the collected files. */
  method LoadFiles(allFiles: seq<string>, ignored: Option<seq<string>>, load: Loader, clean: Cleaner)
    returns (r: Result<seq<Document>>)
    ensures r == LoadAll(Selected(allFiles, ignored), load, clean)
  {
    var documents: seq<Document> := [];
    var i := 0;
    assert allFiles[i..] == allFiles;
    PrefixedEmpty(LoadAll(Selected(allFiles, ignored), load, clean));
    while i < |allFiles|
      invariant 0 <= i <= |allFiles|
      invariant LoadAll(Selected(allFiles, ignored), load, clean) ==
                  Prefixed(documents, LoadAll(Selected(allFiles[i..], ignored), load, clean))
    {
      var filePath := allFiles[i];
      ghost var rest := LoadAll(Selected(allFiles[i + 1..], ignored), load, clean);
      if ignored.Some? && filePath in ignored.value {
        LoadAllSkip(allFiles, i, ignored, load, clean);
        i := i + 1;
        continue;
      }
      LoadAllStep(allFiles, i, ignored, load, clean);
      var loaded := LoadSingleDocument(filePath, load, clean);
      if loaded.Err? {
        assert LoadAll(Selected(allFiles[i..], ignored), load, clean) == Err(loaded.error);
        return loaded;
      }
      assert LoadAll(Selected(allFiles[i..], ignored), load, clean) == Prefixed(loaded.value, rest);
      PrefixedAppend(documents, loaded.value, rest);
      documents := documents + loaded.value;
      i := i + 1;
    }
    assert allFiles[i..] == [];
    assert Selected(allFiles[i..], ignored) == [];
    assert documents + [] == documents;
    r := Ok(documents);
  }

  // ---------------------------------------------------------------------
  // What `load_documents` can return

  /** Every collected file has an extension of the loader table, so
      `load_documents` never meets the unsupported-extension error. */
  lemma {:induction false} AllFilesSupported(listing: seq<string>)
    ensures forall p :: p in AllFiles(listing) ==> p in listing && Extension(p) in LOADER_EXTENSIONS
  {
    forall p | p in AllFiles(listing)
      ensures Extension(p) in LOADER_EXTENSIONS
    {
      var k :| 0 <= k < |LOADER_EXTENSIONS| && EndsWith(p, LOADER_EXTENSIONS[k]);
      ExtensionInTable(p, k);
    }
  }

  /** A path matched by the glob of a table entry has that entry as its extension. */
  lemma {:induction false} ExtensionInTable(path: string, k: nat)
    requires k < |LOADER_EXTENSIONS| && EndsWith(path, LOADER_EXTENSIONS[k])
    ensures Extension(path) == LOADER_EXTENSIONS[k]
  {
    LoaderExtensionsWellFormed();
    ExtensionOfSuffix(path, LOADER_EXTENSIONS[k]);
  }

  /** Every document `load_single_document` returns has the path as source. */
  lemma {:induction false} SingleDocumentSources(path: string, load: Loader, clean: Cleaner)
    ensures SingleDocument(path, load, clean).Ok? ==>
              forall d :: d in SingleDocument(path, load, clean).value ==> d.source == path
  {
    SingleDocumentOutcome(path, load, clean);
  }

  /** Loading a list of files: an error is the error of one of the files,
      and every loaded document comes from one of the files. */
  lemma {:induction false} LoadAllOutcome(files: seq<string>, load: Loader, clean: Cleaner)
    ensures LoadAll(files, load, clean).Err? ==>
              exists p :: p in files && LoadAll(files, load, clean) == SingleDocument(p, load, clean)
    ensures LoadAll(files, load, clean).Ok? ==>
              forall d :: d in LoadAll(files, load, clean).value ==> d.source in files
  {
    if files != [] {
      LoadAllOutcome(files[1..], load, clean);
      SingleDocumentSources(files[0], load, clean);
      var first := SingleDocument(files[0], load, clean);
      var rest := LoadAll(files[1..], load, clean);
      if first.Ok? && rest.Err? {
        var p :| p in files[1..] && rest == SingleDocument(p, load, clean);
        assert p in files;
      }
      if first.Ok? && rest.Ok? {
        forall d | d in first.value + rest.value
          ensures d.source in files
        {
          if d !in first.value {
            assert d.source in files[1..];
          }
        }
      }
    }
  }

  /** `load_documents` returns only documents of files it selected: files
      of the listing that are not ignored and carry a supported extension.
      An ignored list of `None` ignores nothing. */
  lemma {:induction false} DocumentsSources(listing: seq<string>, ignored: Option<seq<string>>, load: Loader, clean: Cleaner)
    ensures Documents(listing, ignored, load, clean).Ok? ==>
              forall d :: d in Documents(listing, ignored, load, clean).value ==>
                d.source in listing && !Ignored(d.source, ignored) && Extension(d.source) in LOADER_EXTENSIONS
    ensures Documents(listing, None, load, clean) == LoadAll(AllFiles(listing), load, clean)
  {
    var files := Selected(AllFiles(listing), ignored);
    AllFilesSupported(listing);
    LoadAllOutcome(files, load, clean);
    var r := LoadAll(files, load, clean);
    assert Documents(listing, ignored, load, clean) == r;
    if r.Ok? {
      forall d | d in r.value
        ensures d.source in listing && !Ignored(d.source, ignored) && Extension(d.source) in LOADER_EXTENSIONS
      {
        assert d.source in files;
        assert d.source in AllFiles(listing);
      }
    }
  }

  /** With a cleaner like `clean_text`, the only error `load_documents`
      raises is the impossible-date error. */
  lemma {:induction false} DocumentsErrors(listing: seq<string>, ignored: Option<seq<string>>, load: Loader, clean: Cleaner)
    requires RaisesOnlyInvalidDate(clean)
    ensures Documents(listing, ignored, load, clean).Err? ==>
              Documents(listing, ignored, load, clean).error.InvalidDate?
  {
    var files := Selected(AllFiles(listing), ignored);
    AllFilesSupported(listing);
    LoadAllOutcome(files, load, clean);
    if LoadAll(files, load, clean).Err? {
      var p :| p in files && LoadAll(files, load, clean) == SingleDocument(p, load, clean);
      assert p in AllFiles(listing);
      SingleDocumentErrors(p, load, clean);
    }
  }
}
