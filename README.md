# Corporatica agent core in Dafny

A model of the conversational retrieval core of Corporatica. Each agent
("bot") is a row in an overview CSV file. Chatting with an agent runs a fixed
pipeline over a cached session:

1. contextualize the message against the chat history;
2. route it to the documents or to a direct answer;
3. retrieve and rerank passages from the agent's vector store;
4. ask the model whether they are relevant;
5. answer from them or ask a clarifying question;
6. keep the last eight history entries.

Documents reach the store through ingestion. Files are selected by
extension, loaded, and cleaned (lower-case, filtered, whitespace collapsed,
`MM/DD/YYYY` dates rewritten to `YYYY-MM-DD`). They are then chunked and
appended to the store.

The model has these modules, one concern each:

- `Base` (`base.dfy`): results, errors, documents and string helpers.
- `Rerank` (`rerank.dfy`): `rerank_docs`, a stable sort by cross-encoder score.
- `Templates` (`templates.dfy`): the history transcript renderer, and the prompt strings with their `{placeholder}` holes.
- `Registry` (`registry.dfy`): the overview CSV, as the class `AgentRegistry`.
- `Agents` (`agent.dfy`):
  - the session cache, the class `SessionCache`, with `load_agent`, `create_agent`, `preview_agent` and `on_message`;
  - the turn itself, as the method `RunTurn`, proved against the specification function `Converse`.
- `TextClean` (`text_clean.dfy`): `clean_text`.
- `DocumentLoading` (`documents.dfy`): `load_single_document` and `load_documents`.
- `Ingestion` (`ingestion.dfy`):
  - `process_documents`;
  - `does_vectorstore_exist`;
  - `ingest`, over the class `VectorStore`.

These are parameters of the model (oracles), not modelled code:

- `Llm`: the language model. It maps a model name and a prompt to a completion.
- `Retriever`: the vector store's retriever.
- `Scorer`: the cross-encoder.
- `Loader`: a document loader.
- `TextSplitter`: the semantic chunker.
- `WindowSplitter`: the character splitter.

The filesystem is a file listing for `glob`, or a set of existing paths for
`os.path.exists`.

The loading functions take the cleaner as a parameter. `ingest` passes
`TextClean.CleanTextAsWritten`, the date loop of `clean_text` as the code runs
it (see Findings). The lemmas about error kinds (`SingleDocumentErrors`,
`DocumentsErrors`, `ProcessedErrors`) hold for every cleaner whose only error
is an invalid date. `CleanersRaiseOnlyInvalidDate` shows that both the
as-written cleaner and the corrected single-pass `TextClean.CleanText` are
such cleaners.

The empty-retrieval short-circuit (modules/agent.py:144-151) appends the
exchange and returns before the `history[-8:]` trim of modules/agent.py:188.
So on that path the history can grow past eight entries (`TurnHistory`,
`ShortCircuitExceedsLimit`).

Functions that only compute carry no contract of their own. The rows of the
lemmas about such a function name it in their third column.

## Model

| member | source | states |
|---|---|---|
| Rerank.Zip | modules/agent.py:56-58 | one candidate per retrieved document, in order, paired with the cross-encoder score of (query, its page content) |
| Rerank.RerankDocs | modules/agent.py:44-58 | same length as the retrieval; a permutation of the scored pairs; scores non-increasing; equal scores keep retrieval order (stable sort) |
| Rerank.SortPermutes | modules/agent.py:58 | the score sort returns a permutation of its input |
| Rerank.SortOrdered | modules/agent.py:58 | the sorted list is non-increasing in score |
| Rerank.SortStable | modules/agent.py:58 | for every score, the candidates carrying it keep their input order |
| Rerank.RerankNonEmpty | modules/agent.py:53-58 | a non-empty retrieval never reranks to an empty list |
| Rerank.RerankKeepsDocuments | modules/agent.py:56-58 | every reranked candidate holds one of the retrieved documents |
| Templates.RenderFromSpec | modules/templates.py:5-16 | the template loop from index i succeeds iff every later message has the role its index demands; on success one labelled entry per message, in order |
| Templates.RenderOkIffAlternating | modules/templates.py:4-16 | the history renders iff it starts with `user` and strictly alternates user/assistant |
| Templates.RenderedEntries | modules/templates.py:9-12 | a successful rendering has one entry per message: `USER: ` or `MACHINE: ` followed by the verbatim content |
| Templates.RenderFailsOnAlternationViolation | modules/templates.py:6-8 | any message whose role disagrees with its index parity makes rendering fail |
| Templates.RenderFailsOnUnknownRole | modules/templates.py:13-14 | any role other than user/assistant makes rendering fail |
| Templates.RenderFromErr | modules/templates.py:6-15 | the only failure rendering produces is the template exception |
| Templates.NewCustomTemplates | modules/templates.py:78-84 | succeeds iff the model is `llama3` (renderer index 0); otherwise raises No Models Found for that model |
| Templates.RenderTemplate | modules/templates.py:86-89 | with the llama3 renderer, rendering succeeds iff the history alternates |
| Templates.FormatContainsArgument | modules/agent.py:170-180 | every argument that fills a placeholder of a prompt occurs verbatim in the formatted prompt |
| Templates.FormatIgnoresUnusedArguments | modules/agent.py:170-180 | two argument maps that agree on a prompt's placeholders format it identically |
| Templates.NewPrompts | modules/templates.py:94-104 | succeeds iff the model is `llama3`, else No Models Found; the route prompt has exactly the `query` hole, relevancy/answer/clarify have `context` and `query`, contextualize has `chat_history` and `query` |
| Registry.FirstMatch | modules/agent.py:78-80 | the index found holds the id and no earlier row does; none found means no row holds the id |
| Registry.FirstMatchIs | modules/agent.py:78-80 | the first row carrying the id is the one found |
| Registry.AgentRegistry.FindBotById | modules/agent.py:73-81 | an agent is returned iff the file exists and some row has the id; it is the first such row |
| Registry.AgentRegistry.Overview | modules/agent.py:193-201 | every row in file order, or nothing when the file is missing |
| Registry.AgentRegistry.Append | modules/agent.py:87-94 | the file exists afterwards; an existing file keeps its rows and gains the new agent last, a missing one is created holding the header and only the new agent |
| Registry.FirstMatchAfterAppend | modules/agent.py:73-94 | after appending an agent, its id resolves to the earlier row if one existed, else to the new row; every other id resolves as before |
| Agents.NewSession | modules/agent.py:60-71 | a session is built iff the model is `llama3` (else No Models Found); it is valid, has an empty history, and keeps the agent's id, starter and model |
| Agents.Last | modules/agent.py:188 | `history[-n:]`: the last min(n, length) entries, in their original order |
| Agents.TopDocuments | modules/agent.py:166 | the documents of the first min(4, n) reranked candidates, in reranked order |
| Agents.AppendExchangeAlternating | modules/agent.py:185-187 | appending a (user, assistant) exchange to an alternating, even-length history keeps it alternating and even |
| Agents.LastAlternating | modules/agent.py:188 | keeping the last 8 entries of an alternating even-length history keeps it alternating and even |
| Agents.Contextualized | modules/agent.py:123-130 | with empty history the message is used verbatim; it fails iff the history is non-empty and rendering fails, which with the llama3 renderer means the history does not alternate |
| Agents.ContextualizedAsksWithHistory | modules/agent.py:123-130 | with a non-empty history that renders, the working message is the model's answer to a contextualize prompt in which the rendered transcript and the user's message both occur verbatim |
| Agents.RespondPaths | modules/agent.py:132-190 | `Respond`: the turn is direct iff the route output does not start with DOCS; it is the no-documents answer iff it does and the retrieval is empty; there are sources iff the answer came from the documents or the clarify prompt |
| Agents.Converse | modules/agent.py:103-191 | a turn fails only with the rendering error of a non-empty history, with the llama3 renderer exactly when it does not alternate; with empty history the user message is answered as is |
| Agents.RelevancyGate | modules/agent.py:166-188 | past a non-empty retrieval, the answer comes from the qa prompt iff the relevancy output starts with YES, else from the clarify prompt, each given the joined top contents and the working message; the history is the last 8 entries |
| Agents.ConverseKeepsValid | modules/agent.py:103-191 | on a valid session a turn never raises an error of its own (the oracles cannot fail), and the new history is still whole alternating exchanges |
| Agents.NoRerankedBranchDead | modules/agent.py:153-164 | the "no documents after re-ranking" answer is never given |
| Agents.DirectRoute | modules/agent.py:133-183 | a route output not starting with DOCS (after strip) gives the model's direct answer to the working message with no sources, independent of retriever and cross-encoder |
| Agents.ContextualizeOnlyWithHistory | modules/agent.py:123-130 | with empty history the working message is the user's message verbatim and the model is not consulted |
| Agents.RetrievalSources | modules/agent.py:166-190 | on the DOCS path with n > 0 retrieved documents, the path is answer or clarify; the sources are the contents of the top min(4, n) reranked documents, highest score first, each the content of a retrieved document |
| Agents.TurnHistory | modules/agent.py:143-188 | every turn ends the history with (working message, answer); normal turns keep the last 8 entries (so at most 8); the empty-retrieval short-circuit keeps the full history |
| Agents.ShortCircuitExceedsLimit | modules/agent.py:144-151 | with 8 entries already stored, an empty retrieval answers with the fixed no-documents message and no sources, and leaves 10 entries |
| Agents.SessionCache.LoadAgent | modules/agent.py:60-71 | on llama3 stores a fresh session under the bot id (replacing any, so history is reset); otherwise raises and changes nothing; the cache stays valid |
| Agents.SessionCache.CreateAgent | modules/agent.py:83-94 | load then append the CSV row, to the existing rows or to a newly created file; when loading raises neither the cache nor the registry changes |
| Agents.SessionCache.PreviewAgent | modules/agent.py:96-101 | loads only an uncached agent, clears that session's history and returns the cached starter (`Preview`) |
| Agents.SessionCache.LoadSession | modules/agent.py:107-115 | the cached session, or the registry row loaded into the cache; an unknown id raises and changes nothing |
| Agents.SessionCache.OnMessage | modules/agent.py:103-191 | an unknown bot or unsupported model raises with the cache unchanged; otherwise the reply of `Converse` on the loaded session, with that session's history replaced by the turn's history |
| Agents.RunTurn | modules/agent.py:115-191 | the imperative turn produces exactly the path, reply and history of `Converse` |
| Agents.PreviewIdempotent | modules/agent.py:96-101 | previewing twice returns the same starter and leaves the same cache as previewing once |
| Agents.PreviewResetsHistory | modules/agent.py:96-101 | after a successful preview the agent's history is empty; a failed preview leaves the cache unchanged and means the agent was uncached with a non-llama3 model |
| Agents.UnknownBotRejected | modules/agent.py:108-113 | an id neither cached nor in the registry raises "does not exist" |
| TextClean.Lower | modules/utils.py:39 | same length; each upper-case letter becomes the letter 32 code points above it, its lower case; every other character unchanged |
| TextClean.KeepAllowed | modules/utils.py:40 | only word, whitespace and `'".,?@:/` characters remain; a text of allowed characters is unchanged |
| TextClean.KeepAllowedAppend | modules/utils.py:40 | the filter works character by character: filtering a concatenation concatenates the filtered parts |
| TextClean.KeepAllowedChar | modules/utils.py:40 | one character is kept iff it is allowed |
| TextClean.KeepAllowedChars | modules/utils.py:39-40 | lower-casing then filtering leaves only lower-case output characters |
| TextClean.Strip | modules/utils.py:41 | the result neither starts nor ends with whitespace |
| TextClean.SquashSpacesShape | modules/utils.py:41 | `SquashSpaces`: after `\s+` to one space, every whitespace is a single space; empty iff the input is, and it starts with whitespace iff the input does |
| TextClean.SquashSpacesChars | modules/utils.py:41 | squashing introduces no character outside the output alphabet |
| TextClean.SquashSpacesKeepsText | modules/utils.py:41 | squashing keeps every non-space character, in order |
| TextClean.StripShape | modules/utils.py:41 | stripping a single-spaced text leaves single spaces strictly between words |
| TextClean.StripKeepsText | modules/utils.py:41 | stripping keeps every non-space character, in order |
| TextClean.SquashSpacesAppend | modules/utils.py:41 | `SquashSpaces` of a concatenation whose first part does not end in whitespace squashes each part on its own |
| TextClean.SquashSpacesRun | modules/utils.py:41 | a whitespace run between a non-space end and a non-space start becomes exactly one space |
| TextClean.Words | modules/utils.py:41 | `str.split()`: the words are non-empty and contain no whitespace |
| TextClean.JoinWordsEnds | modules/utils.py:41 | `" ".join` of words is empty iff there are none and neither starts nor ends with whitespace |
| TextClean.NormalizeSpacesWords | modules/utils.py:41 | squashing whitespace runs and stripping equals `" ".join(text.split())` |
| TextClean.PrepareShape | modules/utils.py:39-41 | `Prepare`: the text before the date pass is normalized, keeps exactly the non-space characters of the filtered lower-cased input, and is the words of that input joined by single spaces |
| TextClean.PrepareIdentity | modules/utils.py:39-41 | a text already lower-case, filtered and collapsed is left unchanged |
| TextClean.MatchAt | modules/utils.py:42 | a match is a well-shaped `\d{1,2}/\d{1,2}/\d{4}` token that starts the text |
| TextClean.MatchToken | modules/utils.py:42 | any well-shaped token at the start of a text is matched in full, whatever follows |
| TextClean.FindDates | modules/utils.py:42 | every token `findall` returns is well shaped |
| TextClean.FindDatesToken | modules/utils.py:42 | a leading token is found first, and the search continues after it |
| TextClean.FindDatesSkip | modules/utils.py:42 | a leading non-digit is skipped |
| TextClean.DigitsValue | modules/utils.py:44 | writing a number with w zero-padded digits and reading it back gives the number |
| TextClean.Standardize | modules/utils.py:44 | succeeds iff the month is 1-12, the year at least 1 and the day exists in that month (leap years included); else ValueError naming the token; success is `DDDD-DD-DD` |
| TextClean.StandardizeRoundTrip | modules/utils.py:44 | the rewritten date reads back as the token's year, month and day |
| TextClean.ReplaceAllEnds | modules/utils.py:45 | `ReplaceAll` (`str.replace`): replacing a space-free pattern by a space-free text keeps emptiness and whether the text starts or ends with whitespace |
| TextClean.ReplaceAllSpacing | modules/utils.py:45 | such a replacement keeps a text single-spaced |
| TextClean.ReplaceAllChars | modules/utils.py:45 | replacing with output characters keeps the text within the output alphabet |
| TextClean.ReplaceDateKeepsNormalized | modules/utils.py:43-45 | replacing a date token by its rewrite keeps a normalized text normalized |
| TextClean.ReplaceEachDateFails | modules/utils.py:43-45 | `ReplaceEachDate`: the loop raises iff some found token is not a calendar date |
| TextClean.ReplaceEachDateKeepsNormalized | modules/utils.py:43-45 | a successful loop leaves a normalized text normalized |
| TextClean.ReplaceEachDateErrorKind | modules/utils.py:43-45 | the loop's only error is the invalid-date error |
| TextClean.ReplaceFoundDates | modules/utils.py:42-45 | the replace loop over the found dates computes the as-written replace sequence; when it succeeds the text is still normalized |
| TextClean.CleanTextSteps | modules/utils.py:38-46 | the method (three passes, then the loop over the dates) computes `CleanTextAsWritten`; raises iff some found date is invalid; otherwise the text is normalized |
| TextClean.CleanTextAsWrittenSpec | modules/utils.py:38-46 | `CleanTextAsWritten`, `clean_text` as written: a lower-case, filtered, single-spaced, trimmed text, or ValueError (invalid date) exactly when a found date is not a calendar date; without dates, the words of the filtered lower-cased text joined by single spaces |
| TextClean.RewriteDatesFails | modules/utils.py:42-45 | `RewriteDates`: the single-pass rewrite raises iff some found date is invalid, like the loop |
| TextClean.RewriteDatesEnds | modules/utils.py:42-45 | the rewrite keeps emptiness and leading/trailing whitespace |
| TextClean.RewriteDatesSpacing | modules/utils.py:42-45 | the rewrite keeps a text single-spaced |
| TextClean.RewriteDatesChars | modules/utils.py:42-45 | the rewrite keeps a text within the output alphabet |
| TextClean.RewriteDatesErrorKind | modules/utils.py:44 | the only error is the invalid-date error |
| TextClean.RewriteDatesToken | modules/utils.py:42-45 | a leading valid token is replaced by its own rewrite, then the rest is rewritten |
| TextClean.RewriteDatesKeeps | modules/utils.py:42-45 | a leading non-digit is kept |
| TextClean.RewriteDatesNoDates | modules/utils.py:42-45 | a text with no date token is returned unchanged |
| TextClean.CleanTextSpec | modules/utils.py:38-46 | `CleanText`, the corrected cleaner (one pass rewriting each date where it was found, unlike the replace loop of lines 43-45): a lower-case, filtered, single-spaced, trimmed text, or ValueError exactly when a found date is not a calendar date; without dates, the words of the filtered lower-cased text joined by single spaces |
| TextClean.FindTwoTokens | modules/utils.py:42 | two space-separated tokens are found as exactly those two tokens |
| TextClean.PrepareTwoTokens | modules/utils.py:39-41 | two space-separated tokens pass the normalization unchanged |
| TextClean.AsWrittenRewritesInsideLaterDate | modules/utils.py:42-45 | when the second date is a digit followed by the first, the loop rewrites the first date inside the second and never rewrites the second |
| TextClean.RewriteTwoTokens | modules/utils.py:42-45 | the single pass rewrites two space-separated valid dates each to its own rewrite |
| TextClean.CleanTextRewritesBothDates | modules/utils.py:38-46 | `clean_text` on two valid dates returns both rewritten |
| TextClean.StandardizeFirstDate | modules/utils.py:44 | `1/2/2020` rewrites to `2020-01-02` |
| TextClean.StandardizeSecondDate | modules/utils.py:44 | `11/2/2020` rewrites to `2020-11-02` |
| TextClean.TwoDatesWitness | modules/utils.py:42-45 | `1/2/2020 11/2/2020` is two valid dates, the second a digit followed by the first |
| DocumentLoading.LoaderFor | modules/utils.py:21-32 | a loader exists iff the extension is one of the ten in the table |
| DocumentLoading.AfterLastDot | modules/utils.py:49 | the text after the last dot: dot-free, a suffix, preceded by a dot unless there is none |
| DocumentLoading.Extension | modules/utils.py:49 | `"." + rsplit(".", 1)[-1]`: starts with its only dot; a suffix of a dotted path; the whole path behind a dot otherwise |
| DocumentLoading.ExtensionOfSuffix | modules/utils.py:49 | a path ending in a one-dot extension has exactly that extension |
| DocumentLoading.LoaderExtensionsWellFormed | modules/utils.py:21-32 | every table extension is a dot followed by dot-free text |
| DocumentLoading.CleanAll | modules/utils.py:55-56 | on success one cleaned text per page, each the cleaner's result |
| DocumentLoading.CleanAllFails | modules/utils.py:55-56 | cleaning fails iff some page fails to clean |
| DocumentLoading.CleanAllFirstError | modules/utils.py:55-56 | the error raised is the first failing page's |
| DocumentLoading.SingleDocumentOutcome | modules/utils.py:48-58 | `SingleDocument`: unknown extension raises Unsupported file extension; other non-pdf/html/txt files return the loader's pages unchanged; pdf/html/txt succeed iff every page cleans, each page replaced by its cleaned text, else the error of a failing page |
| DocumentLoading.SingleDocumentUnsupported | modules/utils.py:49-58 | an extension outside the loader table raises Unsupported file extension naming it |
| DocumentLoading.SingleDocumentVerbatim | modules/utils.py:50-57 | a supported file other than pdf/html/txt returns the loader's pages unchanged, with the path as source |
| DocumentLoading.CleanersRaiseOnlyInvalidDate | modules/utils.py:38-46 | both the as-written `clean_text` and the corrected one raise only the invalid-date error |
| DocumentLoading.CleanedErrors | modules/utils.py:54-56 | a pdf/html/txt file cleaned by such a cleaner raises only an invalid date |
| DocumentLoading.SingleDocumentErrors | modules/utils.py:48-58 | with a cleaner that raises only invalid dates (as both `clean_text` versions do), a supported file raises, of its own errors, only an invalid date, an unsupported one only Unsupported file extension (loader failures are not modelled) |
| DocumentLoading.SingleDocumentSources | modules/utils.py:48-57 | every loaded document carries the file's path as source |
| DocumentLoading.CleanDocuments | modules/utils.py:54-56 | the loop over the pages computes `CleanDocs` |
| DocumentLoading.LoadSingleDocument | modules/utils.py:48-58 | the method computes `SingleDocument` |
| DocumentLoading.Glob | modules/utils.py:66 | a path is listed iff it is in the listing and ends with the extension |
| DocumentLoading.FilesFor | modules/utils.py:63-67 | a path is collected iff it is in the listing and ends with some table extension |
| DocumentLoading.GlobAppend | modules/utils.py:66 | matches keep listing order: the matches of a concatenated listing are those of the first part, then those of the second |
| DocumentLoading.FilesForGrouped | modules/utils.py:63-67 | the collected files are those of the first extensions of the table followed by those of the rest |
| DocumentLoading.FilesForOrder | modules/utils.py:63-67 | a file matched by an earlier extension of the table is collected before a file matched by a later one |
| DocumentLoading.Selected | modules/utils.py:69-71 | a file is loaded iff it is collected and not ignored; no ignored list keeps every file |
| DocumentLoading.SelectedNothingIgnored | modules/utils.py:61-62 | an empty ignored list selects every file, like none |
| DocumentLoading.DocumentsNothingIgnored | modules/utils.py:60-62 | `load_documents` with no ignored list loads exactly what it loads with an empty one |
| DocumentLoading.LoadDocuments | modules/utils.py:60-74 | the glob loop and load loop compute `Documents` |
| DocumentLoading.LoadFiles | modules/utils.py:68-74 | the load loop skips ignored files and concatenates the rest's documents, stopping at the first error |
| DocumentLoading.AllFilesSupported | modules/utils.py:63-67 | every collected file is in the listing and has a table extension |
| DocumentLoading.LoadAllOutcome | modules/utils.py:68-74 | `LoadAll`: an error is some file's own error; every loaded document comes from one of the files |
| DocumentLoading.DocumentsSources | modules/utils.py:60-74 | `Documents`: every loaded document comes from a listed, non-ignored file with a supported extension; no ignored list loads every collected file |
| DocumentLoading.DocumentsErrors | modules/utils.py:60-74 | `Documents`: with a cleaner that raises only invalid dates, the only error of its own is an invalid date (loader failures are not modelled) |
| Ingestion.IndexGlobsDisjoint | modules/ingestion.py:35-36 | the `*.bin` and `*.pkl` globs share no file, so the combined count is the sum |
| Ingestion.VectorstoreExistsIff | modules/ingestion.py:31-39 | `DoesVectorstoreExist`: the store exists iff the index directory and both parquet files exist and there are at least four index files |
| Ingestion.VectorstoreExistsMonotone | modules/ingestion.py:31-39 | adding files never makes an existing store disappear |
| Ingestion.SplitDocuments | modules/ingestion.py:26-27 | every chunk is a piece of one input document and carries its source |
| Ingestion.ProcessDocuments | modules/ingestion.py:13-29 | the method computes `Processed` |
| Ingestion.ProcessedChunks | modules/ingestion.py:13-29 | `Processed`: every chunk comes from a listed, non-ignored, supported file (which text it was cut from is pinned by `ProcessedLineage`) |
| Ingestion.WindowChunks | modules/ingestion.py:27 | every window chunk is a 500/50 piece of the text of one input document and carries that document's source |
| Ingestion.ProcessedLineage | modules/ingestion.py:15-27 | every chunk was cut from the text of one loaded document and carries its source: by the 500/50 window alone, or, with an embedding model, by the window from one of that text's semantic pieces (semantic first, window last) |
| Ingestion.ProcessedNothingLoaded | modules/ingestion.py:15-18 | nothing loaded gives no chunks, whatever splitters are configured |
| Ingestion.ProcessedErrors | modules/ingestion.py:13-29 | with a cleaner that raises only invalid dates, processing raises, of its own errors, only an invalid date (loader and splitter failures are not modelled) |
| Ingestion.VectorStore.AddDocuments | modules/ingestion.py:53 | the chunks are appended; the persisted copy is unchanged |
| Ingestion.VectorStore.Persist | modules/ingestion.py:59 | the persisted copy becomes the current chunks |
| Ingestion.IgnoredFor | modules/ingestion.py:46-51 | an existing store ignores exactly the sources of its stored chunks; a new store ignores nothing |
| Ingestion.Ingest | modules/ingestion.py:41-60 | cleans with the as-written `clean_text`; processes with the stored sources ignored when the store exists; on success appends the chunks and persists; an error of its own is an invalid date and leaves the store untouched (oracle and store failures are not modelled) |
| Ingestion.IngestSkipsStoredSources | modules/ingestion.py:43-53 | on an existing store, no added chunk has the source of a stored chunk |
| Ingestion.NewStoreIgnoresNothing | modules/ingestion.py:54-58 | the new-store branch processes the same as ignoring an empty list |

## Left out

- Files, directories, the CSV reader and writer, and Chroma persistence are not modelled as I/O. The registry is a flag and a row list. The filesystem is a file listing (for `glob`) or a set of paths (for `os.path.exists`).
- Glob semantics are abstracted. Collecting files is a suffix test over the given listing, taken in listing order. `**` recursion, hidden-file rules and the walk order are not modelled.
- The oracles never fail. An exception from a loader (such as a `.txt` file that is not valid UTF-8), a splitter, the language model, the retriever, the cross-encoder or the store is not modelled. So `ConverseKeepsValid`, `SingleDocumentErrors`, `DocumentsErrors`, `ProcessedErrors` and `Ingest` cover only the errors the core raises itself.
- The registry file is written in the platform's default encoding and read as UTF-8; a row reads back as written only under a UTF-8 locale, which the model assumes.
- These are oracle parameters, and their internals are not modelled:
  - the language model, including its `<|eot_id|>` stop token;
  - the Chroma retriever, with its top-10 search;
  - the cross-encoder;
  - the document loaders;
  - the semantic and recursive-character splitters.
- Embedding-model construction (`OllamaEmbeddings`, `load_model`, `load_retriever`) is not modelled; a session names the model and bot id that select its oracles.
- `Chroma.from_documents` on a new store is modelled as appending to the collection at that directory, then persisting.
- Ingest: an empty batch is passed to the store like any other and appends nothing.
- `asyncio` and concurrent requests are not modelled; every call runs to completion alone.
- `print` output is not modelled.
- Character classes are ASCII. Python's Unicode `\w`, `\s`, `\d` and `str.lower` outside ASCII are not modelled.
- RenderTemplate: Jinja's indentation and blank lines are not modelled; the entries are joined with newlines.
- Standardize: years below 1000 are written with four zero-padded digits. The platform's `strftime('%Y')` may omit the leading zeros.
- `modules/bot.py` (the store directory per bot) is not part of this model; the retriever takes the bot id directly.
- `app.py` (the HTTP layer) and `write_file` are not part of this model.

## Findings

| source | as written | input that shows it | evidently intended | confidence | as-written member | corrected member |
|---|---|---|---|---|---|---|
| modules/utils.py:42-45 | each found date is replaced everywhere with `str.replace`, one after the other, so an earlier date that ends a later one is rewritten inside it and the later date is never found again | `clean_text("1/2/2020 11/2/2020")` returns `2020-01-02 12020-01-02` | each date rewritten where it was found: `2020-01-02 2020-11-02` | not executed | TextClean.AsWrittenRewritesInsideLaterDate | TextClean.CleanTextRewritesBothDates |
