/** Failure-carrying datatypes shared by every module of the model, and the
    error kinds the modelled Python code raises. */
module Base {

  datatype Option<+T> = None | Some(value: T)

  /** The exceptions the core raises, one constructor per kind. */
  datatype Error =
    | BotNotFound(botId: string)            // ValueError from on_message
    | NoModelsFound(model: string)          // RuntimeError from Prompts / CustomTemplates
    | TemplateFailure                       // any failure raised while rendering the history
    | UnsupportedExtension(ext: string)     // ValueError from load_single_document
    | InvalidDate(token: string)            // ValueError from datetime.strptime in clean_text

  datatype Result<+T> = Ok(value: T) | Err(error: Error)

  /** A LangChain `Document`: its text and the `source` path in its metadata. */
  datatype Document = Document(pageContent: string, source: string)

  /** The `source` metadata of each document, in order. */
  function Sources(docs: seq<Document>): (r: seq<string>)
    ensures |r| == |docs|
    ensures forall i :: 0 <= i < |docs| ==> r[i] == docs[i].source
  {
    seq(|docs|, i requires 0 <= i < |docs| => docs[i].source)
  }

  /** The page contents of the documents, in order. */
  function Contents(docs: seq<Document>): (r: seq<string>)
    ensures |r| == |docs|
    ensures forall i :: 0 <= i < |docs| ==> r[i] == docs[i].pageContent
  {
    seq(|docs|, i requires 0 <= i < |docs| => docs[i].pageContent)
  }

  /** `s` starts with `prefix` (Python's str.startswith). */
  predicate StartsWith(s: string, prefix: string) {
    |prefix| <= |s| && s[..|prefix|] == prefix
  }

  /** `s` ends with `suffix` (Python's str.endswith). */
  predicate EndsWith(s: string, suffix: string) {
    |suffix| <= |s| && s[|s| - |suffix|..] == suffix
  }

  /** The strings joined with `sep` between them (Python's sep.join). */
  function Join(parts: seq<string>, sep: string): (r: string)
    ensures parts == [] ==> r == ""
    ensures |parts| == 1 ==> r == parts[0]
  {
    if parts == [] then ""
    else if |parts| == 1 then parts[0]
    else parts[0] + sep + Join(parts[1..], sep)
  }
}
