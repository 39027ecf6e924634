/** The llama3 prompt set and the history transcript renderer
    (modules/templates.py). The Jinja history template is a fold over the
    message list that either fails or emits one labelled entry per message;
    the prompt strings are `str.format` templates whose placeholders are
    modelled as holes. */
module Templates {
  import opened Base

  /** One history entry: `{"role": ..., "content": ...}`. */
  datatype Message = Message(role: string, content: string)

  const USER_ROLE := "user"
  const ASSISTANT_ROLE := "assistant"

  /** The only model name the template and prompt tables know. */
  const LLAMA3 := "llama3"

  /** The role that strict alternation demands at loop index `i`. */
  function ExpectedRole(i: nat): string {
    if i % 2 == 0 then USER_ROLE else ASSISTANT_ROLE
  }

  /** Every message has the role its position demands: the transcript starts
      with `user` and then strictly alternates. */
  predicate Alternating(messages: seq<Message>) {
    forall i :: 0 <= i < |messages| ==> messages[i].role == ExpectedRole(i)
  }

  /** The label the template prints in front of a message's content. */
  function Label(role: string): string {
    if role == USER_ROLE then "USER: " else "MACHINE: "
  }

  /** The template loop from index `i` on: at each message the alternation
      test runs first, then the role dispatch; either failing stops the
      rendering. On success the entries of messages `i..` in order. */
  function RenderFrom(messages: seq<Message>, i: nat): (r: Result<seq<string>>)
    requires i <= |messages|
    decreases |messages| - i
  {
    if i == |messages| then Ok([])
    else
      var m := messages[i];
      if (m.role == USER_ROLE) != (i % 2 == 0) then Err(TemplateFailure)
      else if m.role == USER_ROLE || m.role == ASSISTANT_ROLE then
        match RenderFrom(messages, i + 1)
        case Ok(rest) => Ok([Label(m.role) + m.content] + rest)
        case Err(e) => Err(e)
      else Err(TemplateFailure)
  }

  /** The whole history template: the entries, or the single failure outcome
      that both `raise_exception` calls produce. */
  function RenderHistory(messages: seq<Message>): Result<seq<string>> {
    RenderFrom(messages, 0)
  }

  lemma {:induction false} RenderFromSpec(messages: seq<Message>, i: nat)
    requires i <= |messages|
    ensures RenderFrom(messages, i).Ok? <==>
              forall j :: i <= j < |messages| ==> messages[j].role == ExpectedRole(j)
    ensures RenderFrom(messages, i).Ok? ==>
              var entries := RenderFrom(messages, i).value;
              |entries| == |messages| - i &&
              forall j :: i <= j < |messages| ==>
                entries[j - i] == Label(messages[j].role) + messages[j].content
    decreases |messages| - i
  {
    if i < |messages| {
      RenderFromSpec(messages, i + 1);
      var m := messages[i];
      var rest := RenderFrom(messages, i + 1);
      assert RenderFrom(messages, i).Ok? <==> m.role == ExpectedRole(i) && rest.Ok?;
      if RenderFrom(messages, i).Ok? {
        var entries := RenderFrom(messages, i).value;
        assert entries == [Label(m.role) + m.content] + rest.value;
        forall j | i < j < |messages|
          ensures entries[j - i] == Label(messages[j].role) + messages[j].content
        {
          assert entries[j - i] == rest.value[j - (i + 1)];
        }
      }
    }
  }

  /** Rendering succeeds exactly on strictly alternating transcripts that
      start with `user`. */
  lemma {:induction false} RenderOkIffAlternating(messages: seq<Message>)
    ensures RenderHistory(messages).Ok? <==> Alternating(messages)
  {
    RenderFromSpec(messages, 0);
  }

  /** A successful rendering has one entry per message, in order, each the
      role label followed by the verbatim content. */
  lemma {:induction false} RenderedEntries(messages: seq<Message>)
    requires RenderHistory(messages).Ok?
    ensures |RenderHistory(messages).value| == |messages|
    ensures forall j :: 0 <= j < |messages| ==>
              RenderHistory(messages).value[j] == Label(messages[j].role) + messages[j].content
  {
    RenderFromSpec(messages, 0);
  }

  /** Whenever `(role == 'user') != (index % 2 == 0)` somewhere, rendering fails. */
  lemma {:induction false} RenderFailsOnAlternationViolation(messages: seq<Message>, i: nat)
    requires i < |messages|
    requires (messages[i].role == USER_ROLE) != (i % 2 == 0)
    ensures RenderHistory(messages) == Err(TemplateFailure)
  {
    RenderFromSpec(messages, 0);
    RenderFromErr(messages, 0);
  }

  /** A role other than user/assistant anywhere makes rendering fail. */
  lemma {:induction false} RenderFailsOnUnknownRole(messages: seq<Message>, i: nat)
    requires i < |messages|
    requires messages[i].role != USER_ROLE && messages[i].role != ASSISTANT_ROLE
    ensures RenderHistory(messages) == Err(TemplateFailure)
  {
    RenderFromSpec(messages, 0);
    RenderFromErr(messages, 0);
  }

  /** The only failure the loop produces is the template failure. */
  lemma {:induction false} RenderFromErr(messages: seq<Message>, i: nat)
    requires i <= |messages|
    ensures RenderFrom(messages, i).Err? ==> RenderFrom(messages, i).error == TemplateFailure
    decreases |messages| - i
  {
    if i < |messages| {
      RenderFromErr(messages, i + 1);
    }
  }

  /** The history renderer bound to a model (`CustomTemplates`). */
  datatype CustomTemplates = CustomTemplates(active: nat)

  /** `CustomTemplates.__init__`: only `llama3` is known; any other name
      raises RuntimeError('No Models Found'). */
  function NewCustomTemplates(model: string): (r: Result<CustomTemplates>)
    ensures r.Ok? <==> model == LLAMA3
    ensures r.Ok? ==> r.value.active == 0
    ensures r.Err? ==> r.error == NoModelsFound(model)
  {
    if model == LLAMA3 then Ok(CustomTemplates(0)) else Err(NoModelsFound(model))
  }

  /** `render_template`: the rendered transcript (entries on their own lines),
      or the template failure. */
  function RenderTemplate(t: CustomTemplates, messages: seq<Message>): (r: Result<string>)
    ensures t.active == 0 ==> (r.Ok? <==> Alternating(messages))
  {
    RenderOkIffAlternating(messages);
    if t.active == 0 then
      match RenderHistory(messages)
      case Ok(entries) => Ok(Join(entries, "\n"))
      case Err(e) => Err(e)
    else Ok("")
  }

  /** A prompt template: literal text and `{name}` placeholders. */
  datatype Piece = Lit(text: string) | Hole(name: string)
  type PromptTemplate = seq<Piece>

  /** The placeholder names of a template. */
  function Placeholders(t: PromptTemplate): set<string> {
    if t == [] then {}
    else (if t[0].Hole? then {t[0].name} else {}) + Placeholders(t[1..])
  }

  /** `template.format(**args)`: every placeholder replaced by its argument,
      verbatim; extra arguments are ignored. */
  function Format(t: PromptTemplate, args: map<string, string>): string
    requires Placeholders(t) <= args.Keys
  {
    if t == [] then ""
    else
      (match t[0]
       case Lit(s) => s
       case Hole(n) => args[n])
      + Format(t[1..], args)
  }

  /** Each argument that fills a placeholder occurs verbatim in the formatted
      prompt. */
  lemma {:induction false} FormatContainsArgument(t: PromptTemplate, args: map<string, string>, name: string)
    requires Placeholders(t) <= args.Keys
    requires name in Placeholders(t)
    ensures exists before, after :: Format(t, args) == before + args[name] + after
  {
    var head := match t[0] case Lit(s) => s case Hole(n) => args[n];
    assert Format(t, args) == head + Format(t[1..], args);
    if t[0] == Hole(name) {
      assert Format(t, args) == "" + args[name] + Format(t[1..], args);
    } else {
      FormatContainsArgument(t[1..], args, name);
      var before, after :| Format(t[1..], args) == before + args[name] + after;
      assert Format(t, args) == (head + before) + args[name] + after;
    }
  }

  /** Arguments that no placeholder names do not change the prompt. */
  lemma {:induction false} FormatIgnoresUnusedArguments(t: PromptTemplate, args: map<string, string>, other: map<string, string>)
    requires Placeholders(t) <= args.Keys && Placeholders(t) <= other.Keys
    requires forall n :: n in Placeholders(t) ==> args[n] == other[n]
    ensures Format(t, args) == Format(t, other)
  {
    if t != [] {
      FormatIgnoresUnusedArguments(t[1..], args, other);
    }
  }

  /** The prompt set bound to a model (`Prompts`). */
  datatype Prompts = Prompts(
    active: nat,
    routeQuery: PromptTemplate,
    sortRelevancy: PromptTemplate,
    qaFromDocs: PromptTemplate,
    contextualizeInHistory: PromptTemplate,
    clarify: PromptTemplate)

  /** `Prompts.__init__`: the llama3 strings, or RuntimeError for any other
      model name. */
  function NewPrompts(model: string): (r: Result<Prompts>)
    ensures r.Ok? <==> model == LLAMA3
    ensures r.Err? ==> r.error == NoModelsFound(model)
    ensures r.Ok? ==>
      && Placeholders(r.value.routeQuery) == {"query"}
      && Placeholders(r.value.sortRelevancy) == {"context", "query"}
      && Placeholders(r.value.qaFromDocs) == {"context", "query"}
      && Placeholders(r.value.clarify) == {"context", "query"}
      && Placeholders(r.value.contextualizeInHistory) == {"chat_history", "query"}
  {
    if model == LLAMA3 then
      Ok(Prompts(0, LLAMA3_ROUTE_QUERY, LLAMA3_SORT_RELEVANCY, LLAMA3_QA_FROM_DOCS,
                 LLAMA3_CONTEXTUALIZE_IN_HISTORY, LLAMA3_CLARIFY))
    else Err(NoModelsFound(model))
  }

  const LLAMA3_ROUTE_QUERY: PromptTemplate := [
    Lit("<|begin_of_text|><|start_header_id|>system<|end_header_id|>\n    You help triage user request,     do NOT answer the question itself, do NOT explain yourself.     Given a text input, output either DOCS or DEFAULT, according to these definitions:\n\n    DOCS: if user is asking an ambiguous question that seems to require knowledge from some external documentation\n    DEFAULT: if user is just chit-chatting\n\n    Output ONE word answer: DOCS or DEFAULT, WITHOUT explanation. <|eot_id|><|start_header_id|>assistant<|end_header_id|>\n    Ok, what is your question <|eot_id|><|start_header_id|>user<|end_header_id|>\n    "),
    Hole("query"),
    Lit(" <|eot_id|><|start_header_id|>assistant<|end_header_id|>")]

  const LLAMA3_SORT_RELEVANCY: PromptTemplate := [
    Lit("<|begin_of_text|>\n    <|start_header_id|>system<|end_header_id|>    You help classify the relevancy of the context info to the question,     do NOT answer the question, do NOT explain yourself.     Given some documents, and a question from human, output either YES or NO, by the following definitions:\n\n    YES: if the documents CAN help you derive an answer for the question\n    NO: if the documents is NOT relevant to the question\n\n    Output ONE word answer: YES, or NO, WITHOUT explanation. <|eot_id|><|start_header_id|>assistant<|end_header_id|>\n    Ok, give me the documents <|eot_id|><|start_header_id|>user<|end_header_id|>\n    DOCUMENTS: "),
    Hole("context"),
    Lit(" <|eot_id|><|start_header_id|>assistant<|end_header_id|>\n    Ok, what is your question <|eot_id|><|start_header_id|>user<|end_header_id|>\n    "),
    Hole("query"),
    Lit(" <|eot_id|><|start_header_id|>assistant<|end_header_id|>")]

  const LLAMA3_QA_FROM_DOCS: PromptTemplate := [
    Lit("<|begin_of_text|><|start_header_id|>system<|end_header_id|>\n    You help answer humans\'s questions, only based on the given documents.     Given some documents, and a human question, output your answer. Keep it short. <|eot_id|><|start_header_id|>assistant<|end_header_id|>\n    Ok, give me the documents <|eot_id|><|start_header_id|>user<|end_header_id|>\n    DOCUMENTS: "),
    Hole("context"),
    Lit(" <|eot_id|><|start_header_id|>assistant<|end_header_id|>\n    Ok, what is your question <|eot_id|><|start_header_id|>user<|end_header_id|>\n    "),
    Hole("query"),
    Lit(" <|eot_id|><|start_header_id|>assistant<|end_header_id|>")]

  const LLAMA3_CONTEXTUALIZE_IN_HISTORY: PromptTemplate := [
    Lit("<|begin_of_text|><|start_header_id|>system<|end_header_id|>\n    Given a chat history and the most recent question, you help formulate the question into     a standalone question that can be understood without the chat history.     Do NOT answer the question, just reformulate it if needed and otherwise return it as is.     Output only that formulated question. <|eot_id|><|start_header_id|>assistant<|end_header_id|>\n    Ok, tell me the chat history. Use USER:, and MACHINE: to show whose turn it is in the history <|eot_id|><|start_header_id|>user<|end_header_id|>\n    CHAT HISTORY: "),
    Hole("chat_history"),
    Lit(" <|eot_id|><|start_header_id|>assistant<|end_header_id|>\n    Ok, what is your most recent question that needs formulated? <|eot_id|><|start_header_id|>user<|end_header_id|>\n    "),
    Hole("query"),
    Lit(" <|eot_id|><|start_header_id|>assistant<|end_header_id|>")]

  const LLAMA3_CLARIFY: PromptTemplate := [
    Lit("<|begin_of_text|><|start_header_id|>system<|end_header_id|>\n    You help gather more information.     Given some documents, and a human question, which is not directly relevant to the documents,     do NOT answer the question, but ask a clarification question, for users to elaborate on question question.     Tell the user that the question needs elaboration by ouputing one single clarification question.     <|eot_id|><|start_header_id|>assistant<|end_header_id|>\n    Ok, give me the documents <|eot_id|><|start_header_id|>user<|end_header_id|>\n    DOCUMENTS: "),
    Hole("context"),
    Lit(" <|eot_id|><|start_header_id|>assistant<|end_header_id|>\n    Ok, what is your question <|eot_id|><|start_header_id|>user<|end_header_id|>\n    "),
    Hole("query"),
    Lit(" <|eot_id|><|start_header_id|>assistant<|end_header_id|>")]
}
