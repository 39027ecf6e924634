/** The per-agent message pipeline and its session cache (modules/agent.py).

    The language model, the retriever of a bot's vector store and the
    cross-encoder are oracles: `Llm` maps a model name and a prompt to the
    completion (cut at the `<|eot_id|>` stop token), `Retriever` maps a bot
    id and a search text to the documents its store returns, and `Scorer`
    scores one (query, passage) pair. A session records the model name and
    the bot id that select its oracles. */
module Agents {
  import opened Base
  import opened Templates
  import opened Rerank
  import opened Registry
  import TextClean

  type Llm = (string, string) -> string
  type Retriever = (string, string) -> seq<Document>

  /** How many history entries survive a normal turn (`history[-8:]`). */
  const HISTORY_LIMIT: nat := 8
  /** How many reranked documents become sources (`reranked_docs[:4]`). */
  const TOP_SOURCES: nat := 4

  const RETRIEVAL_PREFIX := "Represent this sentence for searching relevant passages: "
  const NO_DOCUMENTS :=
    "No relevant documents were found. Please ensure you've ingested documents or re-check your question."
  const NO_RERANKED_DOCUMENTS :=
    "No relevant documents after re-ranking. Please try rephrasing your question or upload additional documents."

  // ---------------------------------------------------------------------
  // Sessions

  /** One `session_cache` entry. The LLM and retriever entries are the
      oracles selected by `model` and `botId`; the reranker is the same
      cross-encoder for every bot. */
  datatype Session = Session(
    name: string,
    description: string,
    starter: string,
    model: string,
    botId: string,
    history: seq<Message>,
    prompts: Prompts,
    templates: CustomTemplates)

  /** The placeholders of each prompt are among the arguments the pipeline
      passes to its `format`. */
  predicate PromptsReady(p: Prompts) {
    && Placeholders(p.routeQuery) <= {"query"}
    && Placeholders(p.sortRelevancy) <= {"context", "query"}
    && Placeholders(p.qaFromDocs) <= {"context", "query"}
    && Placeholders(p.clarify) <= {"context", "query"}
    && Placeholders(p.contextualizeInHistory) <= {"chat_history", "query"}
  }

  /** What every cached session satisfies: llama3 prompts and renderer, and a
      history of whole user/assistant exchanges. */
  predicate SessionValid(s: Session) {
    && PromptsReady(s.prompts)
    && s.templates.active == 0
    && Alternating(s.history)
    && |s.history| % 2 == 0
  }

  /** The dictionary `load_agent` builds: `Prompts(agent.model)` is
      evaluated first and raises for any model other than llama3, so then no
      session is built. */
  function NewSession(agent: Agent): (r: Result<Session>)
    ensures r.Ok? <==> agent.model == LLAMA3
    ensures r.Err? ==> r.error == NoModelsFound(agent.model)
    ensures r.Ok? ==> SessionValid(r.value) && r.value.history == [] && r.value.botId == agent.botId &&
                      r.value.starter == agent.starter && r.value.model == agent.model
  {
    match NewPrompts(agent.model)
    case Err(e) => Err(e)
    case Ok(prompts) =>
      match NewCustomTemplates(agent.model)
      case Err(e) => Err(e)
      case Ok(templates) =>
        Ok(Session(agent.name, agent.description, agent.starter, agent.model, agent.botId, [], prompts, templates))
  }

  // ---------------------------------------------------------------------
  // One turn of `on_message`

  /** Which way a turn went. */
  datatype Path = Direct | NoDocuments | NoRerankedDocuments | Answered | Clarified

  /** `{"response": ..., "sources": ...}`. */
  datatype Reply = Reply(response: string, sources: seq<string>)

  /** The outcome of a turn: its path, the reply and the session's new history. */
  datatype Turn = Turn(path: Path, reply: Reply, history: seq<Message>)

  /** The two entries a turn appends. */
  function Exchange(query: string, answer: string): (r: seq<Message>)
    ensures |r| == 2 && r[0] == Message(USER_ROLE, query) && r[1] == Message(ASSISTANT_ROLE, answer)
  {
    [Message(USER_ROLE, query), Message(ASSISTANT_ROLE, answer)]
  }

  /** `history[-n:]`: the last `n` entries, or all of them when there are fewer. */
  function Last(history: seq<Message>, n: nat): (r: seq<Message>)
    ensures |r| == if |history| < n then |history| else n
    ensures forall i :: 0 <= i < |r| ==> r[i] == history[|history| - |r| + i]
  {
    if |history| <= n then history else history[|history| - n..]
  }

  /** `[doc[0] for doc in reranked_docs[:4]]`. */
  function TopDocuments(reranked: seq<Candidate>): (r: seq<Document>)
    ensures |r| == if |reranked| < TOP_SOURCES then |reranked| else TOP_SOURCES
    ensures forall i :: 0 <= i < |r| ==> r[i] == reranked[i].doc
  {
    var n := if |reranked| < TOP_SOURCES then |reranked| else TOP_SOURCES;
    seq(n, i requires 0 <= i < n => reranked[i].doc)
  }

  /** `output.strip().startswith(word)`. */
  predicate Says(output: string, word: string) {
    StartsWith(TextClean.Strip(output), word)
  }

  /** The message the pipeline works with: the user's message, or, when
      there is history, the model's standalone rewrite of it given the
      rendered history. A rendering failure is raised. */
  function Contextualized(s: Session, content: string, llm: Llm): (r: Result<string>)
    requires PromptsReady(s.prompts)
    ensures |s.history| == 0 ==> r == Ok(content)
    ensures r.Err? <==> |s.history| > 0 && RenderTemplate(s.templates, s.history).Err?
    ensures s.templates.active == 0 ==> (r.Err? <==> |s.history| > 0 && !Alternating(s.history))
  {
    if |s.history| > 0 then
      match RenderTemplate(s.templates, s.history)
      case Err(e) => Err(e)
      case Ok(rendered) =>
        Ok(llm(s.model, Format(s.prompts.contextualizeInHistory, map["chat_history" := rendered, "query" := content])))
    else Ok(content)
  }

  /** The rest of the turn once the working message `query` is known. */
  function Respond(s: Session, query: string, llm: Llm, retrieve: Retriever, score: Scorer): Turn
    requires PromptsReady(s.prompts)
  {
    var route := llm(s.model, Format(s.prompts.routeQuery, map["query" := query]));
    if !Says(route, "DOCS") then
      var answer := llm(s.model, query);
      Turn(Direct, Reply(answer, []), Last(s.history + Exchange(query, answer), HISTORY_LIMIT))
    else
      var retrieved := retrieve(s.botId, RETRIEVAL_PREFIX + query);
      if retrieved == [] then
        Turn(NoDocuments, Reply(NO_DOCUMENTS, []), s.history + Exchange(query, NO_DOCUMENTS))
      else
        var reranked := RerankDocs(query, retrieved, score);
        if reranked == [] then
          Turn(NoRerankedDocuments, Reply(NO_RERANKED_DOCUMENTS, []), s.history + Exchange(query, NO_RERANKED_DOCUMENTS))
        else
          var top := TopDocuments(reranked);
          var args := map["context" := Join(Contents(top), "\n"), "query" := query];
          var relevancy := llm(s.model, Format(s.prompts.sortRelevancy, args));
          var path := if Says(relevancy, "YES") then Answered else Clarified;
          var answer := llm(s.model, Format(if path == Answered then s.prompts.qaFromDocs else s.prompts.clarify, args));
          Turn(path, Reply(answer, Contents(top)), Last(s.history + Exchange(query, answer), HISTORY_LIMIT))
  }

  /** What one `on_message` turn on a loaded session returns or raises. */
  function Converse(s: Session, content: string, llm: Llm, retrieve: Retriever, score: Scorer): (r: Result<Turn>)
    requires PromptsReady(s.prompts)
    ensures r.Err? ==> |s.history| > 0 && RenderTemplate(s.templates, s.history).Err? &&
                       r.error == RenderTemplate(s.templates, s.history).error
    ensures s.templates.active == 0 ==> (r.Err? <==> |s.history| > 0 && !Alternating(s.history))
    ensures |s.history| == 0 ==> r == Ok(Respond(s, content, llm, retrieve, score))
  {
    match Contextualized(s, content, llm)
    case Err(e) => Err(e)
    case Ok(query) => Ok(Respond(s, query, llm, retrieve, score))
  }

  // ---------------------------------------------------------------------
  // Properties of a turn

  /** On a valid session a turn never fails, and the session stays valid:
      the history is still whole alternating exchanges. */
  lemma {:induction false} ConverseKeepsValid(s: Session, content: string, llm: Llm, retrieve: Retriever, score: Scorer)
    requires SessionValid(s)
    ensures Converse(s, content, llm, retrieve, score).Ok?
    ensures SessionValid(s.(history := Converse(s, content, llm, retrieve, score).value.history))
  {
    RenderOkIffAlternating(s.history);
    var query := Contextualized(s, content, llm).value;
    var t := Respond(s, query, llm, retrieve, score);
    var grown := s.history + Exchange(query, t.reply.response);
    AppendExchangeAlternating(s.history, query, t.reply.response);
    if t.path != NoDocuments && t.path != NoRerankedDocuments {
      LastAlternating(grown, HISTORY_LIMIT);
    }
  }

  lemma {:induction false} AppendExchangeAlternating(history: seq<Message>, query: string, answer: string)
    requires Alternating(history) && |history| % 2 == 0
    ensures Alternating(history + Exchange(query, answer))
    ensures |history + Exchange(query, answer)| % 2 == 0
  {
    var grown := history + Exchange(query, answer);
    forall i | 0 <= i < |grown|
      ensures grown[i].role == ExpectedRole(i)
    {
      if i >= |history| {
        assert i % 2 == (i - |history|) % 2;
      }
    }
  }

  /** Dropping an even number of entries from the front keeps alternation. */
  lemma {:induction false} LastAlternating(history: seq<Message>, n: nat)
    requires Alternating(history) && |history| % 2 == 0 && n % 2 == 0
    ensures Alternating(Last(history, n)) && |Last(history, n)| % 2 == 0
  {
    var r := Last(history, n);
    forall i | 0 <= i < |r|
      ensures r[i].role == ExpectedRole(i)
    {
      assert (|history| - |r| + i) % 2 == i % 2;
    }
  }

  /** The "no documents after re-ranking" branch is dead: a non-empty
      retrieval reranks to a non-empty list. */
  lemma {:induction false} NoRerankedBranchDead(s: Session, query: string, llm: Llm, retrieve: Retriever, score: Scorer)
    requires PromptsReady(s.prompts)
    ensures Respond(s, query, llm, retrieve, score).path != NoRerankedDocuments
  {
    var retrieved := retrieve(s.botId, RETRIEVAL_PREFIX + query);
    if retrieved != [] {
      RerankNonEmpty(query, retrieved, score);
    }
  }

  /** Only a route output that starts with `DOCS` (after stripping) leads to
      retrieval. Any other output answers the working message directly with
      no sources, and the retriever and cross-encoder are never consulted. */
  lemma {:induction false} DirectRoute(s: Session, query: string, llm: Llm, retrieve: Retriever, score: Scorer,
                    retrieve': Retriever, score': Scorer)
    requires PromptsReady(s.prompts)
    requires !Says(llm(s.model, Format(s.prompts.routeQuery, map["query" := query])), "DOCS")
    ensures var t := Respond(s, query, llm, retrieve, score);
      && t.path == Direct
      && t.reply == Reply(llm(s.model, query), [])
      && t == Respond(s, query, llm, retrieve', score')
  {
  }

  /** Contextualization runs only when there is history: on an empty
      history the working message is the user's message verbatim. */
  lemma {:induction false} ContextualizeOnlyWithHistory(s: Session, content: string, llm: Llm, llm': Llm)
    requires PromptsReady(s.prompts)
    requires s.history == []
    ensures Contextualized(s, content, llm) == Ok(content)
    ensures Contextualized(s, content, llm) == Contextualized(s, content, llm')
  {
  }

  /** With history that renders, the working message is the model's answer to
      the contextualize prompt, in which the rendered transcript and the
      user's message both occur verbatim (the llama3 prompt has exactly those
      two placeholders). */
  lemma {:induction false} ContextualizedAsksWithHistory(s: Session, content: string, llm: Llm)
    requires PromptsReady(s.prompts)
    requires Placeholders(s.prompts.contextualizeInHistory) == {"chat_history", "query"}
    requires |s.history| > 0 && RenderTemplate(s.templates, s.history).Ok?
    ensures exists p, b1, a1, b2, a2 ::
              && Contextualized(s, content, llm) == Ok(llm(s.model, p))
              && p == b1 + RenderTemplate(s.templates, s.history).value + a1
              && p == b2 + content + a2
  {
    var rendered := RenderTemplate(s.templates, s.history).value;
    var args := map["chat_history" := rendered, "query" := content];
    var p := Format(s.prompts.contextualizeInHistory, args);
    assert Contextualized(s, content, llm) == Ok(llm(s.model, p));
    FormatContainsArgument(s.prompts.contextualizeInHistory, args, "chat_history");
    FormatContainsArgument(s.prompts.contextualizeInHistory, args, "query");
    var b1, a1 :| p == b1 + args["chat_history"] + a1;
    var b2, a2 :| p == b2 + args["query"] + a2;
    assert p == b1 + rendered + a1 && p == b2 + content + a2;
  }

  /** On the retrieval path with `n > 0` documents, the sources are the page
      contents of the first `min(4, n)` reranked documents, highest score
      first, whichever of the answer and clarify prompts the relevancy
      output selects; every source is the content of a retrieved document. */
  lemma {:induction false} RetrievalSources(s: Session, query: string, llm: Llm, retrieve: Retriever, score: Scorer)
    requires PromptsReady(s.prompts)
    requires Says(llm(s.model, Format(s.prompts.routeQuery, map["query" := query])), "DOCS")
    requires retrieve(s.botId, RETRIEVAL_PREFIX + query) != []
    ensures var retrieved := retrieve(s.botId, RETRIEVAL_PREFIX + query);
      var reranked := RerankDocs(query, retrieved, score);
      var t := Respond(s, query, llm, retrieve, score);
      && (t.path == Answered || t.path == Clarified)
      && |t.reply.sources| == (if |retrieved| < TOP_SOURCES then |retrieved| else TOP_SOURCES)
      && (forall i :: 0 <= i < |t.reply.sources| ==> t.reply.sources[i] == reranked[i].doc.pageContent)
      && (forall i, j :: 0 <= i < j < |t.reply.sources| ==> reranked[i].score >= reranked[j].score)
      && (forall src :: src in t.reply.sources ==> exists d :: d in retrieved && d.pageContent == src)
  {
    var retrieved := retrieve(s.botId, RETRIEVAL_PREFIX + query);
    var reranked := RerankDocs(query, retrieved, score);
    RerankNonEmpty(query, retrieved, score);
    RerankKeepsDocuments(query, retrieved, score);
    var t := Respond(s, query, llm, retrieve, score);
    forall src | src in t.reply.sources
      ensures exists d :: d in retrieved && d.pageContent == src
    {
      var i :| 0 <= i < |t.reply.sources| && t.reply.sources[i] == src;
      assert reranked[i] in reranked;
    }
  }

  /** The route output alone decides between a direct answer and the
      documents; only an empty retrieval gives the no-documents answer; and
      a turn has sources exactly when it answered from the documents or asked
      for clarification. */
  lemma {:induction false} RespondPaths(s: Session, query: string, llm: Llm, retrieve: Retriever, score: Scorer)
    requires PromptsReady(s.prompts)
    ensures var route := llm(s.model, Format(s.prompts.routeQuery, map["query" := query]));
      var t := Respond(s, query, llm, retrieve, score);
      && (t.path == Direct <==> !Says(route, "DOCS"))
      && (t.path == NoDocuments <==> Says(route, "DOCS") && retrieve(s.botId, RETRIEVAL_PREFIX + query) == [])
      && (t.reply.sources == [] <==> t.path == Direct || t.path == NoDocuments || t.path == NoRerankedDocuments)
  {
    var t := Respond(s, query, llm, retrieve, score);
    if t.path == Answered || t.path == Clarified {
      assert t.reply.sources != [];
    }
  }

  /** Past a non-empty retrieval, the relevancy output decides: a `YES`
      (after stripping) answers from the documents, anything else asks for
      clarification; either prompt gets the joined page contents of the top
      documents and the working message, and the history is trimmed to 8. */
  lemma {:induction false} RelevancyGate(s: Session, query: string, llm: Llm, retrieve: Retriever, score: Scorer)
    requires PromptsReady(s.prompts)
    requires Says(llm(s.model, Format(s.prompts.routeQuery, map["query" := query])), "DOCS")
    requires retrieve(s.botId, RETRIEVAL_PREFIX + query) != []
    ensures var top := TopDocuments(RerankDocs(query, retrieve(s.botId, RETRIEVAL_PREFIX + query), score));
      var args := map["context" := Join(Contents(top), "\n"), "query" := query];
      var relevancy := llm(s.model, Format(s.prompts.sortRelevancy, args));
      var t := Respond(s, query, llm, retrieve, score);
      && (t.path == Answered <==> Says(relevancy, "YES"))
      && (t.path == Clarified <==> !Says(relevancy, "YES"))
      && t.reply.response == llm(s.model, Format(if Says(relevancy, "YES") then s.prompts.qaFromDocs else s.prompts.clarify, args))
      && t.history == Last(s.history + Exchange(query, t.reply.response), HISTORY_LIMIT)
  {
    RerankNonEmpty(query, retrieve(s.botId, RETRIEVAL_PREFIX + query), score);
  }

  /** History after a turn: the exchange (working message, answer) is always
      appended last. A normal turn keeps the last 8 entries; the empty
      retrieval short-circuit keeps everything, so there the history grows
      past 8. */
  lemma {:induction false} TurnHistory(s: Session, query: string, llm: Llm, retrieve: Retriever, score: Scorer)
    requires PromptsReady(s.prompts)
    ensures var t := Respond(s, query, llm, retrieve, score);
      && (t.path == NoDocuments || t.path == NoRerankedDocuments ==>
            t.history == s.history + Exchange(query, t.reply.response))
      && (t.path != NoDocuments && t.path != NoRerankedDocuments ==>
            t.history == Last(s.history + Exchange(query, t.reply.response), HISTORY_LIMIT) &&
            |t.history| <= HISTORY_LIMIT)
      && |t.history| >= 2
      && t.history[|t.history| - 2..] == Exchange(query, t.reply.response)
  {
    var t := Respond(s, query, llm, retrieve, score);
    var grown := s.history + Exchange(query, t.reply.response);
    assert grown[|grown| - 2..] == Exchange(query, t.reply.response);
  }

  /** The short-circuit really does exceed the bound: a full history of 8
      entries becomes 10. */
  lemma {:induction false} ShortCircuitExceedsLimit(s: Session, query: string, llm: Llm, retrieve: Retriever, score: Scorer)
    requires PromptsReady(s.prompts)
    requires |s.history| == HISTORY_LIMIT
    requires Says(llm(s.model, Format(s.prompts.routeQuery, map["query" := query])), "DOCS")
    requires retrieve(s.botId, RETRIEVAL_PREFIX + query) == []
    ensures Respond(s, query, llm, retrieve, score).path == NoDocuments
    ensures |Respond(s, query, llm, retrieve, score).history| == HISTORY_LIMIT + 2
    ensures Respond(s, query, llm, retrieve, score).reply == Reply(NO_DOCUMENTS, [])
  {
  }

  // ---------------------------------------------------------------------
  // The session cache

  /** Clearing a valid session's history keeps it valid. */
  lemma {:induction false} ClearedStaysValid(s: Session)
    requires SessionValid(s)
    ensures SessionValid(s.(history := []))
  {
  }

  /** `session_cache`: bot id to session. */
  class SessionCache {
    var sessions: map<string, Session>

    constructor ()
      ensures sessions == map[]
    {
      sessions := map[];
    }

    /** Every cached session is valid and is filed under its own bot id. */
    ghost predicate Valid()
      reads this
    {
      forall id :: id in sessions ==> SessionValid(sessions[id]) && sessions[id].botId == id
    }

    /** `load_agent`: build the session and store it under the agent's id,
        replacing any session already there (so its history is reset). */
    method LoadAgent(agent: Agent) returns (r: Result<()>)
      requires Valid()
      modifies this
      ensures Valid()
      ensures NewSession(agent).Err? ==> r == Err(NewSession(agent).error) && sessions == old(sessions)
      ensures NewSession(agent).Ok? ==> r == Ok(()) && sessions == old(sessions)[agent.botId := NewSession(agent).value]
    {
      var prompts := NewPrompts(agent.model);
      if prompts.Err? {
        return Err(prompts.error);
      }
      var templates := NewCustomTemplates(agent.model);
      assert templates.Ok?;
      var session := Session(agent.name, agent.description, agent.starter, agent.model,
                             agent.botId, [], prompts.value, templates.value);
      assert NewSession(agent) == Ok(session);
      sessions := sessions[agent.botId := session];
      r := Ok(());
    }

    /** `create_agent`: load the agent, then append its row to the registry.
        When loading raises, neither the cache nor the registry changes. */
    method CreateAgent(agent: Agent, registry: AgentRegistry) returns (r: Result<()>)
      requires Valid()
      modifies this, registry
      ensures Valid()
      ensures r.Ok? <==> agent.model == LLAMA3
      ensures r.Err? ==> r.error == NoModelsFound(agent.model) && sessions == old(sessions) &&
                         registry.present == old(registry.present) && registry.rows == old(registry.rows)
      ensures r.Ok? ==> sessions == old(sessions)[agent.botId := NewSession(agent).value] &&
                        sessions[agent.botId].history == [] &&
                        registry.present &&
                        registry.rows == (if old(registry.present) then old(registry.rows) else []) + [agent]
    {
      r := LoadAgent(agent);
      if r.Err? {
        return;
      }
      registry.Append(agent);
    }

    /** `preview_agent`: load the agent when its id is not cached (a cached
        session is kept, starter and all), clear the history and return the
        cached starter. */
    method PreviewAgent(agent: Agent) returns (r: Result<string>)
      requires Valid()
      modifies this
      ensures Valid()
      ensures r == Preview(old(sessions), agent).0
      ensures sessions == Preview(old(sessions), agent).1
    {
      if agent.botId !in sessions {
        var loaded := LoadAgent(agent);
        if loaded.Err? {
          return Err(loaded.error);
        }
      }
      var session := sessions[agent.botId];
      assert Preview(old(sessions), agent) == (Ok(session.starter), old(sessions)[agent.botId := session.(history := [])]);
      ClearedStaysValid(session);
      sessions := sessions[agent.botId := session.(history := [])];
      assert sessions == old(sessions)[agent.botId := session.(history := [])];
      r := Ok(session.starter);
    }

    /** `on_message`: load the bot from the registry when it is not cached
        (an unknown id raises ValueError and changes nothing), run one turn
        and store the new history. */
    method OnMessage(botId: string, content: string, registry: AgentRegistry,
                     llm: Llm, retrieve: Retriever, score: Scorer)
      returns (r: Result<Reply>)
      requires Valid()
      modifies this
      ensures Valid()
      ensures var p := Prepared(old(sessions), botId, registry.Find(botId));
        && (p.Err? ==> r == Err(p.error) && sessions == old(sessions))
        && (p.Ok? ==>
              && Converse(p.value, content, llm, retrieve, score).Ok?
              && var t := Converse(p.value, content, llm, retrieve, score).value;
                 r == Ok(t.reply) && sessions == old(sessions)[botId := p.value.(history := t.history)])
    {
      var prepared := LoadSession(botId, registry);
      if prepared.Err? {
        return Err(prepared.error);
      }
      var session := prepared.value;
      var turn := RunTurn(session, content, llm, retrieve, score);
      ConverseKeepsValid(session, content, llm, retrieve, score);
      assert session.botId == botId;
      ghost var before := sessions;
      sessions := sessions[botId := session.(history := turn.history)];
      assert before == old(sessions)[botId := session];
      assert sessions == old(sessions)[botId := session.(history := turn.history)];
      r := Ok(turn.reply);
    }

    /** The start of `on_message`: the cached session, or the registry row
        loaded into the cache; an unknown id raises ValueError. */
    method LoadSession(botId: string, registry: AgentRegistry) returns (r: Result<Session>)
      requires Valid()
      modifies this
      ensures Valid()
      ensures r == Prepared(old(sessions), botId, registry.Find(botId))
      ensures r.Err? ==> sessions == old(sessions)
      ensures r.Ok? ==> sessions == old(sessions)[botId := r.value] && SessionValid(r.value)
    {
      if botId !in sessions {
        var agent := registry.FindBotById(botId);
        if agent.None? {
          return Err(BotNotFound(botId));
        }
        var loaded := LoadAgent(agent.value);
        if loaded.Err? {
          return Err(loaded.error);
        }
      }
      r := Ok(sessions[botId]);
    }
  }

  /** The body of `on_message` after the session is loaded: contextualize,
      route, retrieve, rerank, check relevancy and answer, then track the
      conversation. The history list is extended in place; only the normal
      path trims it to the last 8 entries. */
  method RunTurn(session: Session, content: string, llm: Llm, retrieve: Retriever, score: Scorer)
    returns (turn: Turn)
    requires SessionValid(session)
    ensures Converse(session, content, llm, retrieve, score) == Ok(turn)
  {
    var history := session.history;

    // Contextualize if there is prior chat.
    var query := content;
    if |history| > 0 {
      RenderOkIffAlternating(history);
      var rendered := RenderTemplate(session.templates, history);
      query := llm(session.model, Format(session.prompts.contextualizeInHistory,
                                         map["chat_history" := rendered.value, "query" := content]));
    }
    assert Contextualized(session, content, llm) == Ok(query);

    var path: Path;
    var answer: string;
    var sources: seq<string> := [];
    var route := llm(session.model, Format(session.prompts.routeQuery, map["query" := query]));
    if Says(route, "DOCS") {
      var retrieved := retrieve(session.botId, RETRIEVAL_PREFIX + query);
      if retrieved == [] {
        history := history + Exchange(query, NO_DOCUMENTS);
        return Turn(NoDocuments, Reply(NO_DOCUMENTS, []), history);
      }
      var reranked := RerankDocs(query, retrieved, score);
      if reranked == [] {
        history := history + Exchange(query, NO_RERANKED_DOCUMENTS);
        return Turn(NoRerankedDocuments, Reply(NO_RERANKED_DOCUMENTS, []), history);
      }
      var top := TopDocuments(reranked);
      var args := map["context" := Join(Contents(top), "\n"), "query" := query];
      var relevancy := llm(session.model, Format(session.prompts.sortRelevancy, args));
      if Says(relevancy, "YES") {
        path := Answered;
        answer := llm(session.model, Format(session.prompts.qaFromDocs, args));
      } else {
        path := Clarified;
        answer := llm(session.model, Format(session.prompts.clarify, args));
      }
      sources := Contents(top);
    } else {
      path := Direct;
      answer := llm(session.model, query);
    }

    // Track the conversation, keeping the last 8 entries.
    history := history + Exchange(query, answer);
    turn := Turn(path, Reply(answer, sources), Last(history, HISTORY_LIMIT));
  }

  /** The session `on_message` works on: the cached one, or the one built
      from the registry row found for the id; an id in neither raises. */
  function Prepared(sessions: map<string, Session>, botId: string, found: Option<Agent>): Result<Session> {
    if botId in sessions then Ok(sessions[botId])
    else match found
      case None => Err(BotNotFound(botId))
      case Some(agent) => NewSession(agent)
  }

  /** What `preview_agent` returns and the cache it leaves. */
  function Preview(sessions: map<string, Session>, agent: Agent): (Result<string>, map<string, Session>) {
    var cached := if agent.botId in sessions then Ok(sessions[agent.botId]) else NewSession(agent);
    match cached
    case Err(e) => (Err(e), sessions)
    case Ok(s) => (Ok(s.starter), sessions[agent.botId := s.(history := [])])
  }

  /** Previewing twice returns the same starter and leaves the same cache as
      previewing once. */
  lemma {:induction false} PreviewIdempotent(sessions: map<string, Session>, agent: Agent)
    ensures var (r1, after1) := Preview(sessions, agent);
      var (r2, after2) := Preview(after1, agent);
      r2 == r1 && after2 == after1
  {
  }

  /** A successful preview leaves the agent's session with an empty
      history; a failed one changes nothing. */
  lemma {:induction false} PreviewResetsHistory(sessions: map<string, Session>, agent: Agent)
    ensures var (r, after) := Preview(sessions, agent);
      && (r.Ok? ==> agent.botId in after && after[agent.botId].history == [])
      && (r.Err? ==> after == sessions && agent.botId !in sessions && agent.model != LLAMA3)
  {
  }

  /** `on_message` for an id that is neither cached nor registered raises
      ValueError. */
  lemma {:induction false} UnknownBotRejected(sessions: map<string, Session>, botId: string)
    requires botId !in sessions
    ensures Prepared(sessions, botId, None) == Err(BotNotFound(botId))
  {
  }
}
