/** The agent registry, `data/overview.csv` (modules/agent.py). The file is
    modelled by whether it exists and the rows it holds below its header, in
    file order. A row reads back as the agent that was written: the reader
    decodes UTF-8 while the writer uses the platform's default encoding, so
    this holds under a UTF-8 locale. */
module Registry {
  import opened Base

  /** `Agent`: one registry row. */
  datatype Agent = Agent(botId: string, name: string, description: string, starter: string, model: string)

  /** The index of the first row carrying `botId`, if any. */
  function FirstMatch(rows: seq<Agent>, botId: string): (r: Option<nat>)
    ensures r.Some? ==> r.value < |rows| && rows[r.value].botId == botId &&
                        forall j :: 0 <= j < r.value ==> rows[j].botId != botId
    ensures r.None? ==> forall j :: 0 <= j < |rows| ==> rows[j].botId != botId
  {
    if rows == [] then None
    else if rows[0].botId == botId then Some(0)
    else match FirstMatch(rows[1..], botId)
      case None => None
      case Some(k) => Some(k + 1)
  }

  class AgentRegistry {
    /** `os.path.exists(OVERVIEW_FILEPATH)`. */
    var present: bool
    /** The data rows of the file, in file order. */
    var rows: seq<Agent>

    constructor (present: bool, rows: seq<Agent>)
      ensures this.present == present && this.rows == rows
    {
      this.present := present;
      this.rows := rows;
    }

    /** `find_bot_by_id`: the first row whose `bot_id` matches, or `None`
        when the file is missing or no row matches. */
    method FindBotById(botId: string) returns (r: Option<Agent>)
      ensures r.Some? <==> present && exists i :: 0 <= i < |rows| && rows[i].botId == botId
      ensures r.Some? ==> exists i :: 0 <= i < |rows| && rows[i] == r.value && r.value.botId == botId &&
                            forall j :: 0 <= j < i ==> rows[j].botId != botId
      ensures r == Find(botId)
    {
      if !present {
        return None;
      }
      var i := 0;
      while i < |rows|
        invariant 0 <= i <= |rows|
        invariant forall j :: 0 <= j < i ==> rows[j].botId != botId
      {
        if rows[i].botId == botId {
          FirstMatchIs(rows, botId, i);
          return Some(rows[i]);
        }
        i := i + 1;
      }
      return None;
    }

    /** The value `find_bot_by_id` computes, for use in specifications. */
    function Find(botId: string): Option<Agent>
      reads this
    {
      if !present then None
      else match FirstMatch(rows, botId)
        case None => None
        case Some(i) => Some(rows[i])
    }

    /** `overview`: every row in file order, `[]` when the file is missing. */
    method Overview() returns (agents: seq<Agent>)
      ensures agents == if present then rows else []
    {
      agents := [];
      if !present {
        return;
      }
      for i := 0 to |rows|
        invariant agents == rows[..i]
      {
        agents := agents + [rows[i]];
      }
    }

    /** The CSV half of `create_agent`: append the agent's row. A missing
        file is created empty, so it then holds the header and that one row. */
    method Append(agent: Agent)
      modifies this
      ensures present
      ensures rows == (if old(present) then old(rows) else []) + [agent]
    {
      if !present {
        rows := [];
      }
      present := true;
      rows := rows + [agent];
    }
  }

  /** The first-match index is the position of the first row with the id. */
  lemma {:induction false} FirstMatchIs(rows: seq<Agent>, botId: string, i: nat)
    requires i < |rows| && rows[i].botId == botId
    requires forall j :: 0 <= j < i ==> rows[j].botId != botId
    ensures FirstMatch(rows, botId) == Some(i)
  {
  }

  /** After an agent's row is appended, looking its id up finds the earlier
      row with that id if there is one, and the new row otherwise. */
  lemma {:induction false} FirstMatchAfterAppend(rows: seq<Agent>, agent: Agent)
    ensures FirstMatch(rows + [agent], agent.botId) ==
              if FirstMatch(rows, agent.botId).Some? then FirstMatch(rows, agent.botId) else Some(|rows|)
    ensures forall id :: id != agent.botId ==> FirstMatch(rows + [agent], id) == FirstMatch(rows, id)
  {
    var all := rows + [agent];
    var before := FirstMatch(rows, agent.botId);
    if before.Some? {
      FirstMatchIs(all, agent.botId, before.value);
    } else {
      FirstMatchIs(all, agent.botId, |rows|);
    }
    forall id | id != agent.botId
      ensures FirstMatch(all, id) == FirstMatch(rows, id)
    {
      var earlier := FirstMatch(rows, id);
      if earlier.Some? {
        FirstMatchIs(all, id, earlier.value);
      }
    }
  }
}
