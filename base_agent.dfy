/**
 * The agent contract shared by every agent (whereeatai/agents/base_agent.py):
 * the constructor's name and description, `get_info`, `validate_input`, and
 * the common shape of `execute` — check the required keys, read the optional
 * keys with their defaults, call the text generator once, and return a
 * success dictionary echoing chosen inputs plus the generated text.
 *
 * The generator (a chat-model call) is an oracle: a `Generator` maps the
 * prompt an agent builds to the text it returns or the fault it raises. A
 * prompt is represented by the agent that builds it and the field values
 * it substitutes into its template; the template wording is not modelled.
 */
module BaseAgent {
  import opened Values

  /** What one `generate` call yields. */
  datatype Reply = Generated(text: string) | Failed(fault: string)

  /** The values an agent substitutes into its prompt template. */
  datatype Prompt = Prompt(agent: string, fields: Dict)

  type Generator = Prompt -> Reply

  /**
   * One call of an agent's `execute`: the `generate` calls it made, in
   * order, and what it returned or raised.
   */
  datatype Call = Call(prompts: seq<Prompt>, outcome: Outcome)

  /**
   * What an agent is constructed with: its name and description and, for
   * the agents that announce themselves to the agent-to-agent protocol, an id.
   */
  datatype AgentInfo = AgentInfo(name: string, description: string, agentId: Option<string>)

  /** The text of the TypeError raised for an `agent_id` keyword. */
  const UnexpectedAgentId := "BaseAgent.__init__() got an unexpected keyword argument 'agent_id'"

  /**
   * `BaseAgent.__init__` as written: it takes only a name and a
   * description, so a subclass passing `agent_id=` raises a TypeError.
   */
  function InitAsWritten(name: string, description: string, agentId: Option<string>): (r: Result<AgentInfo>)
    ensures r.Ok? <==> agentId.None?
    ensures r.Ok? ==> r.value.name == name && r.value.description == description
    ensures r.Err? ==> r.error == UnexpectedAgentId
  {
    if agentId.Some? then Err(UnexpectedAgentId) else Ok(AgentInfo(name, description, None))
  }

  /**
   * `BaseAgent.__init__` accepting the optional `agent_id` its subclasses
   * pass: construction always succeeds and keeps all three values.
   */
  function Init(name: string, description: string, agentId: Option<string>): (a: AgentInfo)
    ensures GetInfo(a) == map["name" := Str(name), "description" := Str(description)]
    ensures a.agentId == agentId
  {
    AgentInfo(name, description, agentId)
  }

  /** `validate_input`: the loop with early return over the required fields. */
  function ValidateInput(input: Dict, required: seq<string>): (ok: bool)
    ensures ok <==> forall i :: 0 <= i < |required| ==> required[i] in input
    ensures ok <==> forall f :: f in required ==> f in input
  {
    if required == [] then true
    else if required[0] !in input then false
    else ValidateInput(input, required[1..])
  }

  /** An empty requirement list accepts every input. */
  lemma ValidateEmpty(input: Dict)
    ensures ValidateInput(input, [])
  {
  }

  /** Adding keys to the input never turns an accepted input into a rejected one. */
  lemma ValidateMonotone(input: Dict, larger: Dict, required: seq<string>)
    requires input.Keys <= larger.Keys
    ensures ValidateInput(input, required) ==> ValidateInput(larger, required)
  {
  }

  /** Only the set of required fields matters, not their order or repetition. */
  lemma ValidateSetOnly(input: Dict, a: seq<string>, b: seq<string>)
    requires forall f :: f in a <==> f in b
    ensures ValidateInput(input, a) == ValidateInput(input, b)
  {
    if ValidateInput(input, a) {
      forall i | 0 <= i < |b| ensures b[i] in input {
        assert b[i] in a;
      }
    } else {
      var i :| 0 <= i < |a| && a[i] !in input;
      assert a[i] in b;
    }
  }

  /** `get_info`: exactly the name and description given to the constructor. */
  function GetInfo(a: AgentInfo): (info: Dict)
    ensures info.Keys == {"name", "description"}
    ensures info["name"] == Str(a.name) && info["description"] == Str(a.description)
  {
    map["name" := Str(a.name), "description" := Str(a.description)]
  }

  /** The message of the recovered validation failure, which shows the whole required list. */
  function MissingFieldsMessage(required: seq<string>): string
  {
    "缺少必填字段：" + ListRepr(required)
  }

  function ErrorResult(message: string): Dict
  {
    map["status" := Str("error"), "message" := Str(message)]
  }

  function SuccessResult(message: string, data: Dict): Dict
  {
    map["status" := Str("success"), "message" := Str(message), "data" := Obj(data)]
  }

  /** The dictionary an agent call returned under "data", if it returned one. */
  function DataOf(c: Call): Dict
  {
    if c.outcome.Returned? && "data" in c.outcome.result && c.outcome.result["data"].Obj?
    then c.outcome.result["data"].fields
    else map[]
  }

  /** The recovered validation failure: no generate call, an error result naming the required list. */
  function Reject(required: seq<string>): (c: Call)
    ensures c.prompts == []
    ensures c.outcome == Returned(ErrorResult(MissingFieldsMessage(required)))
  {
    Call([], Returned(ErrorResult(MissingFieldsMessage(required))))
  }

  /** A fault raised while the prompt is rendered: no generate call. */
  function Abort(fault: string): (c: Call)
    ensures c.prompts == [] && c.outcome == Raised(fault)
  {
    Call([], Raised(fault))
  }

  /**
   * The rest of every agent's `execute`: one generate call with the prompt;
   * its fault propagates, its text is added to the data under `outputKey`.
   */
  function Respond(p: Prompt, gen: Generator, message: string, data: Dict, outputKey: string): (c: Call)
    ensures c.prompts == [p]
    ensures gen(p).Failed? ==> c.outcome == Raised(gen(p).fault)
    ensures gen(p).Generated? ==> c.outcome == Returned(SuccessResult(message, data[outputKey := Str(gen(p).text)]))
  {
    match gen(p)
    case Failed(m) => Call([p], Raised(m))
    case Generated(t) => Call([p], Returned(SuccessResult(message, data[outputKey := Str(t)])))
  }
}
