/** The shapes exchanged with the completion service: tool calls, replies,
    history messages, tool schemas and the requests themselves. */
module Protocol {
  import opened Json

  /** One requested invocation: its correlation id, the tool name and the
      argument text, still undecoded. */
  datatype ToolCall = ToolCall(id: string, name: string, arguments: string)

  /** The assistant message of a completion reply. `toolCalls == []` stands for
      both an absent and an empty `tool_calls` field: the turn driver treats the
      two alike. */
  datatype Completion = Completion(content: Option<string>, toolCalls: seq<ToolCall>)

  /** One entry of the conversation history. */
  datatype Message =
    | System(content: string)
    | User(content: string)
    | Assistant(reply: Completion)
    | ToolResult(toolCallId: string, name: string, content: string)

  /** Primitive types a schema may declare for a parameter. */
  datatype ParamType = StringType | NumberType

  /** One property of a tool's parameter object. */
  datatype Param = Param(
    name: string,
    kind: ParamType,
    description: string,
    choices: Option<seq<string>>,
    default: Option<Value>)

  /** The `function` part of a tool declaration offered to the service. */
  datatype ToolSchema = ToolSchema(
    name: string,
    description: string,
    params: seq<Param>,
    required: seq<string>)

  /** The declared parameter called `name`, the first one if there are several. */
  function ParamNamed(params: seq<Param>, name: string): (p: Option<Param>)
    ensures p.Some? ==> p.value in params && p.value.name == name
    ensures p.None? ==> forall i :: 0 <= i < |params| ==> params[i].name != name
  {
    if params == [] then None
    else if params[0].name == name then Some(params[0])
    else ParamNamed(params[1..], name)
  }

  /** The lookup returns the first parameter with the name asked for. */
  lemma {:induction false} ParamNamedFirst(params: seq<Param>, name: string, i: nat)
    requires i < |params| && params[i].name == name
    requires forall h :: 0 <= h < i ==> params[h].name != name
    ensures ParamNamed(params, name) == Some(params[i])
    decreases i
  {
    if i > 0 {
      ParamNamedFirst(params[1..], name, i - 1);
    }
  }

  /** A schema is a precise contract when its parameter names are distinct,
      every required name is declared, and every declared default is a string
      among the declared choices, if there are any. */
  predicate WellFormed(s: ToolSchema) {
    && (forall i, j :: 0 <= i < j < |s.params| ==> s.params[i].name != s.params[j].name)
    && (forall r :: r in s.required ==> ParamNamed(s.params, r).Some?)
    && (forall p :: p in s.params && p.choices.Some? && p.default.Some? ==>
          p.default.value.VString? && p.default.value.s in p.choices.value)
  }

  /** One call to the completion service. Generation settings the call does
      not pass are `None`; a request without tools has `tools == []`. */
  datatype Request = Request(
    model: string,
    messages: seq<Message>,
    temperature: Option<real>,
    maxTokens: Option<nat>,
    tools: seq<ToolSchema>,
    toolChoice: Option<string>)
}
