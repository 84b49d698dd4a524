/**
 * The conversation-log entries the graphs pass around, the structured tool calls a model
 * reply carries, and the exceptions the host code raises or catches. Lookups follow
 * Python's semantics: `log[-1]` on an empty log is an IndexError, `m.tool_calls` on a
 * message that is not an AI message is an AttributeError, a missing key is a KeyError.
 */
module Messages {
  import opened Base

  /** A tool-call argument: a JSON string or a JSON list of strings. */
  datatype Value = Str(s: string) | Strs(items: seq<string>)

  /** One structured tool invocation: the schema name, its arguments and its call id. */
  datatype ToolCall = ToolCall(name: string, args: map<string, Value>, id: string)

  /** HumanMessage, AIMessage (a model reply) and ToolMessage. */
  datatype Message =
    | Human(content: string, name: Option<string>)
    | AI(content: string, toolCalls: seq<ToolCall>)
    | ToolResult(content: string, toolCallId: string)

  /** The four service errors the retry wrapper treats as transient. */
  datatype TransientKind = InternalServerError | APIConnectionError | APITimeoutError | RateLimitError

  datatype Error =
    | Transient(kind: TransientKind)
    | KeyError
    | IndexError
    | AttributeError
    | TypeError
    | AssertionError
    /** The graph framework's recursion limit was reached. */
    | RecursionLimit
    /** A `Command` named a node the graph does not have. */
    | UnknownNode(node: string)
    /** Any other exception, by name. */
    | Fatal(name: string)

  /** The four lookup errors the routing node catches. */
  predicate IsLookupError(e: Error) {
    e.KeyError? || e.AttributeError? || e.IndexError? || e.TypeError?
  }

  /** `m.tool_calls` */
  function ToolCallsOf(m: Message): (r: Result<seq<ToolCall>, Error>)
    ensures r.Ok? <==> m.AI?
    ensures r.Err? ==> r.error == AttributeError
  {
    if m.AI? then Ok(m.toolCalls) else Err(AttributeError)
  }

  /** `m.tool_calls[0]` */
  function FirstCall(m: Message): (r: Result<ToolCall, Error>)
    ensures r.Ok? <==> m.AI? && |m.toolCalls| > 0
    ensures r.Ok? ==> r.value == m.toolCalls[0]
  {
    var calls :- ToolCallsOf(m);
    if |calls| == 0 then Err(IndexError) else Ok(calls[0])
  }

  /** `call["args"][key]` */
  function Arg(call: ToolCall, key: string): (r: Result<Value, Error>)
    ensures r.Ok? <==> key in call.args
    ensures r.Ok? ==> r.value == call.args[key]
  {
    if key in call.args then Ok(call.args[key]) else Err(KeyError)
  }

  /**
   * A string argument. A value of the wrong JSON type counts as a failed lookup
   * (TypeError), which every caller handles like a missing key.
   */
  function StrArg(call: ToolCall, key: string): (r: Result<string, Error>)
    ensures r.Ok? <==> key in call.args && call.args[key].Str?
    ensures r.Ok? ==> r.value == call.args[key].s
  {
    var v :- Arg(call, key);
    if v.Str? then Ok(v.s) else Err(TypeError)
  }

  /** A list-of-strings argument; a plain string counts as a failed lookup. */
  function ListArg(call: ToolCall, key: string): (r: Result<seq<string>, Error>)
    ensures r.Ok? <==> key in call.args && call.args[key].Strs?
    ensures r.Ok? ==> r.value == call.args[key].items
  {
    var v :- Arg(call, key);
    if v.Strs? then Ok(v.items) else Err(TypeError)
  }

  /** `log[-1]` */
  function Last(log: seq<Message>): (r: Result<Message, Error>)
    ensures r.Ok? <==> |log| >= 1
    ensures r.Ok? ==> r.value == log[|log| - 1]
  {
    if |log| >= 1 then Ok(log[|log| - 1]) else Err(IndexError)
  }

  /** `log[-2]` */
  function SecondLast(log: seq<Message>): (r: Result<Message, Error>)
    ensures r.Ok? <==> |log| >= 2
    ensures r.Ok? ==> r.value == log[|log| - 2]
  {
    if |log| >= 2 then Ok(log[|log| - 2]) else Err(IndexError)
  }

  /** `message.tool_calls[0]["args"][key]` for a string field. */
  function FirstCallStr(m: Message, key: string): (r: Result<string, Error>)
    ensures r.Ok? <==> m.AI? && |m.toolCalls| > 0 && key in m.toolCalls[0].args && m.toolCalls[0].args[key].Str?
    ensures r.Ok? ==> r.value == m.toolCalls[0].args[key].s
  {
    var call :- FirstCall(m);
    StrArg(call, key)
  }
}
