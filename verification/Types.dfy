/** The values that flow through the agent: messages, tool calls, events, and the
    interactions by which a run of the loop can be observed. */
module Types {

  datatype Option<+T> = None | Some(value: T)

  /** The outcome of a call into code that may throw. */
  datatype Attempt<+T> = Returned(value: T) | Threw(message: string)

  /** A JSON value, represented by its text. */
  datatype Json = Json(text: string)

  const EMPTY_OBJECT: Json := Json("{}")

  datatype Usage = Usage(input: int, output: int, cacheRead: int, cacheWrite: int, totalTokens: int)

  const NO_USAGE: Usage := Usage(0, 0, 0, 0, 0)

  datatype StopReason = Stop | Length | ToolUse | Error | Aborted

  datatype ToolCall = ToolCall(id: string, name: string, arguments: Json, thoughtSignature: Option<string>)

  datatype Block =
    | Text(text: string, textSignature: Option<string>)
    | Thinking(thinking: string, thinkingSignature: Option<string>, redacted: bool)
    | Call(call: ToolCall)

  /** The API, the provider and the model that a message is from, as they were requested. */
  datatype Origin = Origin(api: string, provider: string, model: string)

  const NO_ORIGIN: Origin := Origin("", "", "")

  /** An assistant message. The model that answered, where it is another one than requested, the provider's id of the
      response, and its diagnostics are there or not. */
  datatype AssistantMessage = AssistantMessage(
    content: seq<Block>,
    origin: Origin,
    responseModel: Option<string>,
    responseId: Option<string>,
    diagnostics: Option<Json>,
    usage: Usage,
    stopReason: StopReason,
    errorMessage: Option<string>)

  /** An assistant message without any of the optional parts that a provider may add. */
  function PlainReply(
      content: seq<Block>, origin: Origin, usage: Usage, stopReason: StopReason, errorMessage: Option<string>)
    : AssistantMessage
  {
    AssistantMessage(content, origin, None, None, None, usage, stopReason, errorMessage)
  }

  /** The role of a message that an application adds; a message whose role is one of the three built-in ones is a
      message of that kind. */
  type CustomRole = role: string | role != "user" && role != "assistant" && role != "toolResult" witness "custom"

  datatype Message =
    | User(content: string)
    | Custom(role: CustomRole, content: string)
    | Assistant(reply: AssistantMessage)
    | ToolResult(toolCallId: string, toolName: string, content: string, details: Json, isError: bool)

  /** What a tool hands back, either as a partial update or as its final result. */
  datatype ToolOutput = ToolOutput(content: string, details: Json, terminate: Option<bool>)

  datatype AgentEvent =
    | AgentStart
    | AgentEnd(messages: seq<Message>)
    | TurnStart
    | TurnEnd(message: Message, toolResults: seq<Message>)
    | MessageStart(message: Message)
    | MessageUpdate(message: Message)
    | MessageEnd(message: Message)
    | ToolStart(id: string, name: string, args: Json)
    | ToolUpdate(id: string, name: string, args: Json, partial: ToolOutput)
    | ToolEnd(id: string, name: string, result: ToolOutput, isError: bool)

  /** Everything the loop does that its surroundings can see, in order. `LlmCall` and the three kinds of consultation
      carry the loop's private transcript as it is handed out at that moment: `ConsultBefore` and `ConsultAfter` stand
      for `beforeToolCall` and `afterToolCall`, `Consult` for `prepareNextTurn` and for `shouldStopAfterTurn`. */
  datatype Interaction =
    | Emit(event: AgentEvent)
    | LlmCall(context: seq<Message>)
    | ConsultBefore(id: string, context: seq<Message>)
    | Execute(id: string, args: Json)
    | ConsultAfter(id: string, context: seq<Message>)
    | Consult(message: Message, toolResults: seq<Message>, context: seq<Message>, newMessages: seq<Message>)
    | PollSteering(messages: seq<Message>)
    | PollFollowUp(messages: seq<Message>)

  /** The tool-call blocks of an assistant message, in source order. */
  function ToolCalls(content: seq<Block>): (calls: seq<ToolCall>)
    ensures |calls| <= |content|
  {
    if content == [] then []
    else (if content[0].Call? then [content[0].call] else []) + ToolCalls(content[1..])
  }

  /** Every tool-call block counts, in order, and no other block does. */
  lemma {:induction false} ToolCallsSnoc(content: seq<Block>, block: Block)
    ensures ToolCalls([]) == []
    ensures ToolCalls(content + [block]) == ToolCalls(content) + (if block.Call? then [block.call] else [])
  {
    if content == [] {
      assert [] + [block] == [block] && [block][1..] == [];
    } else {
      assert (content + [block])[0] == content[0] && (content + [block])[1..] == content[1..] + [block];
      ToolCallsSnoc(content[1..], block);
      var first := if content[0].Call? then [content[0].call] else [];
      var last := if block.Call? then [block.call] else [];
      hide ToolCalls;
      assert (first + ToolCalls(content[1..])) + last == first + (ToolCalls(content[1..]) + last);
    }
  }

  predicate Failed(reply: AssistantMessage) {
    reply.stopReason.Error? || reply.stopReason.Aborted?
  }

  /** The events among the interactions of a run. */
  function Events(log: seq<Interaction>): seq<AgentEvent> {
    if log == [] then []
    else Events(log[..|log| - 1]) + (if log[|log| - 1].Emit? then [log[|log| - 1].event] else [])
  }

  lemma Associate<T>(a: seq<T>, b: seq<T>, c: seq<T>)
    ensures (a + b) + c == a + (b + c)
  {
  }

  /** The sink passed to the loop as `emit`, together with the other calls the loop makes outwards. */
  class Recorder {
    var log: seq<Interaction>

    constructor ()
      ensures log == []
    {
      log := [];
    }

    method Record(x: Interaction)
      modifies this
      ensures log == old(log) + [x]
    {
      log := log + [x];
    }

    method EmitEvent(e: AgentEvent)
      modifies this
      ensures log == old(log) + [Emit(e)]
    {
      log := log + [Emit(e)];
    }
  }

  /** The context object of the loop; its transcript is updated in place. */
  class AgentContext {
    var messages: seq<Message>
    var tools: seq<Tool>

    constructor (messages: seq<Message>, tools: seq<Tool>)
      ensures this.messages == messages && this.tools == tools
    {
      this.messages, this.tools := messages, tools;
    }
  }

  datatype ToolMode = Sequential | Parallel

  datatype Tool = Tool(name: string, executionMode: Option<ToolMode>)

  /** The context of the loop at some moment. */
  datatype Context = Context(messages: seq<Message>, tools: seq<Tool>)
}
