/** Preflight, execution and finalization of a single tool call, and the sequential executor. */
module Tools {
  import opened Types

  datatype BeforeResult = BeforeResult(block: bool, reason: Option<string>)

  datatype AfterResult = AfterResult(
    content: Option<string>, details: Option<Json>, terminate: Option<bool>, isError: Option<bool>)

  /** What a tool's `execute` does over time: call `onUpdate`, or settle its promise. */
  datatype Tick = Report(partial: ToolOutput) | Settle

  /** The surroundings' answers for one tool call: argument validation, the two hooks (`None` when
      not configured), the tool itself, and the abort flag at the two points where it is read. */
  datatype CallEnv = CallEnv(
    validated: Attempt<Json>,
    before: Option<Attempt<Option<BeforeResult>>>,
    abortedAtPreflight: bool,
    ticks: seq<Tick>,
    execution: Attempt<ToolOutput>,
    after: Option<Attempt<Option<AfterResult>>>,
    abortedAfter: bool)

  datatype Preparation = Immediate(result: ToolOutput, isError: bool) | Prepared(args: Json)

  datatype Finalized = Finalized(call: ToolCall, result: ToolOutput, isError: bool)

  function FindTool(tools: seq<Tool>, name: string): Option<Tool> {
    if tools == [] then None
    else if tools[0].name == name then Some(tools[0])
    else FindTool(tools[1..], name)
  }

  function ErrorResult(message: string): ToolOutput {
    ToolOutput(message, EMPTY_OBJECT, None)
  }

  function BlockReason(reason: Option<string>): string {
    if reason.Some? && reason.value != "" then reason.value else "Tool execution was blocked"
  }

  /** `prepareToolCall`. A throw during validation or from the hook is turned into an error result;
      the hook's answer is looked at only after the abort flag. */
  function Prepare(tools: seq<Tool>, call: ToolCall, env: CallEnv): Preparation {
    if FindTool(tools, call.name).None? then Immediate(ErrorResult("Tool " + call.name + " not found"), true)
    else if env.validated.Threw? then Immediate(ErrorResult(env.validated.message), true)
    else if env.before.Some? && env.before.value.Threw? then Immediate(ErrorResult(env.before.value.message), true)
    else if env.abortedAtPreflight then Immediate(ErrorResult("Operation aborted"), true)
    else if env.before.Some? && env.before.value.value.Some? && env.before.value.value.value.block then
      Immediate(ErrorResult(BlockReason(env.before.value.value.value.reason)), true)
    else Prepared(env.validated.value)
  }

  function OrElse<T>(override: Option<T>, otherwise: T): T {
    if override.Some? then override.value else otherwise
  }

  /** `finalizeExecutedToolCall` on the outcome of `execute`. */
  function Finalize(call: ToolCall, env: CallEnv): Finalized {
    var (result, isError) := match env.execution
      case Returned(output) => (output, false)
      case Threw(message) => (ErrorResult(message), true);
    match env.after
    case None => Finalized(call, result, isError)
    case Some(Threw(message)) => Finalized(call, ErrorResult(message), true)
    case Some(Returned(None)) => Finalized(call, result, isError)
    case Some(Returned(Some(o))) =>
      Finalized(call,
        ToolOutput(OrElse(o.content, result.content), OrElse(o.details, result.details),
                   if o.terminate.Some? then o.terminate else result.terminate),
        OrElse(o.isError, isError))
  }

  /** The finalized outcome of a call, however it is scheduled. */
  function Outcome(tools: seq<Tool>, call: ToolCall, env: CallEnv): Finalized {
    match Prepare(tools, call, env)
    case Immediate(result, isError) => Finalized(call, result, isError)
    case Prepared(_) => Finalize(call, env)
  }

  predicate Terminates(f: Finalized) {
    f.result.terminate == Some(true)
  }

  /** `shouldTerminateToolBatch`. */
  predicate ShouldTerminate(finalized: seq<Finalized>) {
    finalized != [] && forall k :: 0 <= k < |finalized| ==> Terminates(finalized[k])
  }

  function ResultMessage(f: Finalized): Message {
    ToolResult(f.call.id, f.call.name, f.result.content, f.result.details, f.isError)
  }

  function ResultMessages(finalized: seq<Finalized>): (ms: seq<Message>)
    ensures |ms| == |finalized|
  {
    if finalized == [] then []
    else ResultMessages(finalized[..|finalized| - 1]) + [ResultMessage(finalized[|finalized| - 1])]
  }

  function StartEvent(call: ToolCall): AgentEvent {
    ToolStart(call.id, call.name, call.arguments)
  }

  function UpdateEvent(call: ToolCall, partial: ToolOutput): AgentEvent {
    ToolUpdate(call.id, call.name, call.arguments, partial)
  }

  function EndEvent(f: Finalized): AgentEvent {
    ToolEnd(f.call.id, f.call.name, f.result, f.isError)
  }

  function MessageLog(m: Message): seq<Interaction> {
    [Emit(MessageStart(m)), Emit(MessageEnd(m))]
  }

  /** Whole messages, one after the other. */
  function MessagesLog(ms: seq<Message>): seq<Interaction> {
    if ms == [] then [] else MessagesLog(ms[..|ms| - 1]) + MessageLog(ms[|ms| - 1])
  }

  /** The updates a tool gets through while its promise is unsettled; anything reported later is dropped. */
  function AcceptedUpdates(call: ToolCall, ticks: seq<Tick>): seq<Interaction> {
    if ticks == [] || ticks[0].Settle? then []
    else [Emit(UpdateEvent(call, ticks[0].partial))] + AcceptedUpdates(call, ticks[1..])
  }

  /** `beforeToolCall`, if it is reached: the tool is there and its arguments are valid. */
  function BeforeLog(context: Context, call: ToolCall, env: CallEnv): seq<Interaction> {
    if FindTool(context.tools, call.name).Some? && env.validated.Returned? && env.before.Some?
    then [ConsultBefore(call.id, context.messages)] else []
  }

  /** `afterToolCall`. */
  function AfterLog(given: seq<Message>, call: ToolCall, env: CallEnv): seq<Interaction> {
    if env.after.Some? then [ConsultAfter(call.id, given)] else []
  }

  function ExecutionLog(context: Context, call: ToolCall, env: CallEnv): seq<Interaction> {
    match Prepare(context.tools, call, env)
    case Immediate(_, _) => []
    case Prepared(args) =>
      [Execute(call.id, args)] + AcceptedUpdates(call, env.ticks) + AfterLog(context.messages, call, env)
  }

  /** Everything the sequential executor does for one call. */
  function SequentialCallLog(context: Context, call: ToolCall, env: CallEnv): seq<Interaction> {
    var f := Outcome(context.tools, call, env);
    [Emit(StartEvent(call))] + BeforeLog(context, call, env) + ExecutionLog(context, call, env) + [Emit(EndEvent(f))]
      + MessageLog(ResultMessage(f))
  }

  /** How many calls of the batch are taken up, from call `k` on: an abort stops the batch behind the call
      during which it is seen. */
  function Reached(calls: seq<ToolCall>, env: seq<CallEnv>, k: nat): (n: nat)
    requires k <= |calls| <= |env|
    ensures k <= n <= |calls|
    ensures k < |calls| ==> k < n
    decreases |calls| - k
  {
    if k == |calls| then k
    else if env[k].abortedAfter then k + 1
    else Reached(calls, env, k + 1)
  }

  /** The outcomes of the first `n` calls, in source order. */
  function Outcomes(tools: seq<Tool>, calls: seq<ToolCall>, env: seq<CallEnv>, n: nat): (fs: seq<Finalized>)
    requires n <= |calls| <= |env|
    ensures |fs| == n
  {
    if n == 0 then []
    else Outcomes(tools, calls, env, n - 1) + [Outcome(tools, calls[n - 1], env[n - 1])]
  }

  function SequentialLog(context: Context, calls: seq<ToolCall>, env: seq<CallEnv>, n: nat): seq<Interaction>
    requires n <= |calls| <= |env|
  {
    if n == 0 then []
    else SequentialLog(context, calls, env, n - 1) + SequentialCallLog(context, calls[n - 1], env[n - 1])
  }

  lemma OneMore(context: Context, calls: seq<ToolCall>, env: seq<CallEnv>, n: nat)
    requires n < |calls| <= |env|
    ensures Outcomes(context.tools, calls, env, n + 1)
         == Outcomes(context.tools, calls, env, n) + [Outcome(context.tools, calls[n], env[n])]
    ensures SequentialLog(context, calls, env, n + 1)
         == SequentialLog(context, calls, env, n) + SequentialCallLog(context, calls[n], env[n])
    ensures ResultMessages(Outcomes(context.tools, calls, env, n + 1))
         == ResultMessages(Outcomes(context.tools, calls, env, n))
              + [ResultMessage(Outcome(context.tools, calls[n], env[n]))]
  {
  }

  /** `executePreparedToolCall`: the `acceptingUpdates` flag drops once and for all when the tool settles. */
  method ExecutePreparedToolCall(call: ToolCall, args: Json, env: CallEnv, sink: Recorder)
    returns (executed: Attempt<ToolOutput>)
    modifies sink
    ensures executed == env.execution
    ensures sink.log == old(sink.log) + [Execute(call.id, args)] + AcceptedUpdates(call, env.ticks)
  {
    sink.Record(Execute(call.id, args));
    var acceptingUpdates := true;
    for k := 0 to |env.ticks|
      invariant sink.log + (if acceptingUpdates then AcceptedUpdates(call, env.ticks[k..]) else [])
             == old(sink.log) + [Execute(call.id, args)] + AcceptedUpdates(call, env.ticks)
    {
      assert env.ticks[k..][1..] == env.ticks[k + 1..];
      match env.ticks[k] {
        case Report(partial) =>
          if acceptingUpdates {
            sink.EmitEvent(UpdateEvent(call, partial));
          }
        case Settle => acceptingUpdates := false;
      }
    }
    executed := env.execution;
  }

  method EmitToolResultMessage(m: Message, sink: Recorder)
    modifies sink
    ensures sink.log == old(sink.log) + MessageLog(m)
  {
    sink.EmitEvent(MessageStart(m));
    sink.EmitEvent(MessageEnd(m));
  }

  /** `prepareToolCall`, with the hook consulted on the way. */
  method PrepareToolCall(context: Context, call: ToolCall, env: CallEnv, sink: Recorder) returns (p: Preparation)
    modifies sink
    ensures p == Prepare(context.tools, call, env)
    ensures sink.log == old(sink.log) + BeforeLog(context, call, env)
  {
    var tool := FindTool(context.tools, call.name);
    if tool.None? {
      return Immediate(ErrorResult("Tool " + call.name + " not found"), true);
    }
    if env.validated.Threw? {
      return Immediate(ErrorResult(env.validated.message), true);
    }
    if env.before.Some? {
      sink.Record(ConsultBefore(call.id, context.messages));
      match env.before.value {
        case Threw(message) => return Immediate(ErrorResult(message), true);
        case Returned(answer) =>
          if env.abortedAtPreflight {
            return Immediate(ErrorResult("Operation aborted"), true);
          }
          if answer.Some? && answer.value.block {
            return Immediate(ErrorResult(BlockReason(answer.value.reason)), true);
          }
      }
    }
    if env.abortedAtPreflight {
      return Immediate(ErrorResult("Operation aborted"), true);
    }
    p := Prepared(env.validated.value);
  }

  /** `finalizeExecutedToolCall`, likewise. */
  method FinalizeExecutedToolCall(context: Context, call: ToolCall, env: CallEnv, sink: Recorder)
    returns (finalized: Finalized)
    modifies sink
    ensures finalized == Finalize(call, env)
    ensures sink.log == old(sink.log) + AfterLog(context.messages, call, env)
  {
    var isError := env.execution.Threw?;
    var result := if isError then ErrorResult(env.execution.message) else env.execution.value;
    if env.after.Some? {
      sink.Record(ConsultAfter(call.id, context.messages));
      match env.after.value {
        case Returned(None) =>
        case Returned(Some(o)) =>
          result := ToolOutput(OrElse(o.content, result.content), OrElse(o.details, result.details),
                               if o.terminate.Some? then o.terminate else result.terminate);
          isError := OrElse(o.isError, isError);
        case Threw(message) =>
          result := ErrorResult(message);
          isError := true;
      }
    }
    finalized := Finalized(call, result, isError);
  }

  /** One round of the sequential executor: start, preflight, execution, end, and the result message. */
  method ExecuteOneSequentially(context: Context, toolCall: ToolCall, env: CallEnv, sink: Recorder)
    returns (finalized: Finalized, toolResultMessage: Message)
    modifies sink
    ensures finalized == Outcome(context.tools, toolCall, env)
    ensures toolResultMessage == ResultMessage(finalized)
    ensures sink.log == old(sink.log) + SequentialCallLog(context, toolCall, env)
  {
    hide Prepare, Finalize, ResultMessage, BeforeLog, AfterLog;
    sink.EmitEvent(StartEvent(toolCall));
    var preparation := PrepareToolCall(context, toolCall, env, sink);
    match preparation {
      case Immediate(result, isError) => finalized := Finalized(toolCall, result, isError);
      case Prepared(args) =>
        var _ := ExecutePreparedToolCall(toolCall, args, env, sink);
        finalized := FinalizeExecutedToolCall(context, toolCall, env, sink);
    }
    assert sink.log
        == old(sink.log)
           + ([Emit(StartEvent(toolCall))] + BeforeLog(context, toolCall, env) + ExecutionLog(context, toolCall, env));
    sink.EmitEvent(EndEvent(finalized));
    toolResultMessage := ResultMessage(finalized);
    EmitToolResultMessage(toolResultMessage, sink);
  }

  /** `executeToolCallsSequential`. */
  method ExecuteToolCallsSequential(context: Context, calls: seq<ToolCall>, env: seq<CallEnv>, sink: Recorder)
    returns (finalizedCalls: seq<Finalized>, messages: seq<Message>)
    requires |calls| <= |env|
    modifies sink
    ensures finalizedCalls == Outcomes(context.tools, calls, env, Reached(calls, env, 0))
    ensures messages == ResultMessages(finalizedCalls)
    ensures sink.log == old(sink.log) + SequentialLog(context, calls, env, Reached(calls, env, 0))
  {
    hide Outcome, SequentialCallLog, ResultMessage;
    finalizedCalls, messages := [], [];
    var k := 0;
    var aborted := false;
    ghost var done := [];
    while k < |calls| && !aborted
      invariant k <= |calls|
      invariant Reached(calls, env, 0) == if aborted then k else Reached(calls, env, k)
      invariant finalizedCalls == Outcomes(context.tools, calls, env, k)
      invariant messages == ResultMessages(finalizedCalls)
      invariant sink.log == old(sink.log) + done
      invariant done == SequentialLog(context, calls, env, k)
    {
      Associate(old(sink.log), done, SequentialCallLog(context, calls[k], env[k]));
      done := done + SequentialCallLog(context, calls[k], env[k]);
      var finalized, toolResultMessage := ExecuteOneSequentially(context, calls[k], env[k], sink);
      OneMore(context, calls, env, k);
      finalizedCalls := finalizedCalls + [finalized];
      messages := messages + [toolResultMessage];
      aborted := env[k].abortedAfter;
      k := k + 1;
    }
  }
}
