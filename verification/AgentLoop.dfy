/** `runAgentLoop`, `runAgentLoopContinue` and `runLoop`. */
module AgentLoop {
  import opened Types
  import opened Tools
  import opened Parallel
  import opened Streaming

  /** What the surroundings answer during one turn: the provider's stream, one answer per tool call and a
      scheduler for the race, the context handed back by `prepareNextTurn` (if any), the verdict of
      `shouldStopAfterTurn`, and the queued messages found by the polls that may follow. */
  datatype TurnEnv = TurnEnv(
    stream: seq<StreamEvent>,
    final: AssistantMessage,
    calls: seq<CallEnv>,
    schedule: seq<Action>,
    replacement: Option<Context>,
    stop: bool,
    steering: seq<Message>,
    followUp: seq<Message>)

  predicate Answers(te: TurnEnv) {
    |ToolCalls(te.final.content)| <= |te.calls|
  }

  ghost predicate AllAnswer(turns: seq<TurnEnv>) {
    forall t :: 0 <= t < |turns| ==> Answers(turns[t])
  }

  /** The variables of the loop. */
  datatype Vars = Vars(context: Context, newMessages: seq<Message>, pending: seq<Message>)

  /** How a turn comes out: still under way when observation stops, the run is over, or the loop goes on
      behind the steering poll. */
  datatype Turn =
    | Suspended(log: seq<Interaction>, vars: Vars)
    | Ended(log: seq<Interaction>, vars: Vars)
    | GoesOn(log: seq<Interaction>, vars: Vars, hasMoreToolCalls: bool)

  function OpeningLog(first: bool, pending: seq<Message>): seq<Interaction> {
    (if first then [] else [Emit(TurnStart)]) + MessagesLog(pending)
  }

  /** The variables when the provider is called. */
  function Injected(v: Vars): Vars {
    Vars(Context(v.context.messages + v.pending, v.context.tools), v.newMessages + v.pending, [])
  }

  /** The interactions of a turn up to the end of the assistant message. */
  function AssistantLog(first: bool, v: Vars, te: TurnEnv): seq<Interaction> {
    OpeningLog(first, v.pending) + [LlmCall(v.context.messages + v.pending)] + StreamLog(te.stream, te.final, false)
  }

  /** The variables when the assistant message is in place. */
  function Answered(v: Vars, te: TurnEnv): Vars {
    var w := Injected(v);
    Vars(Context(StreamContext(te.stream, w.context.messages, te.final, false), w.context.tools),
         w.newMessages + [Assistant(te.final)], [])
  }

  function WithResults(v: Vars, results: seq<Message>): Vars {
    Vars(Context(v.context.messages + results, v.context.tools), v.newMessages + results, [])
  }

  function Replaced(v: Vars, te: TurnEnv): Vars {
    if te.replacement.Some? then v.(context := te.replacement.value) else v
  }

  /** `turn_end`, the two hooks, and then either the end of the run or the steering poll. */
  function ClosingLog(v: Vars, te: TurnEnv, results: seq<Message>): seq<Interaction> {
    var m := Assistant(te.final);
    [Emit(TurnEnd(m, results)),
     Consult(m, results, v.context.messages, v.newMessages),
     Consult(m, results, Replaced(v, te).context.messages, v.newMessages),
     if te.stop then Emit(AgentEnd(v.newMessages)) else PollSteering(te.steering)]
  }

  /** The end of a turn, given the variables with its tool results in place. */
  function CloseTurn(log: seq<Interaction>, v: Vars, te: TurnEnv, results: seq<Message>, hasMore: bool): Turn {
    var closed := log + ClosingLog(v, te, results);
    if te.stop then Ended(closed, Replaced(v, te))
    else GoesOn(closed, Replaced(v, te).(pending := te.steering), hasMore)
  }

  function RunTurn(first: bool, v: Vars, mode: ToolMode, te: TurnEnv): Turn
    requires Answers(te)
  {
    var log := AssistantLog(first, v, te);
    var w := Answered(v, te);
    var calls := ToolCalls(te.final.content);
    if Failed(te.final) then
      Ended(log + [Emit(TurnEnd(Assistant(te.final), [])), Emit(AgentEnd(w.newMessages))], w)
    else if calls == [] then
      CloseTurn(log, w, te, [], false)
    else
      var b := ExecuteBatch(mode, w.context, calls, te.calls, te.schedule);
      if b.complete then
        CloseTurn(log + b.log, WithResults(w, ResultMessages(b.finalized)), te, ResultMessages(b.finalized),
                  !ShouldTerminate(b.finalized))
      else
        Suspended(log + b.log, w)
  }

  /** An observed run. It is cut off, with `ended` false, when the surroundings have no more to tell: while a
      provider call or a race is still under way. Every finite piece of a run is a prefix of the log of such a run. */
  datatype Run = Run(log: seq<Interaction>, ended: bool, vars: Vars)

  function Then(log: seq<Interaction>, run: Run): Run {
    run.(log := log + run.log)
  }

  /** The loop from the top of a turn that is going to be taken. */
  function RunTurns(first: bool, v: Vars, mode: ToolMode, turns: seq<TurnEnv>): Run
    requires AllAnswer(turns)
    decreases |turns|, 1
  {
    if turns == [] then
      Run(OpeningLog(first, v.pending) + [LlmCall(v.context.messages + v.pending)], false, Injected(v))
    else
      match RunTurn(first, v, mode, turns[0])
      case Suspended(log, w) => Run(log, false, w)
      case Ended(log, w) => Run(log, true, w)
      case GoesOn(log, w, hasMore) =>
        if hasMore || w.pending != [] then Then(log, RunTurns(false, w, mode, turns[1..]))
        else Then(log, WindDown(w, mode, turns[0].followUp, turns[1..]))
  }

  /** The loop when it would stop: follow-up messages start it again. */
  function WindDown(v: Vars, mode: ToolMode, followUp: seq<Message>, turns: seq<TurnEnv>): Run
    requires AllAnswer(turns)
    decreases |turns|, 2
  {
    Then([PollFollowUp(followUp)],
      if followUp != [] then RunTurns(false, v.(pending := followUp), mode, turns)
      else Run([Emit(AgentEnd(v.newMessages))], true, v))
  }

  function Loop(v: Vars, mode: ToolMode, steering: seq<Message>, turns: seq<TurnEnv>): Run
    requires AllAnswer(turns)
  {
    Then([PollSteering(steering)], RunTurns(true, v.(pending := steering), mode, turns))
  }

  function PromptRun(
      prompts: seq<Message>, context: Context, mode: ToolMode, steering: seq<Message>, turns: seq<TurnEnv>): Run
    requires AllAnswer(turns)
  {
    Then([Emit(AgentStart), Emit(TurnStart)] + MessagesLog(prompts),
         Loop(Vars(context.(messages := context.messages + prompts), prompts, []), mode, steering, turns))
  }

  /** A continuation is refused on an empty transcript and behind an assistant message. */
  function ContinueError(messages: seq<Message>): Option<string> {
    if messages == [] then Some("Cannot continue: no messages in context")
    else if messages[|messages| - 1].Assistant? then Some("Cannot continue from message role: assistant")
    else None
  }

  function ContinueRun(context: Context, mode: ToolMode, steering: seq<Message>, turns: seq<TurnEnv>): Run
    requires AllAnswer(turns)
  {
    Then([Emit(AgentStart), Emit(TurnStart)], Loop(Vars(context, [], []), mode, steering, turns))
  }

  /** The two ways to start the loop. */
  datatype Request = Prompt(prompts: seq<Message>) | Continue

  function Expected(request: Request): seq<Message> {
    if request.Prompt? then request.prompts else []
  }

  function RunOf(request: Request, context: Context, mode: ToolMode, steering: seq<Message>, turns: seq<TurnEnv>): Run
    requires AllAnswer(turns)
  {
    match request
    case Prompt(prompts) => PromptRun(prompts, context, mode, steering, turns)
    case Continue => ContinueRun(context, mode, steering, turns)
  }

  // ----- The loop, step by step -----

  method AnnounceMessages(messages: seq<Message>, sink: Recorder)
    modifies sink
    ensures sink.log == old(sink.log) + MessagesLog(messages)
  {
    for k := 0 to |messages|
      invariant sink.log == old(sink.log) + MessagesLog(messages[..k])
    {
      EmitToolResultMessage(messages[k], sink);
      assert messages[..k + 1][..k] == messages[..k];
    }
    assert messages[..|messages|] == messages;
  }

  /** The top of a turn: announce it, unless it is the first, and move the pending messages over. */
  method InjectPending(
      firstTurn: bool, context: AgentContext, newMessages: seq<Message>, pending: seq<Message>, sink: Recorder)
    returns (newMessages': seq<Message>)
    modifies context`messages, sink
    ensures context.messages == old(context.messages) + pending
    ensures newMessages' == newMessages + pending
    ensures sink.log == old(sink.log) + OpeningLog(firstTurn, pending)
  {
    newMessages' := newMessages;
    if !firstTurn {
      sink.EmitEvent(TurnStart);
    }
    ghost var start := sink.log;
    for k := 0 to |pending|
      invariant context.messages == old(context.messages) + pending[..k]
      invariant newMessages' == newMessages + pending[..k]
      invariant sink.log == start + MessagesLog(pending[..k])
    {
      sink.EmitEvent(MessageStart(pending[k]));
      sink.EmitEvent(MessageEnd(pending[k]));
      assert pending[..k + 1][..k] == pending[..k];
      Associate(start, MessagesLog(pending[..k]), MessageLog(pending[k]));
      context.messages := context.messages + [pending[k]];
      newMessages' := newMessages' + [pending[k]];
    }
    assert pending[..|pending|] == pending;
  }

  datatype Flow = Waits | Stops | Proceeds

  /** The body of the inner loop. */
  method TakeTurn(
      firstTurn: bool, context: AgentContext, newMessages: seq<Message>, pending: seq<Message>,
      mode: ToolMode, te: TurnEnv, sink: Recorder)
    returns (flow: Flow, currentContext: AgentContext, newMessages': seq<Message>, pending': seq<Message>,
             hasMoreToolCalls: bool)
    requires Answers(te)
    modifies context`messages, sink
    ensures currentContext == context || fresh(currentContext)
    ensures te.replacement.None? ==> currentContext == context
    ensures var v := Vars(Context(old(context.messages), old(context.tools)), newMessages, pending);
            var w := Vars(Context(currentContext.messages, currentContext.tools), newMessages', pending');
            var turn := RunTurn(firstTurn, v, mode, te);
            && w == turn.vars
            && sink.log == old(sink.log) + turn.log
            && flow == (if turn.Suspended? then Waits else if turn.Ended? then Stops else Proceeds)
            && (turn.GoesOn? ==> hasMoreToolCalls == turn.hasMoreToolCalls)
  {
    hide ExecuteBatch, StreamLog, StreamContext, OpeningLog, ClosingLog, ToolCalls, ResultMessages;
    ghost var v := Vars(Context(context.messages, context.tools), newMessages, pending);
    ghost var start := sink.log;
    currentContext, pending', hasMoreToolCalls := context, [], false;
    newMessages' := InjectPending(firstTurn, context, newMessages, pending, sink);
    var message := StreamAssistantResponse(context, sink, te.stream, te.final);
    newMessages' := newMessages' + [Assistant(message)];
    ghost var intro := AssistantLog(firstTurn, v, te);
    assert sink.log == start + intro;

    if message.stopReason.Error? || message.stopReason.Aborted? {
      sink.EmitEvent(TurnEnd(Assistant(message), []));
      sink.EmitEvent(AgentEnd(newMessages'));
      flow := Stops;
      return;
    }

    var toolCalls := ToolCalls(message.content);
    var toolResults := [];
    ghost var batchLog := [];
    if toolCalls != [] {
      var given := Context(context.messages, context.tools);
      batchLog := ExecuteBatch(mode, given, toolCalls, te.calls, te.schedule).log;
      var complete, terminate;
      complete, toolResults, terminate :=
        ExecuteToolCalls(mode, given, toolCalls, te.calls, te.schedule, sink);
      Associate(start, intro, batchLog);
      if !complete {
        flow := Waits;
        return;
      }
      hasMoreToolCalls := !terminate;
      context.messages := context.messages + toolResults;
      newMessages' := newMessages' + toolResults;
    } else {
      assert context.messages + toolResults == context.messages;
      assert intro + batchLog == intro;
    }
    flow, currentContext, pending' :=
      EndTurn(context, newMessages', te, toolResults, sink);
    Associate(start, intro + batchLog,
              ClosingLog(Vars(Context(context.messages, context.tools), newMessages', []), te, toolResults));
  }

  /** `turn_end`, the two hooks, and the steering poll. */
  method EndTurn(
      context: AgentContext, newMessages: seq<Message>, te: TurnEnv, toolResults: seq<Message>, sink: Recorder)
    returns (flow: Flow, currentContext: AgentContext, pending: seq<Message>)
    modifies sink
    ensures currentContext == context || fresh(currentContext)
    ensures te.replacement.None? ==> currentContext == context
    ensures te.replacement.Some? ==>
              fresh(currentContext) && Context(currentContext.messages, currentContext.tools) == te.replacement.value
    ensures var v := Vars(Context(context.messages, context.tools), newMessages, []);
            && Vars(Context(currentContext.messages, currentContext.tools), newMessages, pending)
            == Replaced(v, te).(pending := if te.stop then [] else te.steering)
            && sink.log == old(sink.log) + ClosingLog(v, te, toolResults)
    ensures flow == if te.stop then Stops else Proceeds
  {
    var message := Assistant(te.final);
    currentContext := context;
    sink.EmitEvent(TurnEnd(message, toolResults));
    sink.Record(Consult(message, toolResults, context.messages, newMessages));
    if te.replacement.Some? {
      currentContext := new AgentContext(te.replacement.value.messages, te.replacement.value.tools);
    }
    sink.Record(Consult(message, toolResults, currentContext.messages, newMessages));
    if te.stop {
      sink.EmitEvent(AgentEnd(newMessages));
      return Stops, currentContext, [];
    }
    sink.Record(PollSteering(te.steering));
    return Proceeds, currentContext, te.steering;
  }

  /** The log so far and what is still to come make up the whole run. */
  ghost predicate Remaining(start: seq<Interaction>, whole: Run, log: seq<Interaction>, rest: Run) {
    Then(start, whole) == Then(log, rest)
  }

  lemma RemainingAfter(start: seq<Interaction>, whole: Run, log: seq<Interaction>, step: seq<Interaction>, rest: Run)
    requires Remaining(start, whole, log, Then(step, rest))
    ensures Remaining(start, whole, log + step, rest)
  {
    Associate(log, step, rest.log);
  }

  /** What is still to come at the head of the inner loop. */
  ghost function Rest(firstTurn: bool, v: Vars, hasMore: bool, mode: ToolMode, turns: seq<TurnEnv>, t: nat): Run
    requires AllAnswer(turns) && t <= |turns|
    requires hasMore || v.pending != [] || t > 0
  {
    if hasMore || v.pending != [] then RunTurns(firstTurn, v, mode, turns[t..])
    else WindDown(v, mode, turns[t - 1].followUp, turns[t..])
  }

  lemma RestAfterTurn(firstTurn: bool, v: Vars, mode: ToolMode, turns: seq<TurnEnv>, t: nat)
    requires AllAnswer(turns) && t < |turns|
    ensures RunTurns(firstTurn, v, mode, turns[t..])
         == match RunTurn(firstTurn, v, mode, turns[t])
            case Suspended(log, w) => Then(log, Run([], false, w))
            case Ended(log, w) => Then(log, Run([], true, w))
            case GoesOn(log, w, more) => Then(log, Rest(false, w, more, mode, turns, t + 1))
  {
    assert turns[t..][1..] == turns[t + 1..];
  }

  ghost function Snapshot(context: AgentContext, newMessages: seq<Message>, pending: seq<Message>): Vars
    reads context
  {
    Vars(Context(context.messages, context.tools), newMessages, pending)
  }

  /** One iteration of the inner loop, seen as a step towards the whole run. */
  method Round(
      firstTurn: bool, context: AgentContext, newMessages: seq<Message>, pending: seq<Message>,
      mode: ToolMode, turns: seq<TurnEnv>, t: nat, ghost start: seq<Interaction>, ghost whole: Run, sink: Recorder)
    returns (flow: Flow, currentContext: AgentContext, newMessages': seq<Message>, pending': seq<Message>,
             hasMoreToolCalls: bool)
    requires AllAnswer(turns) && t < |turns|
    requires Remaining(start, whole, sink.log,
                       RunTurns(firstTurn, Snapshot(context, newMessages, pending), mode, turns[t..]))
    modifies context`messages, sink
    ensures currentContext == context || fresh(currentContext)
    ensures turns[t].replacement.None? ==> currentContext == context
    ensures !flow.Proceeds? ==> pending' == []
    ensures Remaining(start, whole, sink.log,
              if flow.Proceeds? then
                Rest(false, Snapshot(currentContext, newMessages', pending'), hasMoreToolCalls, mode, turns, t + 1)
              else Run([], flow.Stops?, Snapshot(currentContext, newMessages', pending')))
  {
    ghost var v := Snapshot(context, newMessages, pending);
    ghost var before := sink.log;
    RestAfterTurn(firstTurn, v, mode, turns, t);
    flow, currentContext, newMessages', pending', hasMoreToolCalls :=
      TakeTurn(firstTurn, context, newMessages, pending, mode, turns[t], sink);
    ghost var turn := RunTurn(firstTurn, v, mode, turns[t]);
    ghost var rest :=
      if flow.Proceeds? then Rest(false, turn.vars, hasMoreToolCalls, mode, turns, t + 1)
      else Run([], flow.Stops?, turn.vars);
    RemainingAfter(start, whole, before, turn.log, rest);
  }

  /** The poll made when the agent would stop. */
  method PollForFollowUps(
      ghost firstTurn: bool, context: AgentContext, newMessages: seq<Message>, ghost mode: ToolMode,
      turns: seq<TurnEnv>, t: nat, ghost start: seq<Interaction>, ghost whole: Run, sink: Recorder)
    returns (followUpMessages: seq<Message>)
    requires AllAnswer(turns) && 0 < t <= |turns|
    requires Remaining(start, whole, sink.log,
                       Rest(firstTurn, Snapshot(context, newMessages, []), false, mode, turns, t))
    modifies sink
    ensures var v := Snapshot(context, newMessages, followUpMessages);
            Remaining(start, whole, sink.log,
              if followUpMessages == [] then Run([Emit(AgentEnd(newMessages))], true, v)
              else RunTurns(false, v, mode, turns[t..]))
  {
    followUpMessages := turns[t - 1].followUp;
    ghost var before, v := sink.log, Snapshot(context, newMessages, followUpMessages);
    sink.Record(PollFollowUp(followUpMessages));
    RemainingAfter(start, whole, before, [PollFollowUp(followUpMessages)],
      if followUpMessages == [] then Run([Emit(AgentEnd(newMessages))], true, v)
      else RunTurns(false, v, mode, turns[t..]));
  }

  /** The nested loops. At the end of the script the provider call is left pending. */
  method RunLoop(
      initialContext: AgentContext, initialMessages: seq<Message>, mode: ToolMode,
      steering: seq<Message>, turns: seq<TurnEnv>, sink: Recorder)
    returns (ended: bool, newMessages: seq<Message>, currentContext: AgentContext)
    requires AllAnswer(turns)
    modifies initialContext`messages, sink
    ensures currentContext == initialContext || fresh(currentContext)
    ensures (forall t :: 0 <= t < |turns| ==> turns[t].replacement.None?) ==> currentContext == initialContext
    ensures Then(old(sink.log), Loop(old(Snapshot(initialContext, initialMessages, [])), mode, steering, turns))
         == Run(sink.log, ended, Snapshot(currentContext, newMessages, []))
  {
    hide RunTurns, RunTurn, WindDown;
    ghost var start := sink.log;
    ghost var v := Snapshot(initialContext, initialMessages, steering);
    ghost var whole := Then([PollSteering(steering)], RunTurns(true, v, mode, turns));
    currentContext, newMessages := initialContext, initialMessages;
    var firstTurn := true;
    sink.Record(PollSteering(steering));
    var pendingMessages := steering;
    var t := 0;
    assert turns[0..] == turns;
    while true
      invariant t <= |turns| && (t > 0 ==> !firstTurn)
      invariant currentContext == initialContext || fresh(currentContext)
      invariant (forall k :: 0 <= k < t ==> turns[k].replacement.None?) ==> currentContext == initialContext
      invariant Remaining(start, whole, sink.log,
                  RunTurns(firstTurn, Snapshot(currentContext, newMessages, pendingMessages), mode, turns[t..]))
      decreases |turns| - t
    {
      var hasMoreToolCalls := true;
      ghost var t0 := t;
      while hasMoreToolCalls || pendingMessages != []
        invariant t0 <= t <= |turns| && (t > 0 ==> !firstTurn)
        invariant currentContext == initialContext || fresh(currentContext)
        invariant (forall k :: 0 <= k < t ==> turns[k].replacement.None?) ==> currentContext == initialContext
        invariant hasMoreToolCalls || pendingMessages != [] || t0 < t
        invariant Remaining(start, whole, sink.log,
                    Rest(firstTurn, Snapshot(currentContext, newMessages, pendingMessages), hasMoreToolCalls,
                         mode, turns, t))
        decreases |turns| - t
      {
        if t == |turns| {
          ended := false;
          assert turns[t..] == [];
          newMessages, currentContext :=
            CutOff(firstTurn, currentContext, newMessages, pendingMessages, mode, start, whole, sink);
          return;
        }
        var flow;
        flow, currentContext, newMessages, pendingMessages, hasMoreToolCalls :=
          Round(firstTurn, currentContext, newMessages, pendingMessages, mode, turns, t, start, whole, sink);
        firstTurn := false;
        t := t + 1;
        if !flow.Proceeds? {
          ended := flow.Stops?;
          return;
        }
      }
      assert pendingMessages == [] && !hasMoreToolCalls;
      pendingMessages := PollForFollowUps(firstTurn, currentContext, newMessages, mode, turns, t, start, whole, sink);
      if pendingMessages == [] {
        break;
      }
    }
    sink.EmitEvent(AgentEnd(newMessages));
    ended := true;
  }

  /** The script is over: the last thing seen is a provider call. */
  method CutOff(
      firstTurn: bool, context: AgentContext, newMessages: seq<Message>, pending: seq<Message>,
      mode: ToolMode, ghost start: seq<Interaction>, ghost whole: Run, sink: Recorder)
    returns (newMessages': seq<Message>, currentContext: AgentContext)
    requires Remaining(start, whole, sink.log,
                       RunTurns(firstTurn, Snapshot(context, newMessages, pending), mode, []))
    modifies context`messages, sink
    ensures currentContext == context
    ensures Then(start, whole) == Run(sink.log, false, Snapshot(currentContext, newMessages', []))
  {
    currentContext := context;
    newMessages' := InjectPending(firstTurn, context, newMessages, pending, sink);
    sink.Record(LlmCall(context.messages));
  }

  /** A prompt run copies the transcript it is given. */
  method RunAgentLoop(
      prompts: seq<Message>, context: AgentContext, mode: ToolMode,
      steering: seq<Message>, turns: seq<TurnEnv>, sink: Recorder)
    returns (ended: bool, newMessages: seq<Message>)
    requires AllAnswer(turns)
    modifies sink
    ensures var run := PromptRun(prompts, Context(context.messages, context.tools), mode, steering, turns);
            && sink.log == old(sink.log) + run.log
            && run.ended == ended
            && run.vars.newMessages == newMessages
  {
    hide Loop, RunTurns, RunTurn, WindDown;
    var currentContext := new AgentContext(context.messages + prompts, context.tools);
    newMessages := prompts;
    sink.EmitEvent(AgentStart);
    sink.EmitEvent(TurnStart);
    AnnounceMessages(prompts, sink);
    ghost var rest := Loop(Snapshot(currentContext, newMessages, []), mode, steering, turns);
    ended, newMessages, currentContext := RunLoop(currentContext, newMessages, mode, steering, turns, sink);
    Associate(old(sink.log), [Emit(AgentStart), Emit(TurnStart)] + MessagesLog(prompts), rest.log);
  }

  /** A continuation works on the very transcript it is given, and what it adds to the conversation
      is added there, unless `prepareNextTurn` puts another one in its place. */
  method RunAgentLoopContinue(
      context: AgentContext, mode: ToolMode, steering: seq<Message>, turns: seq<TurnEnv>, sink: Recorder)
    returns (error: Option<string>, ended: bool, newMessages: seq<Message>)
    requires AllAnswer(turns)
    modifies context`messages, sink
    ensures error == ContinueError(old(context.messages))
    ensures error.Some? ==> sink.log == old(sink.log) && context.messages == old(context.messages)
    ensures error.None? ==>
              var run := ContinueRun(Context(old(context.messages), old(context.tools)), mode, steering, turns);
              && sink.log == old(sink.log) + run.log
              && run.ended == ended
              && run.vars.newMessages == newMessages
              && ((forall t :: 0 <= t < |turns| ==> turns[t].replacement.None?) ==>
                    run.vars.context.messages == context.messages)
  {
    hide Loop, RunTurns, RunTurn, WindDown;
    ended, newMessages := false, [];
    if |context.messages| == 0 {
      return Some("Cannot continue: no messages in context"), ended, newMessages;
    }
    if context.messages[|context.messages| - 1].Assistant? {
      return Some("Cannot continue from message role: assistant"), ended, newMessages;
    }
    error := None;
    var currentContext := context;
    sink.EmitEvent(AgentStart);
    sink.EmitEvent(TurnStart);
    ghost var rest := Loop(Snapshot(currentContext, newMessages, []), mode, steering, turns);
    ended, newMessages, currentContext := RunLoop(currentContext, newMessages, mode, steering, turns, sink);
    Associate(old(sink.log), [Emit(AgentStart), Emit(TurnStart)], rest.log);
  }
}
