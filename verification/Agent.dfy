/** The lifecycle of an `Agent`: one run at a time, from `prompt` or `continue` to `finishRun`, whatever happens in
    between and whoever calls in the meantime. */
module Agent {
  import opened Types
  import opened AgentState
  import opened AgentLoop
  import opened Queues

  /** Where an active run stands: in the loop, or in `handleRunFailure` with `step` of its four events out. */
  datatype Stage = Executing | Failing(failure: Message, step: nat)

  datatype ActiveRun = ActiveRun(aborted: bool, stage: Stage)

  /** The fields of an agent. `stray` holds the ids of the tool calls still running behind a failed run;
      `processed` is what the reducer has been given, `heard` what the listeners have been given. */
  datatype Core = Core(
    state: State,
    activeRun: Option<ActiveRun>,
    steering: Queue,
    followUp: Queue,
    stray: multiset<string>,
    processed: seq<AgentEvent>,
    heard: seq<AgentEvent>)

  /** What `prompt` and `continue` start the loop with. */
  datatype Launch = Launch(request: Request, skipInitialSteeringPoll: bool)

  const BUSY_PROMPT: string :=
    "Agent is already processing a prompt. Use steer() or followUp() to queue messages, or wait for completion."
  const BUSY_CONTINUE: string := "Agent is already processing. Wait for completion before continuing."

  /** The opening part of `runWithLifecycle`. */
  function Begin(c: Core): Core {
    c.(activeRun := Some(ActiveRun(false, Executing)),
       state := c.state.(isStreaming := true, streamingMessage := None, errorMessage := None))
  }

  /** `finishRun`. */
  function Finish(c: Core): Core {
    c.(activeRun := None,
       state := c.state.(isStreaming := false, streamingMessage := None, pendingToolCalls := {}))
  }

  /** `processEvents`: the reducer runs first, and only then is it noticed that there is no run. */
  function Process(c: Core, e: AgentEvent): Core {
    c.(state := Reduce(c.state, e), processed := c.processed + [e],
       heard := if c.activeRun.Some? then c.heard + [e] else c.heard)
  }

  function PromptCall(c: Core, messages: seq<Message>): (Core, Attempt<Launch>) {
    if c.activeRun.Some? then (c, Threw(BUSY_PROMPT))
    else (Begin(c), Returned(Launch(Prompt(messages), false)))
  }

  function ContinueCall(c: Core): (Core, Attempt<Launch>) {
    var messages := c.state.messages;
    if c.activeRun.Some? then (c, Threw(BUSY_CONTINUE))
    else if messages == [] then (c, Threw("No messages to continue from"))
    else if messages[|messages| - 1].Assistant? then
      if DrainedNow(c.steering) != [] then
        (Begin(c.(steering := AfterDrain(c.steering))), Returned(Launch(Prompt(DrainedNow(c.steering)), true)))
      else if DrainedNow(c.followUp) != [] then
        (Begin(c.(followUp := AfterDrain(c.followUp))), Returned(Launch(Prompt(DrainedNow(c.followUp)), false)))
      else (c, Threw("Cannot continue from message role: assistant"))
    else (Begin(c), Returned(Launch(Continue, false)))
  }

  /** The message that stands for a failed run. */
  function FailureMessage(model: Origin, error: string, aborted: bool): Message {
    Assistant(PlainReply([Text("", None)], model, NO_USAGE, if aborted then Aborted else Error, Some(error)))
  }

  /** The four events of `handleRunFailure`. */
  function FailureEvents(failure: Message): seq<AgentEvent> {
    [MessageStart(failure), MessageEnd(failure), TurnEnd(failure, []), AgentEnd([failure])]
  }

  /** `reset`. */
  function ResetCore(c: Core): Core {
    c.(state := State([], false, None, {}, None, c.state.model),
       steering := c.steering.(messages := []), followUp := c.followUp.(messages := []))
  }

  /** Everything that can happen to an agent. `Deliver` is an event emitted by the loop; `Stray` an update or end
      from a tool call that a failed run left running; `Fail` one event of the failure handling, with a listener
      throwing or not. */
  datatype Happening =
    | PromptAgent(messages: seq<Message>)
    | ContinueAgent
    | Steer(message: Message)
    | FollowUp(message: Message)
    | SetModes(steeringMode: QueueMode, followUpMode: QueueMode)
    | Abort
    | ResetAgent
    | Deliver(event: AgentEvent)
    | PollSteeringQueue
    | PollFollowUpQueue
    | Return
    | Throw(error: string, left: multiset<string>)
    | Fail(throws: bool)
    | Settle
    | StrayEvent(event: AgentEvent)

  predicate IsExecuting(c: Core) {
    c.activeRun.Some? && c.activeRun.value.stage.Executing?
  }

  predicate IsFailing(c: Core) {
    c.activeRun.Some? && c.activeRun.value.stage.Failing?
  }

  predicate IsStrayEvent(c: Core, e: AgentEvent) {
    (e.ToolUpdate? || e.ToolEnd?) && e.id in c.stray
  }

  /** The application may call at any time, but resets only an idle agent. */
  predicate Possible(c: Core, a: Happening) {
    match a
    case ResetAgent => c.activeRun.None?
    case Deliver(_) => IsExecuting(c)
    case PollSteeringQueue => IsExecuting(c)
    case PollFollowUpQueue => IsExecuting(c)
    case Return => IsExecuting(c)
    case Throw(_, _) => IsExecuting(c)
    case Fail(_) => IsFailing(c) && c.activeRun.value.stage.step < 4
    case Settle => IsFailing(c) && c.activeRun.value.stage.step == 4
    case StrayEvent(e) => IsStrayEvent(c, e)
    case _ => true
  }

  function Act(c: Core, a: Happening): Core
    requires Possible(c, a)
  {
    match a
    case PromptAgent(messages) => PromptCall(c, messages).0
    case ContinueAgent => ContinueCall(c).0
    case Steer(m) => c.(steering := Play(c.steering, Enqueue(m)))
    case FollowUp(m) => c.(followUp := Play(c.followUp, Enqueue(m)))
    case SetModes(s, f) => c.(steering := c.steering.(mode := s), followUp := c.followUp.(mode := f))
    case Abort => if c.activeRun.Some? then c.(activeRun := Some(c.activeRun.value.(aborted := true))) else c
    case ResetAgent => ResetCore(c)
    case Deliver(e) => Process(c, e)
    case PollSteeringQueue => c.(steering := AfterDrain(c.steering))
    case PollFollowUpQueue => c.(followUp := AfterDrain(c.followUp))
    case Return => Finish(c)
    case Throw(error, left) =>
      var run := c.activeRun.value;
      var failure := FailureMessage(c.state.model, error, run.aborted);
      c.(activeRun := Some(run.(stage := Failing(failure, 0))), stray := c.stray + left)
    case Fail(throws) =>
      var Failing(failure, step) := c.activeRun.value.stage;
      var c' := Process(c, FailureEvents(failure)[step]);
      if throws then Finish(c') else c'.(activeRun := Some(c.activeRun.value.(stage := Failing(failure, step + 1))))
    case Settle => Finish(c)
    case StrayEvent(e) =>
      var c' := Process(c, e);
      if e.ToolEnd? then c'.(stray := c.stray - multiset{e.id}) else c'
  }

  predicate AllPossible(c: Core, actions: seq<Happening>)
    decreases |actions|
  {
    actions == [] || (Possible(c, actions[0]) && AllPossible(Act(c, actions[0]), actions[1..]))
  }

  function ActAll(c: Core, actions: seq<Happening>): Core
    requires AllPossible(c, actions)
    decreases |actions|
  {
    if actions == [] then c else ActAll(Act(c, actions[0]), actions[1..])
  }

  lemma {:induction false} ActAllConcat(c: Core, a: seq<Happening>, b: seq<Happening>)
    requires AllPossible(c, a + b)
    ensures AllPossible(c, a) && AllPossible(ActAll(c, a), b) && ActAll(c, a + b) == ActAll(ActAll(c, a), b)
    decreases |a|
  {
    hide Act, Possible;
    if a == [] {
      assert a + b == b;
    } else {
      assert (a + b)[1..] == a[1..] + b;
      ActAllConcat(Act(c, a[0]), a[1..], b);
    }
  }

  lemma ActOne(c: Core, a: Happening)
    requires AllPossible(c, [a])
    ensures Possible(c, a) && ActAll(c, [a]) == Act(c, a)
  {
    hide Act, Possible;
    assert [a][1..] == [];
  }

  /** One happening after the others. */
  lemma ActNext(c: Core, actions: seq<Happening>, k: nat)
    requires AllPossible(c, actions) && k < |actions|
    ensures AllPossible(c, actions[..k]) && AllPossible(c, actions[..k + 1])
    ensures Possible(ActAll(c, actions[..k]), actions[k])
    ensures ActAll(c, actions[..k + 1]) == Act(ActAll(c, actions[..k]), actions[k])
  {
    hide Act, Possible, ActAll, AllPossible;
    assert actions[..k + 1] + actions[k + 1..] == actions;
    ActAllConcat(c, actions[..k + 1], actions[k + 1..]);
    assert actions[..k] + [actions[k]] == actions[..k + 1];
    ActAllConcat(c, actions[..k], [actions[k]]);
    ActOne(ActAll(c, actions[..k]), actions[k]);
  }

  /** The happenings by which a run comes to its end. */
  predicate EndsRun(a: Happening) {
    a.Return? || a.Throw? || a.Settle? || a == Fail(true)
  }

  ghost predicate NothingEnds(actions: seq<Happening>) {
    forall k :: 0 <= k < |actions| ==> !EndsRun(actions[k])
  }

  /** The failure handling, when the listeners throw at the event with the given number, if there is one. */
  function FailureActions(throwsAt: nat): seq<Happening> {
    if throwsAt < 4 then seq(throwsAt, i => Fail(false)) + [Fail(true)] else seq(4, i => Fail(false)) + [Settle]
  }

  /** The end of a run: it returns, or it throws and the failure is handled. */
  function Ending(error: Option<string>, left: multiset<string>, throwsAt: nat): seq<Happening> {
    if error.None? then [Return] else [Throw(error.value, left)] + FailureActions(throwsAt)
  }

  // ----- The agent as an object -----

  class Agent {
    var state: State
    var activeRun: Option<ActiveRun>
    const steeringQueue: PendingMessageQueue
    const followUpQueue: PendingMessageQueue
    var stray: multiset<string>
    var processed: seq<AgentEvent>
    var heard: seq<AgentEvent>

    function Fields(): Core
      reads this, steeringQueue, followUpQueue
    {
      Core(state, activeRun, steeringQueue.Contents(), followUpQueue.Contents(), stray, processed, heard)
    }

    predicate Valid()
      reads this
    {
      steeringQueue != followUpQueue
    }

    constructor (messages: seq<Message>, model: Origin, steeringMode: QueueMode, followUpMode: QueueMode)
      ensures Valid() && fresh(steeringQueue) && fresh(followUpQueue)
      ensures Fields()
           == Core(State(messages, false, None, {}, None, model), None, Queue([], steeringMode),
                   Queue([], followUpMode), multiset{}, [], [])
    {
      state := State(messages, false, None, {}, None, model);
      activeRun := None;
      steeringQueue := new PendingMessageQueue(steeringMode);
      followUpQueue := new PendingMessageQueue(followUpMode);
      stray, processed, heard := multiset{}, [], [];
    }

    method Steer(message: Message)
      requires Valid()
      modifies steeringQueue
      ensures steeringQueue.messages == old(steeringQueue.messages) + [message]
      ensures Fields() == Act(old(Fields()), Happening.Steer(message))
    {
      steeringQueue.Enqueue(message);
    }

    method FollowUp(message: Message)
      requires Valid()
      modifies followUpQueue
      ensures followUpQueue.messages == old(followUpQueue.messages) + [message]
      ensures Fields() == Act(old(Fields()), Happening.FollowUp(message))
    {
      followUpQueue.Enqueue(message);
    }

    method Abort()
      modifies this`activeRun
      ensures activeRun == if old(activeRun).None? then None else Some(ActiveRun(true, old(activeRun).value.stage))
      ensures Fields() == Act(old(Fields()), Happening.Abort)
    {
      if activeRun.Some? {
        activeRun := Some(activeRun.value.(aborted := true));
      }
    }

    method Reset()
      requires Valid()
      modifies this`state, steeringQueue`messages, followUpQueue`messages
      ensures state == State([], false, None, {}, None, old(state.model))
      ensures steeringQueue.messages == [] && followUpQueue.messages == []
      ensures Fields() == ResetCore(old(Fields()))
    {
      state := state.(messages := []);
      state := state.(isStreaming := false);
      state := state.(streamingMessage := None);
      state := state.(pendingToolCalls := {});
      state := state.(errorMessage := None);
      followUpQueue.Clear();
      steeringQueue.Clear();
    }

    /** The part of `prompt` before the loop is entered. */
    method Prompt(messages: seq<Message>) returns (launch: Attempt<Launch>)
      requires Valid()
      modifies this
      ensures launch
           == if old(activeRun).Some? then Threw(BUSY_PROMPT) else Returned(Launch(Request.Prompt(messages), false))
      ensures launch.Threw? ==> Fields() == old(Fields())
      ensures launch.Returned? ==> Begun(old(state))
      ensures (Fields(), launch) == PromptCall(old(Fields()), messages)
    {
      if activeRun.Some? {
        return Threw(BUSY_PROMPT);
      }
      BeginRun();
      launch := Returned(Launch(Request.Prompt(messages), false));
    }

    /** The part of `continue` before the loop is entered. */
    method Continue() returns (launch: Attempt<Launch>)
      requires Valid()
      modifies this, steeringQueue, followUpQueue
      ensures launch.Returned? ==> Begun(old(state))
      ensures (Fields(), launch) == ContinueCall(old(Fields()))
    {
      if activeRun.Some? {
        return Threw(BUSY_CONTINUE);
      }
      if |state.messages| == 0 {
        return Threw("No messages to continue from");
      }
      if state.messages[|state.messages| - 1].Assistant? {
        var queuedSteering := steeringQueue.Drain();
        if queuedSteering != [] {
          BeginRun();
          return Returned(Launch(Request.Prompt(queuedSteering), true));
        }
        var queuedFollowUps := followUpQueue.Drain();
        if queuedFollowUps != [] {
          BeginRun();
          return Returned(Launch(Request.Prompt(queuedFollowUps), false));
        }
        return Threw("Cannot continue from message role: assistant");
      }
      BeginRun();
      launch := Returned(Launch(Request.Continue, false));
    }

    /** A run has just begun from this state: it is not aborted, the agent streams, and nothing of an earlier run is
        shown any more. */
    predicate Begun(before: State)
      reads this
    {
      && activeRun == Some(ActiveRun(false, Executing))
      && state.isStreaming && state.streamingMessage.None? && state.errorMessage.None?
      && state.messages == before.messages && state.pendingToolCalls == before.pendingToolCalls
      && state.model == before.model
    }

    method BeginRun()
      modifies this`activeRun, this`state
      ensures Begun(old(state))
      ensures Fields() == Begin(old(Fields()))
    {
      activeRun := Some(ActiveRun(false, Executing));
      state := state.(isStreaming := true);
      state := state.(streamingMessage := None);
      state := state.(errorMessage := None);
    }

    method FinishRun()
      modifies this`activeRun, this`state
      ensures activeRun.None? && !state.isStreaming && state.streamingMessage.None? && state.pendingToolCalls == {}
      ensures state.messages == old(state.messages) && state.errorMessage == old(state.errorMessage)
      ensures Fields() == Finish(old(Fields()))
    {
      state := state.(isStreaming := false);
      state := state.(streamingMessage := None);
      state := state.(pendingToolCalls := {});
      activeRun := None;
    }

    method ProcessEvents(event: AgentEvent) returns (error: Option<string>)
      modifies this
      ensures Fields() == Process(old(Fields()), event)
      ensures processed == old(processed) + [event]
      ensures heard == if old(activeRun).Some? then old(heard) + [event] else old(heard)
      ensures error == if old(activeRun).Some? then None else Some("Agent listener invoked outside active run")
    {
      hide Begin, Finish, PromptCall, ContinueCall, Act;
      ghost var before := state;
      match event {
        case MessageStart(m) => state := state.(streamingMessage := Some(m));
        case MessageUpdate(m) => state := state.(streamingMessage := Some(m));
        case MessageEnd(m) => state := state.(streamingMessage := None, messages := state.messages + [m]);
        case ToolStart(id, _, _) => state := state.(pendingToolCalls := state.pendingToolCalls + {id});
        case ToolEnd(id, _, _, _) => state := state.(pendingToolCalls := state.pendingToolCalls - {id});
        case TurnEnd(m, _) =>
          if m.Assistant? && m.reply.errorMessage.Some? && m.reply.errorMessage.value != "" {
            state := state.(errorMessage := m.reply.errorMessage);
          }
        case AgentEnd(_) => state := state.(streamingMessage := None);
        case _ =>
      }
      assert state == Reduce(before, event);
      processed := processed + [event];
      if activeRun.None? {
        return Some("Agent listener invoked outside active run");
      }
      heard := heard + [event];
      error := None;
    }

    method SetModes(steeringMode: QueueMode, followUpMode: QueueMode)
      requires Valid()
      modifies steeringQueue, followUpQueue
      ensures Fields() == Act(old(Fields()), Happening.SetModes(steeringMode, followUpMode))
    {
      steeringQueue.mode := steeringMode;
      followUpQueue.mode := followUpMode;
    }

    /** Whatever happens next, short of the end of a run and of its failure handling. */
    method Perform(a: Happening)
      requires Valid() && Possible(Fields(), a) && !EndsRun(a) && !a.Fail?
      modifies this, steeringQueue, followUpQueue
      ensures Fields() == Act(old(Fields()), a)
    {
      hide PromptCall, ContinueCall, ResetCore, AfterDrain, Reduce, IsStrayEvent;
      match a {
        case PromptAgent(messages) => var _ := Prompt(messages);
        case ContinueAgent => var _ := Continue();
        case Steer(m) => Steer(m);
        case FollowUp(m) => FollowUp(m);
        case SetModes(s, f) => SetModes(s, f);
        case Abort => Abort();
        case ResetAgent => Reset();
        case Deliver(e) => var _ := ProcessEvents(e);
        case PollSteeringQueue => var _ := steeringQueue.Drain();
        case PollFollowUpQueue => var _ := followUpQueue.Drain();
        case StrayEvent(e) =>
          var _ := ProcessEvents(e);
          if e.ToolEnd? {
            stray := stray - multiset{e.id};
          }
      }
    }

    /** `runWithLifecycle`, with all that happens while the loop runs, and with listeners that may throw while a failure
        is handled. */
    method RunWithLifecycle(during: seq<Happening>, error: Option<string>, left: multiset<string>, throwsAt: nat)
      requires Valid() && activeRun.None?
      requires NothingEnds(during) && forall k :: 0 <= k < |during| ==> !during[k].Fail?
      requires AllPossible(Begin(Fields()), during + Ending(error, left, throwsAt))
      modifies this, steeringQueue, followUpQueue
      ensures Fields() == ActAll(Begin(old(Fields())), during + Ending(error, left, throwsAt))
    {
      hide Act, ActAll, AllPossible, Begin, Finish, Possible, Ending, EndsRun;
      ghost var begun := Begin(Fields());
      ActAllConcat(begun, during, Ending(error, left, throwsAt));
      BeginRun();
      NothingYet(begun);
      for k := 0 to |during|
        invariant AllPossible(begun, during[..k]) && Fields() == ActAll(begun, during[..k])
      {
        ActNext(begun, during, k);
        Perform(during[k]);
      }
      assert during[..|during|] == during;
      EndRun(error, left, throwsAt);
    }

    /** The `catch` and `finally` of `runWithLifecycle`. */
    method EndRun(error: Option<string>, left: multiset<string>, throwsAt: nat)
      requires AllPossible(Fields(), Ending(error, left, throwsAt))
      modifies this
      ensures Fields() == ActAll(old(Fields()), Ending(error, left, throwsAt))
    {
      hide Finish, Process, FailureMessage;
      ghost var c := Fields();
      ghost var ending := Ending(error, left, throwsAt);
      if error.Some? {
        ActNext(c, ending, 0);
        assert ending[..0] == [];
        NothingYet(c);
        var failure := FailureMessage(state.model, error.value, activeRun.value.aborted);
        activeRun := Some(activeRun.value.(stage := Failing(failure, 0)));
        stray := stray + left;
        HandleRunFailure(failure, c, ending, throwsAt);
      } else {
        ActOne(c, Return);
      }
      FinishRun();
    }

    /** `handleRunFailure`: its four events, or those up to the one at which a listener throws. The last happening of
        the history, which also finishes the run, is still to come. */
    method HandleRunFailure(failure: Message, ghost c: Core, ghost ending: seq<Happening>, throwsAt: nat)
      requires AllPossible(c, ending) && |ending| > 1 && ending[1..] == FailureActions(throwsAt)
      requires IsFailing(Fields()) && activeRun.value.stage == Failing(failure, 0)
      requires ActAll(c, ending[..1]) == Fields()
      modifies this
      ensures Finish(Fields()) == ActAll(c, ending)
    {
      hide Finish, Reduce, FailureMessage, FailureActions, ActAll, AllPossible, FailureEvents;
      var step := 0;
      assert ending[..1] + ending[1..] == ending;
      ActAllConcat(c, ending[..1], ending[1..]);
      while step < 4 && step < throwsAt
        invariant step <= 4 && step <= throwsAt && step + 1 < |ending|
        invariant IsFailing(Fields()) && activeRun.value.stage == Failing(failure, step)
        invariant AllPossible(c, ending[..step + 1]) && ActAll(c, ending[..step + 1]) == Fields()
      {
        ActionAt(ending, throwsAt, step);
        ActionAt(ending, throwsAt, step + 1);
        ActNext(c, ending, step + 1);
        EmitFailure(failure, step);
        step := step + 1;
        activeRun := Some(activeRun.value.(stage := Failing(failure, step)));
      }
      ActionAt(ending, throwsAt, step);
      ActNext(c, ending, step + 1);
      assert ending[..|ending|] == ending;
      if step < 4 {
        EmitFailure(failure, step);
      }
    }

    method EmitFailure(failure: Message, step: nat)
      requires step < 4
      modifies this
      ensures Fields() == Process(old(Fields()), FailureEvents(failure)[step])
    {
      hide Process;
      var event := match step
                   case 0 => MessageStart(failure)
                   case 1 => MessageEnd(failure)
                   case 2 => TurnEnd(failure, [])
                   case _ => AgentEnd([failure]);
      var _ := ProcessEvents(event);
    }
  }

  lemma NothingYet(c: Core)
    ensures AllPossible(c, []) && ActAll(c, []) == c
  {
  }

  lemma ActionAt(ending: seq<Happening>, throwsAt: nat, step: nat)
    requires |ending| > 1 && ending[1..] == FailureActions(throwsAt) && step <= 4 && step <= throwsAt
    ensures step + 1 < |ending|
    ensures ending[step + 1]
         == if step < throwsAt && step < 4 then Fail(false) else if step < 4 then Fail(true) else Settle
    ensures step == throwsAt || step == 4 ==> |ending| == step + 2
  {
    assert ending[step + 1] == FailureActions(throwsAt)[step];
  }
}
