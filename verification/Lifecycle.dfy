/** What holds of an agent over every history of calls, events and failures. */
module Lifecycle {
  import opened Types
  import opened AgentState
  import opened AgentLoop
  import opened Queues
  import opened Agent

  /** Streaming exactly while a run is active, and no traces of a run when none is. */
  ghost predicate Inv(c: Core) {
    && (c.state.isStreaming <==> c.activeRun.Some?)
    && (c.activeRun.None? ==> c.state.streamingMessage.None? && c.state.pendingToolCalls == {})
  }

  lemma ActKeepsInv(c: Core, a: Happening)
    requires Inv(c) && Possible(c, a)
    ensures Inv(Act(c, a))
  {
  }

  lemma {:induction false} LifecycleIsSafe(c: Core, actions: seq<Happening>)
    requires Inv(c) && AllPossible(c, actions)
    ensures Inv(ActAll(c, actions))
    decreases |actions|
  {
    hide Inv, Act, Possible;
    if actions != [] {
      ActKeepsInv(c, actions[0]);
      LifecycleIsSafe(Act(c, actions[0]), actions[1..]);
    }
  }

  /** `reset` is safe exactly on an idle agent: during a run it would end streaming but not the run. */
  lemma ResetOnlyWhenIdle(c: Core)
    requires Inv(c)
    ensures Inv(ResetCore(c)) <==> c.activeRun.None?
  {
  }

  /** `continue` keeps the rules for starting the loop: a continuation never starts behind an assistant message, and a
      prompt is never empty. What it drains from a queue, it prompts with. */
  lemma ContinueStartsLegally(c: Core)
    ensures match ContinueCall(c).1
            case Threw(_) => true
            case Returned(Launch(Continue, skip)) => ContinueError(c.state.messages).None? && !skip
            case Returned(Launch(Prompt(prompts), skip)) =>
              var c' := ContinueCall(c).0;
              && prompts != []
              && (if skip then prompts + c'.steering.messages == c.steering.messages && c'.followUp == c.followUp
                  else prompts + c'.followUp.messages == c.followUp.messages && c'.steering == c.steering)
  {
  }

  /** The application may call at any time, but reset only an idle agent; a run that executes may go on, return or throw
      at any time; and the handling of a failure goes on to its end, with listeners that throw or not. */
  lemma NothingIsInTheWay(c: Core, messages: seq<Message>, m: Message, s: QueueMode, f: QueueMode)
    ensures Possible(c, PromptAgent(messages)) && Possible(c, ContinueAgent) && Possible(c, Steer(m))
    ensures Possible(c, FollowUp(m)) && Possible(c, SetModes(s, f)) && Possible(c, Abort)
    ensures c.activeRun.None? ==> Possible(c, ResetAgent)
    ensures IsFailing(c) && c.activeRun.value.stage.step < 4 ==> Possible(c, Fail(false)) && Possible(c, Fail(true))
    ensures IsFailing(c) && c.activeRun.value.stage.step == 4 ==> Possible(c, Settle)
    ensures IsExecuting(c) ==>
              && (forall e :: Possible(c, Deliver(e)))
              && Possible(c, PollSteeringQueue) && Possible(c, PollFollowUpQueue)
              && Possible(c, Return) && forall error, left :: Possible(c, Throw(error, left))
    ensures forall e: AgentEvent :: (e.ToolEnd? || e.ToolUpdate?) && e.id in c.stray ==> Possible(c, StrayEvent(e))
  {
  }

  /** `continue` is refused exactly during a run, on an empty transcript, and behind an assistant message with nothing
      queued; it then changes nothing. */
  lemma ContinueIsRefused(c: Core)
    ensures var messages := c.state.messages;
            var (c', launch) := ContinueCall(c);
            && (launch.Threw? ==> c' == c)
            && (launch.Threw? <==>
                  || c.activeRun.Some? || messages == []
                  || (messages[|messages| - 1].Assistant? && c.steering.messages == [] && c.followUp.messages == []))
            && (launch.Returned? && launch.value.request.Continue? <==>
                  c.activeRun.None? && messages != [] && !messages[|messages| - 1].Assistant?)
            && (launch.Returned? && launch.value.skipInitialSteeringPoll <==>
                  && c.activeRun.None? && messages != [] && messages[|messages| - 1].Assistant?
                  && c.steering.messages != [])
  {
    if ContinueCall(c).1.Returned? {
      assert ContinueCall(c).0.activeRun != c.activeRun;
    }
  }

  /** Behind an assistant message, `continue` takes what the mode of the queue allows: everything, or the first message
      alone. The follow-up queue is looked at only if nothing is queued for steering. */
  lemma ContinueTakesByMode(c: Core)
    ensures match ContinueCall(c).1
            case Returned(Launch(Prompt(prompts), skip)) =>
              var (q, q') := if skip then (c.steering, ContinueCall(c).0.steering)
                             else (c.followUp, ContinueCall(c).0.followUp);
              && (q.mode.All? ==> prompts == q.messages && q'.messages == [])
              && (q.mode.OneAtATime? ==> |prompts| == 1 && prompts + q'.messages == q.messages)
              && (!skip ==> c.steering.messages == [])
            case _ => true
  {
  }

  // ----- A run -----

  /** The events the loop emits in a history. */
  function Delivered(actions: seq<Happening>): seq<AgentEvent> {
    if actions == [] then []
    else (if actions[0].Deliver? then [actions[0].event] else []) + Delivered(actions[1..])
  }

  lemma {:induction false} CompletedConcat(a: seq<AgentEvent>, b: seq<AgentEvent>)
    ensures Completed(a + b) == Completed(a) + Completed(b)
  {
    if b == [] {
      assert a + b == a;
    } else {
      assert (a + b)[..|a + b| - 1] == a + b[..|b| - 1];
      CompletedConcat(a, b[..|b| - 1]);
    }
  }

  lemma CompletedOne(e: AgentEvent)
    ensures Completed([e]) == if e.MessageEnd? then [e.message] else []
  {
    assert [e][..0] == [];
  }

  predicate ReportsError(m: Message) {
    m.Assistant? && m.reply.errorMessage.Some? && m.reply.errorMessage.value != ""
  }

  /** The last error reported by these events, or else the one before them. */
  function Latest(events: seq<AgentEvent>, before: Option<string>): Option<string> {
    if LastError(events).Some? then LastError(events) else before
  }

  lemma {:induction false} LatestFirst(e: AgentEvent, events: seq<AgentEvent>, before: Option<string>)
    ensures Latest([e] + events, before) == Latest(events, Latest([e], before))
  {
    if events == [] {
      assert [e] + events == [e];
    } else {
      var n := |events| - 1;
      assert ([e] + events)[..n + 1] == [e] + events[..n] && ([e] + events)[n + 1] == events[n];
      LatestFirst(e, events[..n], before);
    }
  }

  lemma ErrorOfOne(s: State, e: AgentEvent)
    ensures Reduce(s, e).errorMessage == Latest([e], s.errorMessage)
  {
    assert [e][..0] == [];
    ErrorIsLastReported(s, [e]);
  }

  /** One action within a run: the loop's own, or anything the application or a stray tool call does meanwhile. */
  lemma ActWhileExecuting(c: Core, a: Happening)
    requires IsExecuting(c) && Possible(c, a) && !EndsRun(a)
    ensures var c' := Act(c, a);
            && IsExecuting(c')
            && c'.state.model == c.state.model
            && c'.activeRun.value.aborted == (c.activeRun.value.aborted || a.Abort?)
            && c'.state.messages
            == c.state.messages + (if a.Deliver? && a.event.MessageEnd? then [a.event.message] else [])
            && c'.state.errorMessage
            == (if a.Deliver? then Latest([a.event], c.state.errorMessage) else c.state.errorMessage)
            && (c.stray == multiset{} ==>
                  c'.stray == multiset{} && c'.heard == c.heard + if a.Deliver? then [a.event] else [])
  {
    hide Latest;
    if a.Deliver? {
      ErrorOfOne(c.state, a.event);
    }
  }

  lemma {:induction false} WhileExecuting(c: Core, actions: seq<Happening>)
    requires IsExecuting(c) && AllPossible(c, actions) && NothingEnds(actions)
    ensures var c' := ActAll(c, actions);
            && IsExecuting(c')
            && c'.state.model == c.state.model
            && c'.activeRun.value.aborted == (c.activeRun.value.aborted || Abort in actions)
            && c'.state.messages == c.state.messages + Completed(Delivered(actions))
            && c'.state.errorMessage == Latest(Delivered(actions), c.state.errorMessage)
            && (c.stray == multiset{} ==> c'.stray == multiset{} && c'.heard == c.heard + Delivered(actions))
    decreases |actions|
  {
    hide Act, Possible, EndsRun, Completed, Latest;
    if actions == [] {
      CompletedNone();
      assert Latest([], c.state.errorMessage) == c.state.errorMessage by { NoError(c.state.errorMessage); }
      assert c.state.messages + [] == c.state.messages && c.heard + [] == c.heard;
    } else {
      var a, c1 := actions[0], Act(c, actions[0]);
      var head := if a.Deliver? then [a.event] else [];
      ActWhileExecuting(c, a);
      WhileExecuting(c1, actions[1..]);
      CompletedConcat(head, Delivered(actions[1..]));
      if a.Deliver? {
        LatestFirst(a.event, Delivered(actions[1..]), c.state.errorMessage);
      } else {
        assert head + Delivered(actions[1..]) == Delivered(actions[1..]);
      }
      CompletedNone();
      if a.Deliver? {
        CompletedOne(a.event);
      }
      Associate(c.state.messages, Completed(head), Completed(Delivered(actions[1..])));
      Associate(c.heard, head, Delivered(actions[1..]));
    }
  }

  lemma NoError(before: Option<string>)
    ensures Latest([], before) == before
  {
  }

  lemma CompletedNone()
    ensures Completed([]) == []
  {
  }

  /** A failing run: which part of the failure handling the transcript has seen. */
  ghost predicate FailingFrom(c: Core, messages: seq<Message>, failure: Message) {
    && IsFailing(c) && c.activeRun.value.stage.failure == failure && c.activeRun.value.stage.step <= 4
    && c.state.messages == messages + (if c.activeRun.value.stage.step >= 2 then [failure] else [])
    && (c.activeRun.value.stage.step >= 3 && ReportsError(failure) ==>
          c.state.errorMessage == failure.reply.errorMessage)
  }

  /** As far as listeners go, when no tool call was left running. */
  ghost predicate HeardWhileFailing(c: Core, heard: seq<AgentEvent>)
    requires IsFailing(c) && c.activeRun.value.stage.step <= 4
  {
    var Failing(failure, step) := c.activeRun.value.stage;
    c.stray == multiset{} && c.heard == heard + FailureEvents(failure)[..step]
  }

  /** One event of the failure handling, no listener throwing. */
  lemma FailStep(c: Core, messages: seq<Message>, heard: seq<AgentEvent>, failure: Message)
    requires FailingFrom(c, messages, failure) && Possible(c, Fail(false))
    ensures FailingFrom(Act(c, Fail(false)), messages, failure)
    ensures HeardWhileFailing(c, heard) ==> HeardWhileFailing(Act(c, Fail(false)), heard)
  {
    hide PromptCall, ContinueCall, Begin, Finish, ResetCore, Play, AfterDrain;
    var step, events := c.activeRun.value.stage.step, FailureEvents(failure);
    assert events[..step + 1] == events[..step] + [events[step]];
    Associate(heard, events[..step], [events[step]]);
  }

  lemma ActWhileFailing(c: Core, a: Happening, messages: seq<Message>, heard: seq<AgentEvent>, failure: Message)
    requires FailingFrom(c, messages, failure) && Possible(c, a) && !EndsRun(a)
    ensures FailingFrom(Act(c, a), messages, failure)
    ensures HeardWhileFailing(c, heard) ==> HeardWhileFailing(Act(c, a), heard)
  {
    hide FailureEvents, FailureMessage, Finish, Begin;
    if a.Fail? {
      FailStep(c, messages, heard, failure);
    } else if a.StrayEvent? {
      assert c.stray != multiset{};
    }
  }

  lemma {:induction false} WhileFailing(
      c: Core, actions: seq<Happening>, messages: seq<Message>, heard: seq<AgentEvent>, failure: Message)
    requires FailingFrom(c, messages, failure) && AllPossible(c, actions) && NothingEnds(actions)
    ensures FailingFrom(ActAll(c, actions), messages, failure)
    ensures HeardWhileFailing(c, heard) ==> HeardWhileFailing(ActAll(c, actions), heard)
    decreases |actions|
  {
    hide Act, Possible, EndsRun, FailingFrom, HeardWhileFailing;
    if actions != [] {
      ActWhileFailing(c, actions[0], messages, heard, failure);
      WhileFailing(Act(c, actions[0]), actions[1..], messages, heard, failure);
    }
  }

  /** No tool call is left running, and nothing of a run remains. */
  predicate IsIdle(c: Core) {
    c.activeRun.None? && !c.state.isStreaming && c.state.streamingMessage.None? && c.state.pendingToolCalls == {}
  }

  /** A run that returns, whatever the application does meanwhile: afterwards the agent is idle, its transcript is the
      old one and all messages completed, and the listeners have heard the events of the loop. */
  lemma SuccessfulRun(c: Core, during: seq<Happening>)
    requires IsExecuting(c) && NothingEnds(during) && AllPossible(c, during + [Return])
    ensures var c' := ActAll(c, during + [Return]);
            && IsIdle(c')
            && c'.state.messages == c.state.messages + Completed(Delivered(during))
            && c'.state.errorMessage == Latest(Delivered(during), c.state.errorMessage)
            && (c.stray == multiset{} ==> c'.heard == c.heard + Delivered(during))
  {
    hide ActAll, AllPossible, Completed, Delivered;
    ActAllConcat(c, during, [Return]);
    WhileExecuting(c, during);
    ActOne(ActAll(c, during), Return);
  }

  /** An assistant message of this model, with one empty text and no usage, that carries the error and says whether the
      run had been aborted. */
  predicate SaysFailure(m: Message, model: Origin, error: string, aborted: bool) {
    && m.Assistant? && m.reply.origin == model && m.reply.content == [Block.Text("", None)]
    && m.reply.usage == Usage(0, 0, 0, 0, 0) && m.reply.errorMessage == Some(error)
    && (if aborted then m.reply.stopReason == Aborted else m.reply.stopReason == StopReason.Error)
    && m.reply.responseModel.None? && m.reply.responseId.None? && m.reply.diagnostics.None?
  }

  lemma FailureIsSaid(model: Origin, error: string, aborted: bool)
    ensures SaysFailure(FailureMessage(model, error, aborted), model, error, aborted)
    ensures error != "" ==> ReportsError(FailureMessage(model, error, aborted))
  {
  }

  lemma ThrowStartsFailing(c: Core, error: string, left: multiset<string>)
    requires IsExecuting(c)
    ensures var c' := Act(c, Throw(error, left));
            var failure := FailureMessage(c.state.model, error, c.activeRun.value.aborted);
            && FailingFrom(c', c.state.messages, failure)
            && (c.stray == multiset{} && left == multiset{} ==> HeardWhileFailing(c', c.heard))
  {
    hide FailureMessage, ReportsError;
    var failure := FailureMessage(c.state.model, error, c.activeRun.value.aborted);
    assert c.state.messages + [] == c.state.messages && FailureEvents(failure)[..0] == [] && c.heard + [] == c.heard;
    assert c.stray + multiset{} == c.stray;
  }

  lemma SettleEndsFailing(c: Core, messages: seq<Message>, heard: seq<AgentEvent>, failure: Message)
    requires FailingFrom(c, messages, failure) && Possible(c, Settle)
    ensures var c' := Act(c, Settle);
            && IsIdle(c') && c'.state.messages == messages + [failure]
            && (ReportsError(failure) ==> c'.state.errorMessage == failure.reply.errorMessage)
            && (HeardWhileFailing(c, heard) ==>
                  c'.heard
                  == heard + [MessageStart(failure), MessageEnd(failure), TurnEnd(failure, []), AgentEnd([failure])])
  {
    hide FailureMessage, ReportsError;
    assert FailureEvents(failure)[..4] == FailureEvents(failure);
  }

  /** A run that throws at any point, with `left` the tool calls still running, when no listener throws while the
      failure is handled, and whatever the application and those calls do meanwhile: afterwards the agent is idle, and
      its transcript is the old one, all messages completed, and one failure message. If no tool call was left
      running, the listeners have heard the loop's events and then the four of the failure handling. The message says
      whether the run had been aborted when it failed. */
  lemma FailedRun(
      c: Core, during: seq<Happening>, error: string, left: multiset<string>, after: seq<Happening>)
    requires IsExecuting(c) && NothingEnds(during) && NothingEnds(after)
    requires AllPossible(c, during + [Throw(error, left)] + after + [Settle])
    ensures var c' := ActAll(c, during + [Throw(error, left)] + after + [Settle]);
            var failure := FailureMessage(c.state.model, error, c.activeRun.value.aborted || Abort in during);
            && IsIdle(c')
            && c'.state.messages == c.state.messages + Completed(Delivered(during)) + [failure]
            && SaysFailure(failure, c.state.model, error, c.activeRun.value.aborted || Abort in during)
            && (error != "" ==> c'.state.errorMessage == Some(error))
            && (c.stray == multiset{} && left == multiset{} ==>
                  c'.heard
                  == c.heard + Delivered(during)
                       + [MessageStart(failure), MessageEnd(failure), TurnEnd(failure, []), AgentEnd([failure])])
  {
    hide ActAll, AllPossible, Completed, Delivered, FailureMessage, ReportsError, FailingFrom, HeardWhileFailing, Act,
         Possible;
    FailureIsSaid(c.state.model, error, c.activeRun.value.aborted || Abort in during);
    var throw := Throw(error, left);
    ActAllConcat(c, during + [throw] + after, [Settle]);
    ActAllConcat(c, during + [throw], after);
    ActAllConcat(c, during, [throw]);
    WhileExecuting(c, during);
    var c1 := ActAll(c, during);
    ActOne(c1, throw);
    var c2 := Act(c1, throw);
    var failure := FailureMessage(c.state.model, error, c1.activeRun.value.aborted);
    ThrowStartsFailing(c1, error, left);
    WhileFailing(c2, after, c1.state.messages, c1.heard, failure);
    var c3 := ActAll(c2, after);
    ActOne(c3, Settle);
    SettleEndsFailing(c3, c1.state.messages, c1.heard, failure);
  }

  // ----- The end of a run, seen by listeners -----

  function AgentEnds(events: seq<AgentEvent>): nat {
    if events == [] then 0
    else AgentEnds(events[..|events| - 1]) + if events[|events| - 1].AgentEnd? then 1 else 0
  }

  lemma {:induction false} AgentEndsConcat(a: seq<AgentEvent>, b: seq<AgentEvent>)
    ensures AgentEnds(a + b) == AgentEnds(a) + AgentEnds(b)
  {
    if b == [] {
      assert a + b == a;
    } else {
      assert (a + b)[..|a + b| - 1] == a + b[..|b| - 1];
      AgentEndsConcat(a, b[..|b| - 1]);
    }
  }

  lemma AgentEndsOne(e: AgentEvent)
    ensures AgentEnds([e]) == if e.AgentEnd? then 1 else 0
  {
    assert [e][..0] == [];
  }

  lemma FailureEndsOnce(failure: Message)
    ensures AgentEnds(FailureEvents(failure)) == 1
  {
    hide AgentEnds;
    var a, b, d, e := MessageStart(failure), MessageEnd(failure), TurnEnd(failure, []), AgentEnd([failure]);
    AgentEndsOne(a);
    AgentEndsOne(b);
    AgentEndsOne(d);
    AgentEndsOne(e);
    AgentEndsConcat([a], [b]);
    AgentEndsConcat([a] + [b], [d]);
    AgentEndsConcat([a] + [b] + [d], [e]);
    assert FailureEvents(failure) == [a] + [b] + [d] + [e];
  }

  lemma StrayEventWhenIdle(c: Core, e: AgentEvent)
    requires Inv(c) && c.activeRun.None? && Possible(c, StrayEvent(e))
    ensures var c' := Act(c, StrayEvent(e)); c' == c.(stray := c'.stray, processed := c.processed + [e])
  {
  }

  /** Whatever the calls left running report to an idle agent, as often and in whichever order they do: its state stays
      as it is, and its listeners hear nothing. */
  lemma {:induction false} StrayEventsAreHarmlessWhenIdle(c: Core, actions: seq<Happening>)
    requires Inv(c) && c.activeRun.None? && AllPossible(c, actions)
    requires forall k :: 0 <= k < |actions| ==> actions[k].StrayEvent?
    ensures ActAll(c, actions).state == c.state && ActAll(c, actions).heard == c.heard
    ensures ActAll(c, actions).activeRun.None?
    decreases |actions|
  {
    hide Act, Possible;
    if actions != [] {
      StrayEventWhenIdle(c, actions[0].event);
      assert Inv(Act(c, actions[0]));
      StrayEventsAreHarmlessWhenIdle(Act(c, actions[0]), actions[1..]);
    }
  }

  // ----- Calls left running -----

  /** The calls that failing runs of a history leave running, and those of them that end. */
  function LeftBy(actions: seq<Happening>): multiset<string> {
    if actions == [] then multiset{}
    else
      var a := actions[|actions| - 1];
      LeftBy(actions[..|actions| - 1]) + if a.Throw? then a.left else multiset{}
  }

  function EndedStrays(actions: seq<Happening>): multiset<string> {
    if actions == [] then multiset{}
    else
      var a := actions[|actions| - 1];
      EndedStrays(actions[..|actions| - 1])
        + if a.StrayEvent? && a.event.ToolEnd? then multiset{a.event.id} else multiset{}
  }

  lemma ActOnStrays(c: Core, a: Happening)
    requires Possible(c, a)
    ensures Act(c, a).stray + (if a.StrayEvent? && a.event.ToolEnd? then multiset{a.event.id} else multiset{})
         == c.stray + if a.Throw? then a.left else multiset{}
  {
    hide Reduce, FailureEvents, FailureMessage, AfterDrain, Play;
    assert c.stray + multiset{} == c.stray;
    if a.StrayEvent? && a.event.ToolEnd? {
      assert c.stray - multiset{a.event.id} + multiset{a.event.id} == c.stray;
    }
  }

  lemma Settled(
      c: multiset<string>, before: multiset<string>, now: multiset<string>, ended: multiset<string>,
      ends: multiset<string>, left: multiset<string>, leaves: multiset<string>)
    requires before + ended == c + left && now + ends == before + leaves
    ensures now + (ended + ends) == c + (left + leaves)
  {
    assert now + (ended + ends) == (now + ends) + ended;
    assert (before + ended) + leaves == (before + leaves) + ended;
  }

  /** Every call that a failed run leaves running ends once at most: over every history, those ended and those still
      running are all that were left. */
  lemma {:induction false} StraysEndOnce(c: Core, actions: seq<Happening>)
    requires AllPossible(c, actions)
    ensures ActAll(c, actions).stray + EndedStrays(actions) == c.stray + LeftBy(actions)
    decreases |actions|
  {
    hide Act, Possible, AllPossible, ActAll;
    if actions == [] {
      NothingYet(c);
    } else {
      var n := |actions| - 1;
      ActNext(c, actions, n);
      assert actions[..n + 1] == actions;
      StraysEndOnce(c, actions[..n]);
      var before, a := ActAll(c, actions[..n]), actions[n];
      ActOnStrays(before, a);
      var ended := if a.StrayEvent? && a.event.ToolEnd? then multiset{a.event.id} else multiset{};
      var left := if a.Throw? then a.left else multiset{};
      Settled(c.stray, before.stray, Act(before, a).stray, EndedStrays(actions[..n]), ended, LeftBy(actions[..n]),
              left);
    }
  }
}
