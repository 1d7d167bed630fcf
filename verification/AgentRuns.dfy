/** The agent and the loop together: runs of the loop, started by `prompt` or `continue`, under everything that the
    application may do meanwhile. */
module AgentRuns {
  import opened Types
  import Tools
  import opened AgentState
  import opened AgentLoop
  import opened Protocol
  import opened Guarantees
  import opened Grammar
  import opened Transcripts
  import opened Accounting
  import opened Runs
  import opened Theorems
  import opened Queues
  import opened Agent
  import opened Lifecycle
  import opened Parallel
  import opened Turns
  import opened Failures

  datatype Entry = ByPrompt(messages: seq<Message>) | ByContinue

  function Enter(c: Core, entry: Entry): (Core, Attempt<Launch>) {
    match entry
    case ByPrompt(messages) => PromptCall(c, messages)
    case ByContinue => ContinueCall(c)
  }

  function Given(entry: Entry): seq<Message> {
    if entry.ByPrompt? then entry.messages else []
  }

  /** The run of the loop that an entry into the agent starts. */
  function StartedRun(
      c: Core, entry: Entry, tools: seq<Tool>, mode: ToolMode, steering: seq<Message>, turns: seq<TurnEnv>): Run
    requires AllAnswer(turns) && Enter(c, entry).1.Returned?
  {
    RunOf(Enter(c, entry).1.value.request, Context(c.state.messages, tools), mode, steering, turns)
  }

  lemma EntryBegins(c: Core, entry: Entry)
    requires Inv(c) && Enter(c, entry).1.Returned?
    ensures var c1 := Enter(c, entry).0;
            && c.activeRun.None?
            && IsExecuting(c1) && !c1.activeRun.value.aborted
            && c1.state.messages == c.state.messages && c1.state.model == c.state.model
            && c1.heard == c.heard && c1.stray == c.stray && c1.state.errorMessage.None?
            && AtRest(c.state)
  {
  }

  // ----- Events -----

  lemma {:induction false} EndsOfLog(log: seq<Interaction>)
    ensures AgentEnds(Events(log)) == 0 <==> forall k :: 0 <= k < |log| ==> !(log[k].Emit? && log[k].event.AgentEnd?)
    ensures log != [] && (forall k :: 0 <= k < |log| - 1 ==> !(log[k].Emit? && log[k].event.AgentEnd?)) ==>
              AgentEnds(Events(log)) == if log[|log| - 1].Emit? && log[|log| - 1].event.AgentEnd? then 1 else 0
  {
    hide AgentEnds;
    if log == [] {
      NoEvents();
    } else {
      var front, x := log[..|log| - 1], log[|log| - 1];
      EndsOfLog(front);
      if x.Emit? {
        AgentEndsConcat(Events(front), [x.event]);
        AgentEndsOne(x.event);
      } else {
        assert Events(front) + [] == Events(front);
      }
      assert forall k :: 0 <= k < |front| ==> log[k] == front[k];
    }
  }

  lemma NoEvents()
    ensures AgentEnds([]) == 0
  {
  }

  /** A run announces its end exactly when it is over, and a piece of it exactly when it is all of it. */
  lemma EndIsAnnouncedOnce(
      request: Request, context: Context, mode: ToolMode, steering: seq<Message>, turns: seq<TurnEnv>, k: nat)
    requires AllAnswer(turns) && AllKeep(Rules(false, false), turns)
    requires var run := RunOf(request, context, mode, steering, turns); k <= |run.log|
    ensures var run := RunOf(request, context, mode, steering, turns);
            AgentEnds(Events(run.log[..k])) == if run.ended && k == |run.log| then 1 else 0
  {
    hide Events, Observe, RunOf, AllKeep, AgentEnds, InPlace, TurnTally, UnderWay;
    var run := RunOf(request, context, mode, steering, turns);
    var log := run.log;
    RunKeepsProtocol(Rules(false, false), request, context, mode, steering, turns);
    forall i | 0 <= i < |log| ensures log[i].Emit? && log[i].event.AgentEnd? ==> i == |log| - 1 {
      TraceGrammar(Rules(false, false), context.messages, Expected(request), log, i);
      if log[i].Emit? && log[i].event.AgentEnd? {
        OnlyLast(log[..i], log[i], i == |log| - 1);
      }
    }
    EndsOfLog(log[..k]);
    if k == |log| && log != [] {
      EveryRunIsWellFormed(request, context, mode, steering, turns, 0);
    } else if log == [] {
      NeverEmpty(request, context, mode, steering, turns);
    }
  }

  lemma OnlyLast(before: seq<Interaction>, x: Interaction, last: bool)
    requires InPlace(before, x, last) && x.Emit? && x.event.AgentEnd?
    ensures last
  {
  }

  lemma NeverEmpty(
      request: Request, context: Context, mode: ToolMode, steering: seq<Message>, turns: seq<TurnEnv>)
    requires AllAnswer(turns)
    ensures RunOf(request, context, mode, steering, turns).log != []
  {
    hide Loop;
  }

  // ----- Runs that return and runs that throw -----

  /** A run that returns, from idle agent to idle agent: the transcript grows by the run's new messages, and is the one
      the loop keeps; if no tool call is left from an earlier run, listeners hear exactly the run's events. */
  lemma CompletedAgentRun(
      c: Core, entry: Entry, tools: seq<Tool>, mode: ToolMode, steering: seq<Message>, turns: seq<TurnEnv>,
      during: seq<Happening>)
    requires AllAnswer(turns) && AllKeep(Rules(false, true), turns)
    requires Inv(c) && Enter(c, entry).1.Returned?
    requires NothingEnds(during) && AllPossible(Enter(c, entry).0, during + [Return])
    requires Delivered(during) == Events(StartedRun(c, entry, tools, mode, steering, turns).log)
    ensures var run := StartedRun(c, entry, tools, mode, steering, turns);
            var c' := ActAll(Enter(c, entry).0, during + [Return]);
            && IsIdle(c')
            && c'.state.messages == c.state.messages + Completed(Events(run.log))
            && c'.state.messages == run.vars.context.messages
            && (run.ended ==> c'.state.messages == c.state.messages + run.vars.newMessages)
            && c'.state.errorMessage == Latest(Events(run.log), None)
            && (c.stray == multiset{} ==> c'.heard == c.heard + Events(run.log))
  {
    hide ActAll, AllPossible, Completed, Delivered, Events, RunOf, AllKeep, PromptCall, ContinueCall, ReduceAll;
    EntryBegins(c, entry);
    var request, context := Enter(c, entry).1.value.request, Context(c.state.messages, tools);
    SuccessfulRun(Enter(c, entry).0, during);
    MirrorAgreement(request, context, mode, steering, turns, c.state, 0);
    TranscriptGrowsByCompleted(c.state, Events(RunOf(request, context, mode, steering, turns).log));
    LooserRules(turns);
    RunsConserveMessages(request, context, mode, steering, turns);
  }

  lemma LooserRules(turns: seq<TurnEnv>)
    requires AllKeep(Rules(false, true), turns)
    ensures AllKeep(Rules(false, false), turns)
  {
  }

  /** A run that throws after any piece of its log behind which it can fail, whatever the application and the calls left
      running do meanwhile: the agent is idle again, and its transcript is the old one, the messages completed, and one
      failure message. Calls are left running by races only. If none is left, by this run or an earlier one, the
      listeners have heard the run's events and those of the failure handling, an `agent_end` last; and it is the only
      one if and only if the failure was not raised while the loop's own `agent_end` was handled. */
  lemma FailedAgentRun(
      c: Core, entry: Entry, tools: seq<Tool>, mode: ToolMode, steering: seq<Message>, turns: seq<TurnEnv>, k: nat,
      cause: Cause, during: seq<Happening>, error: string, after: seq<Happening>)
    requires AllAnswer(turns) && AllKeep(Rules(false, false), turns)
    requires Inv(c) && Enter(c, entry).1.Returned?
    requires NothingEnds(during) && NothingEnds(after)
    requires k <= |StartedRun(c, entry, tools, mode, steering, turns).log|
    requires Fails(StartedRun(c, entry, tools, mode, steering, turns).log[..k], cause)
    requires var left := Left(StartedRun(c, entry, tools, mode, steering, turns).log[..k], cause);
             AllPossible(Enter(c, entry).0, during + [Throw(error, left)] + after + [Settle])
    requires Delivered(during) == Events(StartedRun(c, entry, tools, mode, steering, turns).log[..k])
    ensures var run := StartedRun(c, entry, tools, mode, steering, turns);
            var left := Left(run.log[..k], cause);
            var c' := ActAll(Enter(c, entry).0, during + [Throw(error, left)] + after + [Settle]);
            var failure := FailureMessage(c.state.model, error, Abort in during);
            var events := Events(run.log[..k]) + FailureEvents(failure);
            && IsIdle(c')
            && c'.state.messages == c.state.messages + Completed(Events(run.log[..k])) + [failure]
            && (c.stray == multiset{} && left == multiset{} ==>
                  c'.heard == c.heard + events && c'.heard[|c'.heard| - 1] == AgentEnd([failure]))
            && (AgentEnds(events) == 1 <==> !(run.ended && k == |run.log|))
    ensures NoRaceAt(c, entry, tools, mode, steering, turns, k) ==>
              Left(StartedRun(c, entry, tools, mode, steering, turns).log[..k], cause) == multiset{}
  {
    hide ActAll, AllPossible, Completed, Delivered, Events, RunOf, AllKeep, PromptCall, ContinueCall, FailureMessage,
         AgentEnds, Left, Fails, TurnsOf, InRace;
    EntryBegins(c, entry);
    var request, context := Enter(c, entry).1.value.request, Context(c.state.messages, tools);
    var log := RunOf(request, context, mode, steering, turns).log;
    var failure := FailureMessage(c.state.model, error, Abort in during);
    var events := Events(log[..k]);
    FailedRun(Enter(c, entry).0, during, error, Left(log[..k], cause), after);
    Associate(c.heard, events, FailureEvents(failure));
    EndIsAnnouncedOnce(request, context, mode, steering, turns, k);
    AgentEndsConcat(events, FailureEvents(failure));
    FailureEndsOnce(failure);
    var _ := LeftOnlyByRaces(request, context, mode, steering, turns, k, cause);
  }

  /** The run is not within a race at this point. */
  ghost predicate NoRaceAt(
      c: Core, entry: Entry, tools: seq<Tool>, mode: ToolMode, steering: seq<Message>, turns: seq<TurnEnv>, k: nat)
    requires AllAnswer(turns) && Enter(c, entry).1.Returned?
  {
    var taken := TurnsOf(Enter(c, entry).1.value.request, Context(c.state.messages, tools), mode, steering, turns);
    forall t :: 0 <= t < |taken| ==> !InRace(taken[t], mode, k)
  }

  // ----- The transcript a run leaves -----

  lemma FailureHasNoCalls(model: Origin, error: string, aborted: bool)
    ensures WithoutCalls([FailureMessage(model, error, aborted)])
  {
    assert [Text("", None)][1..] == [];
  }

  /** If users and queues write plain messages: behind a run that fails anywhere, the messages that it has added to the
      transcript, and that the next prompt will hand to the provider, are paired, calls with results, if and only if the
      calls of the assistant message completed since the last provider call had been answered where it failed. */
  lemma PairedBehindFailure(
      exact: bool, c: Core, entry: Entry, tools: seq<Tool>, mode: ToolMode, steering: seq<Message>, turns: seq<TurnEnv>,
      k: nat, during: seq<Happening>, error: string, left: multiset<string>, after: seq<Happening>)
    requires AllAnswer(turns) && AllKeep(Rules(exact, false), turns)
    requires Inv(c) && Enter(c, entry).1.Returned? && Plain(Expected(Enter(c, entry).1.value.request))
    requires NothingEnds(during) && NothingEnds(after)
    requires k <= |StartedRun(c, entry, tools, mode, steering, turns).log|
    requires PlainPolls(StartedRun(c, entry, tools, mode, steering, turns).log[..k])
    requires AllPossible(Enter(c, entry).0, during + [Throw(error, left)] + after + [Settle])
    requires Delivered(during) == Events(StartedRun(c, entry, tools, mode, steering, turns).log[..k])
    ensures var c' := ActAll(Enter(c, entry).0, during + [Throw(error, left)] + after + [Settle]);
            Paired(exact, c'.state.messages, |c.state.messages|) <==>
              RepliesAnswered(exact, StartedRun(c, entry, tools, mode, steering, turns).log[..k])
  {
    hide ActAll, AllPossible, Completed, Delivered, Events, RunOf, AllKeep, PromptCall, ContinueCall, FailureMessage,
         Paired, Plain, PlainPolls, RepliesAnswered, Observe, WithoutCalls;
    EntryBegins(c, entry);
    var request, context := Enter(c, entry).1.value.request, Context(c.state.messages, tools);
    var log := RunOf(request, context, mode, steering, turns).log;
    FailedRun(Enter(c, entry).0, during, error, left, after);
    RunKeepsProtocol(Rules(exact, false), request, context, mode, steering, turns);
    PrefixAccepted(Rules(exact, false), Initial(context.messages, Expected(request)), log, k);
    FailureHasNoCalls(c.state.model, error, Abort in during);
    WhenPaired(Rules(exact, false), context.messages, Expected(request), log[..k],
               [FailureMessage(c.state.model, error, Abort in during)]);
  }

  /** The same behind a run that returns; if it was over, calls are left without results if and only if its last
      assistant message has failed and has some. */
  lemma PairedBehindReturn(
      exact: bool, c: Core, entry: Entry, tools: seq<Tool>, mode: ToolMode, steering: seq<Message>, turns: seq<TurnEnv>,
      during: seq<Happening>)
    requires AllAnswer(turns) && AllKeep(Rules(exact, false), turns)
    requires Inv(c) && Enter(c, entry).1.Returned? && Plain(Expected(Enter(c, entry).1.value.request))
    requires NothingEnds(during)
    requires PlainPolls(StartedRun(c, entry, tools, mode, steering, turns).log)
    requires AllPossible(Enter(c, entry).0, during + [Return])
    requires Delivered(during) == Events(StartedRun(c, entry, tools, mode, steering, turns).log)
    ensures var run := StartedRun(c, entry, tools, mode, steering, turns);
            var c' := ActAll(Enter(c, entry).0, during + [Return]);
            && (Paired(exact, c'.state.messages, |c.state.messages|) <==> RepliesAnswered(exact, run.log))
            && (run.ended ==>
                  && OpenReply(run.log).Some?
                  && (RepliesAnswered(exact, run.log) <==>
                        !Failed(OpenReply(run.log).value) || ToolCalls(OpenReply(run.log).value.content) == []))
  {
    hide ActAll, AllPossible, Completed, Delivered, Events, RunOf, AllKeep, PromptCall, ContinueCall, Paired, Plain,
         PlainPolls, RepliesAnswered, Observe, OpenReply, ToolCalls;
    EntryBegins(c, entry);
    var request, context := Enter(c, entry).1.value.request, Context(c.state.messages, tools);
    var log := RunOf(request, context, mode, steering, turns).log;
    SuccessfulRun(Enter(c, entry).0, during);
    RunKeepsProtocol(Rules(exact, false), request, context, mode, steering, turns);
    WhenPaired(Rules(exact, false), context.messages, Expected(request), log, []);
    var messages := c.state.messages + Completed(Events(log));
    assert messages + [] == messages;
    if RunOf(request, context, mode, steering, turns).ended {
      AnsweredWhenOver(Rules(exact, false), context.messages, Expected(request), log);
    }
  }

  // ----- The last word -----

  lemma Unfold(c: Core, a: Happening, rest: seq<Happening>)
    requires Possible(c, a) && AllPossible(Act(c, a), rest)
    ensures AllPossible(c, [a] + rest) && ActAll(c, [a] + rest) == ActAll(Act(c, a), rest)
  {
    hide Possible, Act;
    assert ([a] + rest)[1..] == rest;
  }

  lemma FailOnce(c: Core, failure: Message, step: nat)
    requires IsFailing(c) && c.activeRun.value.stage == Failing(failure, step) && step < 4
    ensures Possible(c, Fail(false))
    ensures var c' := Act(c, Fail(false));
            && IsFailing(c') && c'.activeRun.value.stage == Failing(failure, step + 1)
            && c'.stray == c.stray && c'.heard == c.heard + [FailureEvents(failure)[step]]
  {
    hide Reduce, PromptCall, ContinueCall, ResetCore;
  }

  /** The four events of the failure handling, and then whatever comes. */
  lemma {:induction false} FailToTheEnd(c: Core, failure: Message, step: nat, rest: seq<Happening>) returns (c': Core)
    requires IsFailing(c) && c.activeRun.value.stage == Failing(failure, step) && step <= 4
    ensures IsFailing(c') && c'.activeRun.value.stage == Failing(failure, 4)
    ensures c'.stray == c.stray && c'.heard == c.heard + FailureEvents(failure)[step..]
    ensures AllPossible(c', rest) ==>
              var actions := seq(4 - step, i => Fail(false)) + rest;
              AllPossible(c, actions) && ActAll(c, actions) == ActAll(c', rest)
    decreases 4 - step
  {
    hide Possible, Act, FailureMessage, AllPossible, ActAll;
    if step == 4 {
      c' := c;
      assert seq(0, i => Fail(false)) + rest == rest && c.heard + [] == c.heard;
    } else {
      FailOnce(c, failure, step);
      var c1 := Act(c, Fail(false));
      c' := FailToTheEnd(c1, failure, step + 1, rest);
      var events := FailureEvents(failure);
      assert [events[step]] + events[step + 1..] == events[step..];
      Associate(c.heard, [events[step]], events[step + 1..]);
      var later := seq(4 - (step + 1), i => Fail(false)) + rest;
      if AllPossible(c', rest) {
        Unfold(c, Fail(false), later);
        assert [Fail(false)] + later == seq(4 - step, i => Fail(false)) + rest;
      }
    }
  }

  /** From the throw to the end of the failure handling. */
  function FailureHistory(error: string, left: multiset<string>, after: seq<Happening>): seq<Happening> {
    [Throw(error, left)] + after + [Settle]
  }

  /** However the application and the calls left running go on: the last event heard is the final `agent_end`. */
  ghost predicate EndHasLastWord(c: Core, error: string, left: multiset<string>)
    requires IsExecuting(c)
  {
    forall after :: NothingEnds(after) && AllPossible(c, FailureHistory(error, left, after)) ==>
      LastHeardIs(ActAll(c, FailureHistory(error, left, after)),
                  AgentEnd([FailureMessage(c.state.model, error, c.activeRun.value.aborted)]))
  }

  predicate LastHeardIs(c: Core, e: AgentEvent) {
    c.heard != [] && c.heard[|c.heard| - 1] == e
  }

  /** A call left running may report while the listeners of the final `agent_end` are still being awaited, and is then
      heard after it. */
  lemma AStrayResultMayBeHeardLast(c: Core, error: string, left: multiset<string>, end: AgentEvent)
    returns (after: seq<Happening>)
    requires IsExecuting(c) && end.ToolEnd? && end.id in c.stray + left
    ensures NothingEnds(after) && AllPossible(c, FailureHistory(error, left, after))
    ensures LastHeardIs(ActAll(c, FailureHistory(error, left, after)), end)
  {
    hide FailureMessage, PromptCall, ContinueCall, ResetCore, Reduce, AllPossible, ActAll, FailureEvents;
    var failure := FailureMessage(c.state.model, error, c.activeRun.value.aborted);
    after := seq(4, i => Fail(false)) + [StrayEvent(end)];
    var c1 := Act(c, Throw(error, left));
    var c2 := FailToTheEnd(c1, failure, 0, [StrayEvent(end), Settle]);
    assert FailureEvents(failure)[0..] == FailureEvents(failure);
    var c3 := Act(c2, StrayEvent(end));
    NoActions(Act(c3, Settle));
    assert [Settle] + [] == [Settle] && [StrayEvent(end)] + [Settle] == [StrayEvent(end), Settle];
    Unfold(c3, Settle, []);
    Unfold(c2, StrayEvent(end), [Settle]);
    Unfold(c, Throw(error, left), seq(4, i => Fail(false)) + [StrayEvent(end), Settle]);
    assert FailureHistory(error, left, after)
        == [Throw(error, left)] + (seq(4, i => Fail(false)) + [StrayEvent(end), Settle]);
  }

  /** The failure handling has the last word, in every continuation, if and only if no tool call is left running, by
      this run or an earlier one. */
  lemma LastWordIffNoneLeft(c: Core, error: string, left: multiset<string>)
    requires IsExecuting(c)
    ensures EndHasLastWord(c, error, left) <==> c.stray + left == multiset{}
  {
    hide FailureMessage, AllPossible, ActAll, FailureEvents, NothingEnds;
    var failure := FailureMessage(c.state.model, error, c.activeRun.value.aborted);
    if c.stray + left == multiset{} {
      NoneInEither(c.stray, left);
      forall after | NothingEnds(after) && AllPossible(c, FailureHistory(error, left, after))
        ensures LastHeardIs(ActAll(c, FailureHistory(error, left, after)), AgentEnd([failure]))
      {
        NothingBefore(c, error, left, after);
        FailureEndsLast(failure);
      }
    } else {
      var id :| id in c.stray + left;
      var end := ToolEnd(id, "", ToolOutput("", EMPTY_OBJECT, None), false);
      var after := AStrayResultMayBeHeardLast(c, error, left, end);
      assert !LastHeardIs(ActAll(c, FailureHistory(error, left, after)), AgentEnd([failure]));
    }
  }

  lemma NoneInEither(a: multiset<string>, b: multiset<string>)
    requires a + b == multiset{}
    ensures a == multiset{} && b == multiset{}
  {
    assert forall id :: (a + b)[id] == a[id] + b[id];
  }

  lemma FailureEndsLast(failure: Message)
    ensures |FailureEvents(failure)| == 4 && FailureEvents(failure)[3] == AgentEnd([failure])
  {
  }

  lemma NothingBefore(c: Core, error: string, left: multiset<string>, after: seq<Happening>)
    requires IsExecuting(c) && NothingEnds(after) && AllPossible(c, FailureHistory(error, left, after))
    requires c.stray == multiset{} && left == multiset{}
    ensures ActAll(c, FailureHistory(error, left, after)).heard
         == c.heard + FailureEvents(FailureMessage(c.state.model, error, c.activeRun.value.aborted))
  {
    hide FailureMessage, AllPossible, ActAll, SaysFailure;
    assert [] + [Throw(error, left)] + after + [Settle] == FailureHistory(error, left, after);
    assert Delivered([]) == [] && c.heard + [] == c.heard;
    FailedRun(c, [], error, left, after);
  }

  /** In a run of the loop that fails: the failure handling has the last word if and only if nothing is left running, by
      the run itself or by earlier ones that failed. */
  lemma LastWordInRun(
      c: Core, entry: Entry, tools: seq<Tool>, mode: ToolMode, steering: seq<Message>, turns: seq<TurnEnv>, k: nat,
      cause: Cause, during: seq<Happening>, error: string)
    requires AllAnswer(turns) && AllKeep(Rules(false, false), turns)
    requires Inv(c) && Enter(c, entry).1.Returned?
    requires NothingEnds(during) && AllPossible(Enter(c, entry).0, during)
    requires k <= |StartedRun(c, entry, tools, mode, steering, turns).log|
    requires Fails(StartedRun(c, entry, tools, mode, steering, turns).log[..k], cause)
    requires Delivered(during) == Events(StartedRun(c, entry, tools, mode, steering, turns).log[..k])
    ensures var left := Left(StartedRun(c, entry, tools, mode, steering, turns).log[..k], cause);
            var c1 := ActAll(Enter(c, entry).0, during);
            && IsExecuting(c1)
            && (EndHasLastWord(c1, error, left) <==> c1.stray + left == multiset{})
            && (c.stray == multiset{} ==> c1.stray == multiset{})
  {
    hide ActAll, AllPossible, Completed, Delivered, Events, RunOf, AllKeep, PromptCall, ContinueCall, Left, Fails,
         EndHasLastWord;
    var left := Left(StartedRun(c, entry, tools, mode, steering, turns).log[..k], cause);
    EntryBegins(c, entry);
    WhileExecuting(Enter(c, entry).0, during);
    LastWordIffNoneLeft(ActAll(Enter(c, entry).0, during), error, left);
  }

  function Deliveries(events: seq<AgentEvent>): seq<Happening> {
    if events == [] then [] else [Deliver(events[0])] + Deliveries(events[1..])
  }

  lemma {:induction false} DeliveriesDeliver(c: Core, events: seq<AgentEvent>)
    requires IsExecuting(c)
    ensures AllPossible(c, Deliveries(events)) && Delivered(Deliveries(events)) == events
    ensures NothingEnds(Deliveries(events))
    decreases |events|
  {
    hide Act, Reduce;
    if events != [] {
      ActWhileExecuting(c, Deliver(events[0]));
      DeliveriesDeliver(Act(c, Deliver(events[0])), events[1..]);
      assert Deliveries(events)[1..] == Deliveries(events[1..]);
    }
  }

  /** It happens: a prompt to an agent at rest, two calls of a concurrent batch, and a listener that refuses the end of
      the first one. The run fails with the second call running, and the failure handling need not have the last word. */
  lemma ARealRunLosesTheLastWord(c: Core, error: string) returns (during: seq<Happening>, left: multiset<string>)
    requires Inv(c) && c.activeRun.None? && c.stray == multiset{} && c.state.messages == []
    ensures var c1 := Enter(c, ByPrompt([User("go")])).0;
            && AllPossible(c1, during) && IsExecuting(ActAll(c1, during))
            && left == multiset{"b"} && !EndHasLastWord(ActAll(c1, during), error, left)
  {
    hide ActAll, AllPossible, Events, RunOf, AllKeep, Left, Fails, EndHasLastWord, TwoCalls;
    var te, entry := TwoCalls(None, FIRST_ENDS), ByPrompt([User("go")]);
    var k := ARaceLeavesOneRunning();
    var log := StartedRun(c, entry, [READ], Parallel, [], [te]).log;
    left := Left(log[..k], Listener(k - 1));
    EntryBegins(c, entry);
    during := Deliveries(Events(log[..k]));
    DeliveriesDeliver(Enter(c, entry).0, Events(log[..k]));
    LastWordInRun(c, entry, [READ], Parallel, [], [te], k, Listener(k - 1), during, error);
  }

  lemma NoActions(c: Core)
    ensures AllPossible(c, []) && ActAll(c, []) == c
  {
  }

  // ----- A failure that leaves calls without results -----

  lemma {:induction false} OneAfterTheOther(c: Core, a: seq<Happening>, b: seq<Happening>)
    requires AllPossible(c, a) && AllPossible(ActAll(c, a), b)
    ensures AllPossible(c, a + b)
    decreases |a|
  {
    hide Act, Possible;
    if a == [] {
      assert a + b == b;
    } else {
      OneAfterTheOther(Act(c, a[0]), a[1..], b);
      assert (a + b)[1..] == a[1..] + b;
    }
  }

  /** A failure can be handled with nothing else happening meanwhile. */
  lemma FailureIsHandled(c: Core, during: seq<Happening>, error: string, left: multiset<string>)
    returns (after: seq<Happening>)
    requires AllPossible(c, during) && IsExecuting(ActAll(c, during))
    ensures after == seq(4, i => Fail(false))
    ensures AllPossible(c, during + [Throw(error, left)] + after + [Settle])
  {
    hide FailureMessage, PromptCall, ContinueCall, ResetCore, AllPossible, ActAll, FailureEvents;
    after := seq(4, i => Fail(false));
    var throw, c1 := Throw(error, left), ActAll(c, during);
    var c3 := FailToTheEnd(
      Act(c1, throw), FailureMessage(c1.state.model, error, c1.activeRun.value.aborted), 0, [Settle]);
    NoActions(Act(c3, Settle));
    assert [Settle] + [] == [Settle];
    Unfold(c3, Settle, []);
    Unfold(c1, throw, after + [Settle]);
    OneAfterTheOther(c, during, [throw] + (after + [Settle]));
    assert during + [throw] + after + [Settle] == during + ([throw] + (after + [Settle]));
  }

  lemma ReplyIsOpen(before: seq<Interaction>, context: seq<Message>, reply: AssistantMessage)
    ensures var m := Assistant(reply);
            var log := before + [LlmCall(context), Emit(MessageStart(m)), Emit(MessageEnd(m))];
            && OpenReply(log) == Some(reply) && ResultsShown(log) == []
            && Fails(log, Listener(|log| - 1))
  {
    hide UnderWay, OpenReply, ResultsShown;
    var m := Assistant(reply);
    var a := before + [LlmCall(context)];
    var b := a + [Emit(MessageStart(m))];
    assert before + [LlmCall(context), Emit(MessageStart(m)), Emit(MessageEnd(m))] == b + [Emit(MessageEnd(m))];
    OpenReplySnoc(before, LlmCall(context));
    OpenReplySnoc(a, Emit(MessageStart(m)));
    OpenReplySnoc(b, Emit(MessageEnd(m)));
  }

  /** A run begins with its prompts, the first steering poll, and the first turn up to its assistant message. */
  lemma BeginsWithReply(
      request: Request, context: Context, mode: ToolMode, steering: seq<Message>, turns: seq<TurnEnv>)
    requires AllAnswer(turns) && turns != [] && HasBatch(Taken(0, true, StartVars(request, context, steering), turns[0]))
    ensures Opener(request, steering) + AssistantLog(true, StartVars(request, context, steering), turns[0])
         <= RunOf(request, context, mode, steering, turns).log
  {
    hide RunOf, RunTurns, RunTurn, AssistantLog, Opener, StartVars, BatchOf, Answers;
    assert Answers(turns[0]);
    var opener, v := Opener(request, steering), StartVars(request, context, steering);
    var t := Taken(0, true, v, turns[0]);
    RunIsOpenerAndTurns(request, context, mode, steering, turns);
    var rest := FirstTurnIsThere(0, true, v, mode, turns);
    var closing := BatchIsInTurn(mode, t);
    InFront(opener, AssistantLog(true, v, turns[0]), BatchOf(mode, t).log, closing, rest);
  }

  lemma InFront<T>(a: seq<T>, b: seq<T>, c: seq<T>, d: seq<T>, e: seq<T>)
    ensures a + b <= a + (b + c + d + e)
  {
    assert a + (b + c + d + e) == (a + b) + (c + d + e);
  }

  /** The beginning of the run of two calls. */
  function TwoCallsAsked(te: TurnEnv): seq<Interaction> {
    var m := User("go");
    [Emit(AgentStart), Emit(TurnStart), Emit(MessageStart(m)), Emit(MessageEnd(m)), PollSteering([])]
      + [LlmCall([m]), Emit(MessageStart(Assistant(te.final))), Emit(MessageEnd(Assistant(te.final)))]
  }

  lemma TwoCallsAreAsked()
    ensures var te, request, context := TwoCalls(None, FIRST_ENDS), Prompt([User("go")]), Context([], [READ]);
            && TwoCallsAsked(te) == Opener(request, []) + AssistantLog(true, StartVars(request, context, []), te)
            && PlainPolls(TwoCallsAsked(te))
  {
    var m := User("go");
    var shown := Tools.MessageLog(m);
    assert [m][..0] == [] && Tools.MessagesLog([m]) == [] + shown && [] + shown == shown;
    assert [] + [m] + [] == [m];
  }

  /** It happens: a prompt to an agent at rest is answered with two calls, and a listener refuses the end of the
      assistant message. The transcript then has two calls without any result. */
  lemma AFailureLeavesCallsOpen(c: Core, error: string)
    returns (k: nat, during: seq<Happening>, after: seq<Happening>)
    requires Inv(c) && c.activeRun.None? && c.state.messages == []
    ensures var te, c1 := TwoCalls(None, FIRST_ENDS), Enter(c, ByPrompt([User("go")])).0;
            && AllAnswer([te])
            && var log := StartedRun(c, ByPrompt([User("go")]), [READ], Parallel, [], [te]).log;
               && 0 < k <= |log| && Fails(log[..k], Listener(k - 1)) && Delivered(during) == Events(log[..k])
               && AllPossible(c1, during + [Throw(error, multiset{})] + after + [Settle])
               && var c' := ActAll(c1, during + [Throw(error, multiset{})] + after + [Settle]);
                  !Paired(false, c'.state.messages, 0)
  {
    hide ActAll, AllPossible, Events, RunOf, AllKeep, Fails, TwoCalls, Paired, Delivered, OpenReply, ResultsShown,
         Opener, AssistantLog, StartVars, PlainPolls;
    var te, entry := TwoCalls(None, FIRST_ENDS), ByPrompt([User("go")]);
    var request, context := Prompt([User("go")]), Context([], [READ]);
    TwoCallsKeep(None, FIRST_ENDS);
    EntryBegins(c, entry);
    BeginsWithReply(request, context, Parallel, [], [te]);
    TwoCallsAreAsked();
    var log := RunOf(request, context, Parallel, [], [te]).log;
    k := 8;
    assert log[..k] == TwoCallsAsked(te);
    ReplyIsOpen(TwoCallsAsked(te)[..5], [User("go")], te.final);
    during := Deliveries(Events(log[..k]));
    DeliveriesDeliver(Enter(c, entry).0, Events(log[..k]));
    WhileExecuting(Enter(c, entry).0, during);
    after := FailureIsHandled(Enter(c, entry).0, during, error, multiset{});
    PairedBehindFailure(false, c, entry, [READ], Parallel, [], [te], k, during, error, multiset{}, after);
  }
}
