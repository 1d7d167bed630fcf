/** The guarantees of `runAgentLoop` and `runAgentLoopContinue`, for every request, every script of the surroundings
    and every scheduler, at every point of the run. */
module Theorems {
  import opened Types
  import opened AgentLoop
  import opened AgentState
  import opened Protocol
  import opened Guarantees
  import opened Grammar
  import opened Transcripts
  import opened Accounting
  import opened Runs

  /** A state in which no run has left traces. */
  predicate AtRest(s: State) {
    s.streamingMessage.None? && s.pendingToolCalls == {}
  }

  /** The agent, which sees nothing but events, has the very transcript that the loop keeps privately: whenever it is
      handed to the provider or to `prepareNextTurn` and `shouldStopAfterTurn`, and when observation stops. At those
      points no message is being shown and no tool call is pending. */
  lemma MirrorAgreement(
      request: Request, context: Context, mode: ToolMode, steering: seq<Message>, turns: seq<TurnEnv>,
      s: State, k: nat)
    requires AllAnswer(turns) && AllKeep(Rules(false, true), turns)
    requires s.messages == context.messages && AtRest(s)
    ensures var run := RunOf(request, context, mode, steering, turns);
            && ReduceAll(s, Events(run.log)).messages == run.vars.context.messages
            && (k < |run.log| ==>
                  var seen := ReduceAll(s, Events(run.log[..k]));
                  match run.log[k]
                  case LlmCall(given) => given == seen.messages && AtRest(seen)
                  case Consult(_, _, given, _) => given == seen.messages && AtRest(seen)
                  case Emit(TurnEnd(_, _)) => AtRest(seen)
                  case _ => true)
  {
    hide ReduceAll, Events, Observe, RunOf, AllKeep, ToolCalls, TurnComplete;
    var rules := Rules(false, true);
    var run := RunOf(request, context, mode, steering, turns);
    var w := Initial(context.messages, Expected(request));
    RunKeepsProtocol(rules, request, context, mode, steering, turns);
    AlwaysMirrors(rules, w, s, run.log);
    if k < |run.log| {
      PrefixAccepted(rules, w, run.log, k);
      AlwaysSane(rules, w, run.log[..k]);
      AlwaysMirrors(rules, w, s, run.log[..k]);
      AlwaysPendingAmong(rules, w, s, run.log[..k]);
    }
  }

  /** At the hooks around a call it is otherwise: what `beforeToolCall` and `afterToolCall` are handed lags behind the
      agent's transcript by the results of the turn shown so far, so the two agree if and only if there are none. The
      call is pending at that time, if the calls of every message have different ids. */
  lemma HooksMayLag(
      request: Request, context: Context, mode: ToolMode, steering: seq<Message>, turns: seq<TurnEnv>,
      s: State, k: nat)
    requires AllAnswer(turns) && AllKeep(Rules(false, true), turns)
    requires s.messages == context.messages && AtRest(s)
    requires var log := RunOf(request, context, mode, steering, turns).log;
             k < |log| && (log[k].ConsultBefore? || log[k].ConsultAfter?)
    ensures var log := RunOf(request, context, mode, steering, turns).log;
            var seen := ReduceAll(s, Events(log[..k]));
            && seen.messages == log[k].context + ResultsShown(log[..k])
            && (seen.messages == log[k].context <==> ResultsShown(log[..k]) == [])
            && seen.streamingMessage.None?
            && (DistinctReplies(log) ==> log[k].id in seen.pendingToolCalls)
  {
    hide ReduceAll, Events, Observe, RunOf, AllKeep, ToolCalls, TurnComplete, ResultsShown, Protocol.Step, UnderWay,
         TurnTally, Distinct;
    var rules := Rules(false, true);
    var log := RunOf(request, context, mode, steering, turns).log;
    var w := Initial(context.messages, Expected(request));
    RunKeepsProtocol(rules, request, context, mode, steering, turns);
    HooksLagByResults(rules, w, log, k);
    PrefixAccepted(rules, w, log, k);
    AlwaysMirrors(rules, w, s, log[..k]);
    ToolStep(rules, Observe(rules, w, log[..k]), log[k]);
    if DistinctReplies(log) {
      ToolStepIds(rules, Observe(rules, w, log[..k]), log[k]);
      AlwaysPending(rules, w, s, log[..k]);
    }
  }

  /** If every assistant message gives its calls different ids, the pending set of the agent is exactly the set of
      calls under way, at every point of every run. */
  lemma PendingCallsAreThoseUnderWay(
      request: Request, context: Context, mode: ToolMode, steering: seq<Message>, turns: seq<TurnEnv>,
      s: State, k: nat)
    requires AllAnswer(turns) && AllKeep(Rules(false, false), turns) && AtRest(s)
    requires var log := RunOf(request, context, mode, steering, turns).log; DistinctReplies(log) && k <= |log|
    ensures var before := RunOf(request, context, mode, steering, turns).log[..k];
            var u := UnderWay(before);
            ReduceAll(s, Events(before)).pendingToolCalls == set id | id in u.waiting + u.running
  {
    hide ReduceAll, Events, Observe, RunOf, AllKeep, Distinct, UnderWay, TurnTally;
    var rules := Rules(false, false);
    var log := RunOf(request, context, mode, steering, turns).log;
    var w := Initial(context.messages, Expected(request));
    RunKeepsProtocol(rules, request, context, mode, steering, turns);
    PrefixAccepted(rules, w, log, k);
    var before := log[..k];
    AlwaysPending(rules, w, s, before);
    AlwaysCounted(rules, w, before);
  }

  /** The trace grammar and the tool lifecycle hold at every point of every run, and the run is over exactly when
      `agent_end` is out. Calls with different ids are announced once, executed at most once and ended once. */
  lemma EveryRunIsWellFormed(
      request: Request, context: Context, mode: ToolMode, steering: seq<Message>, turns: seq<TurnEnv>, k: nat)
    requires AllAnswer(turns) && AllKeep(Rules(false, false), turns)
    requires k < |RunOf(request, context, mode, steering, turns).log|
    ensures var run := RunOf(request, context, mode, steering, turns);
            var log := run.log;
            && log[0] == Emit(AgentStart)
            && InPlace(log[..k], log[k], k == |log| - 1)
            && (run.ended <==> log[|log| - 1].Emit? && log[|log| - 1].event.AgentEnd?)
            && InOrder(UnderWay(log[..k]), log[k])
            && (DistinctReplies(log) ==> OncePerCall(TurnTally(log[..k]), log[k]))
  {
    hide Observe, RunOf, AllKeep, TurnTally, UnderWay, InPlace, InOrder, OncePerCall, DistinctReplies;
    var rules := Rules(false, false);
    var run := RunOf(request, context, mode, steering, turns);
    var w := Initial(context.messages, Expected(request));
    RunKeepsProtocol(rules, request, context, mode, steering, turns);
    TraceGrammar(rules, context.messages, Expected(request), run.log, 0);
    TraceGrammar(rules, context.messages, Expected(request), run.log, k);
    ToolLifecycle(rules, w, run.log, k);
    if DistinctReplies(run.log) {
      EachCallOnce(rules, w, run.log, k);
    }
  }

  /** Exactly one assistant message a turn, in every run in which nobody prompts or queues one: when a turn starts and
      when the provider is called there have been as many as turns, and a turn ends with one more. */
  lemma EveryTurnHasOneReply(
      request: Request, context: Context, mode: ToolMode, steering: seq<Message>, turns: seq<TurnEnv>, k: nat)
    requires AllAnswer(turns) && AllKeep(Rules(false, false), turns) && NotAssistant(Expected(request))
    requires var log := RunOf(request, context, mode, steering, turns).log; PollsWithoutAssistant(log) && k < |log|
    ensures var log := RunOf(request, context, mode, steering, turns).log;
            && (log[k].LlmCall? || log[k] == Emit(TurnStart) ==> Replies(log[..k]) == TurnsEnded(log[..k]))
            && (log[k].Emit? && log[k].event.TurnEnd? ==> Replies(log[..k]) == TurnsEnded(log[..k]) + 1)
  {
    hide Observe, RunOf, AllKeep, Replies, TurnsEnded, PollsWithoutAssistant, NotAssistant;
    var rules := Rules(false, false);
    RunKeepsProtocol(rules, request, context, mode, steering, turns);
    OneAssistantMessagePerTurn(
      rules, context.messages, Expected(request), RunOf(request, context, mode, steering, turns).log, k);
  }

  /** No transcript handed to the provider ends in an assistant message, in every run that starts legally and in which
      nobody prompts or queues one. */
  lemma ProviderCanAlwaysAnswer(
      request: Request, context: Context, mode: ToolMode, steering: seq<Message>, turns: seq<TurnEnv>, k: nat)
    requires AllAnswer(turns) && AllKeep(Rules(false, true), turns) && NotAssistant(Expected(request))
    requires if request.Prompt? then request.prompts != [] else ContinueError(context.messages).None?
    requires var log := RunOf(request, context, mode, steering, turns).log;
             PollsWithoutAssistant(log) && k < |log| && log[k].LlmCall?
    ensures EndsWell(RunOf(request, context, mode, steering, turns).log[k].context)
  {
    hide Observe, RunOf, AllKeep, PollsWithoutAssistant, NotAssistant;
    var rules := Rules(false, true);
    RunKeepsProtocol(rules, request, context, mode, steering, turns);
    LastIsNeverAssistant(
      rules, context.messages, Expected(request), RunOf(request, context, mode, steering, turns).log, k);
  }

  /** The transcripts handed to the provider: the given one extended, never ending in an assistant message, and with
      every assistant message of the run followed by the results of its calls. */
  lemma ProviderSeesSoundTranscripts(
      request: Request, context: Context, mode: ToolMode, steering: seq<Message>, turns: seq<TurnEnv>,
      exact: bool, k: nat)
    requires AllAnswer(turns) && AllKeep(Rules(exact, true), turns)
    requires match request
             case Prompt(prompts) => prompts != [] && Plain(prompts)
             case Continue => ContinueError(context.messages).None?
    requires var log := RunOf(request, context, mode, steering, turns).log;
             PlainPolls(log) && k < |log| && log[k].LlmCall?
    ensures var given := RunOf(request, context, mode, steering, turns).log[k].context;
            context.messages <= given && EndsWell(given) && Paired(exact, given, |context.messages|)
  {
    hide Observe, RunOf, AllKeep, Paired;
    var rules := Rules(exact, true);
    var log := RunOf(request, context, mode, steering, turns).log;
    RunKeepsProtocol(rules, request, context, mode, steering, turns);
    forall i | 0 <= i < |log| ensures NotAssistant(Polled(log[i])) {
      assert Plain(Polled(log[i]));
    }
    LastIsNeverAssistant(rules, context.messages, Expected(request), log, k);
    ResultsFollowCalls(rules, context.messages, Expected(request), log, k);
  }

  /** What a run that is over returns and announces as new messages is what was shown as completed; the messages
      injected are the prompts and everything drained from the queues, each once and in order; and the provider was
      called at most once more than there were batches that go on and messages drained. Turn by turn, the new messages
      are the messages injected, the assistant message, and the results of `turn_end`. */
  lemma RunsConserveMessages(
      request: Request, context: Context, mode: ToolMode, steering: seq<Message>, turns: seq<TurnEnv>)
    requires AllAnswer(turns) && AllKeep(Rules(false, false), turns)
    ensures var run := RunOf(request, context, mode, steering, turns);
            && run.vars.newMessages == Completed(Events(run.log))
            && LlmCalls(run.log) <= 1 + ContinuingTurns(run.log) + |Drained(run.log)|
            && (run.ended ==>
                  && InjectedMessages(run.log) == Expected(request) + Drained(run.log)
                  && run.vars.newMessages == MessagesOf(ClosedTurns(run.log))
                  && run.log[|run.log| - 1] == Emit(AgentEnd(run.vars.newMessages)))
  {
    hide Events, Observe, RunOf, AllKeep, Completed, LlmCalls, ContinuingTurns, Drained, InjectedMessages, TurnMessages,
         TurnInjected, BeforeCall, OpenTurns, OpenMessages, TurnsEnded, MessagesOf, ClosedTurns;
    var rules := Rules(false, false);
    var run := RunOf(request, context, mode, steering, turns);
    var w := Initial(context.messages, Expected(request));
    RunKeepsProtocol(rules, request, context, mode, steering, turns);
    CallsAreBounded(rules, context.messages, Expected(request), run.log);
    AlwaysBalanced(rules, context.messages, Expected(request), run.log);
    AlwaysShaped(rules, context.messages, Expected(request), run.log);
    AlwaysFactored(rules, context.messages, Expected(request), run.log);
    if run.ended {
      assert MessagesOf(ClosedTurns(run.log)) + [] == MessagesOf(ClosedTurns(run.log));
      OverMeansSettled(rules, w, run.log);
      assert InjectedMessages(run.log) + [] == InjectedMessages(run.log);
    }
  }

  lemma OverMeansSettled(rules: Rules, w: Watch, log: seq<Interaction>)
    requires log != [] && log[|log| - 1].Emit? && log[|log| - 1].event.AgentEnd?
    requires Accepts(rules, w, log)
    ensures Observe(rules, w, log).owed == [] && log[|log| - 1].event.messages == Observe(rules, w, log).added
  {
  }
}
