/** Which transcript the hooks around a tool call are handed: that of the agent in every concurrent batch, and in a
    sequential one only at the first call. */
module Hooks {
  import opened Types
  import opened Tools
  import opened Parallel
  import opened Streaming
  import opened AgentLoop
  import opened AgentState
  import opened Protocol
  import opened Guarantees
  import opened Runs
  import opened Turns
  import opened Theorems

  predicate IsHook(x: Interaction) {
    x.ConsultBefore? || x.ConsultAfter?
  }

  ghost predicate NoCallOfProvider(log: seq<Interaction>) {
    forall k :: 0 <= k < |log| ==> !log[k].LlmCall?
  }

  lemma {:induction false} ResultsShownConcat(a: seq<Interaction>, b: seq<Interaction>)
    requires NoCallOfProvider(b)
    ensures ResultsShown(a + b) == ResultsShown(a) + ResultsShown(b)
  {
    if b == [] {
      assert a + b == a;
    } else {
      assert (a + b)[..|a + b| - 1] == a + b[..|b| - 1];
      ResultsShownConcat(a, b[..|b| - 1]);
      assert !b[|b| - 1].LlmCall?;
    }
  }

  /** Nothing here completes a result message. */
  ghost predicate NoResults(log: seq<Interaction>) {
    forall k :: 0 <= k < |log| ==>
      !log[k].LlmCall? && !(log[k].Emit? && log[k].event.MessageEnd? && log[k].event.message.ToolResult?)
  }

  lemma {:induction false} NothingShown(log: seq<Interaction>)
    requires NoResults(log)
    ensures ResultsShown(log) == []
  {
    if log != [] {
      NothingShown(log[..|log| - 1]);
      assert !log[|log| - 1].LlmCall?;
    }
  }

  lemma {:induction false} StreamShowsNoResults(events: seq<StreamEvent>, final: AssistantMessage, open: bool)
    ensures NoResults(StreamLog(events, final, open))
  {
    if events != [] && !events[0].Finish? {
      StreamShowsNoResults(events[1..], final, open || events[0].Start?);
    }
  }

  lemma NoneShownBehindReply(before: seq<Interaction>, first: bool, v: Vars, te: TurnEnv)
    ensures ResultsShown(before + AssistantLog(first, v, te)) == []
  {
    hide OpeningLog, StreamLog;
    var call, stream := LlmCall(v.context.messages + v.pending), StreamLog(te.stream, te.final, false);
    var upto := before + OpeningLog(first, v.pending);
    assert (upto + [call])[..|upto|] == upto;
    assert before + AssistantLog(first, v, te) == (upto + [call]) + stream;
    StreamShowsNoResults(te.stream, te.final, false);
    NothingShown(stream);
    ResultsShownConcat(upto + [call], stream);
  }

  lemma {:induction false} MessagesLogNeverCalls(ms: seq<Message>)
    ensures forall k :: 0 <= k < |MessagesLog(ms)| ==> MessagesLog(ms)[k].Emit? && !IsHook(MessagesLog(ms)[k])
  {
    if ms != [] {
      MessagesLogNeverCalls(ms[..|ms| - 1]);
    }
  }

  lemma {:induction false} UpdatesAreEvents(call: ToolCall, ticks: seq<Tick>)
    ensures forall k :: 0 <= k < |AcceptedUpdates(call, ticks)| ==>
              AcceptedUpdates(call, ticks)[k].Emit? && !AcceptedUpdates(call, ticks)[k].event.MessageEnd?
  {
    if ticks != [] && ticks[0].Report? {
      UpdatesAreEvents(call, ticks[1..]);
    }
  }

  // ----- Sequential batches -----

  /** What comes before the result message of a call. */
  function BeforeResult(context: Context, call: ToolCall, env: CallEnv): seq<Interaction> {
    [Emit(StartEvent(call))] + BeforeLog(context, call, env) + ExecutionLog(context, call, env)
      + [Emit(EndEvent(Outcome(context.tools, call, env)))]
  }

  lemma CallShowsItsResult(context: Context, call: ToolCall, env: CallEnv)
    ensures SequentialCallLog(context, call, env)
         == BeforeResult(context, call, env) + MessageLog(ResultMessage(Outcome(context.tools, call, env)))
    ensures NoResults(BeforeResult(context, call, env)) && NoCallOfProvider(SequentialCallLog(context, call, env))
    ensures ResultsShown(SequentialCallLog(context, call, env)) == [ResultMessage(Outcome(context.tools, call, env))]
  {
    hide Prepare, Outcome, ResultsShown, ResultMessage, BeforeResult;
    var m := ResultMessage(Outcome(context.tools, call, env));
    CallIsBeforeAndResult(context, call, env);
    BeforeResultIsQuiet(context, call, env);
    NothingShown(BeforeResult(context, call, env));
    ResultsShownConcat(BeforeResult(context, call, env), MessageLog(m));
    OneResultShown(Outcome(context.tools, call, env));
  }

  lemma CallIsBeforeAndResult(context: Context, call: ToolCall, env: CallEnv)
    ensures SequentialCallLog(context, call, env)
         == BeforeResult(context, call, env) + MessageLog(ResultMessage(Outcome(context.tools, call, env)))
  {
    hide Outcome, ResultMessage, ExecutionLog, BeforeLog, StartEvent, EndEvent, MessageLog;
  }

  lemma BeforeResultIsQuiet(context: Context, call: ToolCall, env: CallEnv)
    ensures NoResults(BeforeResult(context, call, env)) && NoCallOfProvider(BeforeResult(context, call, env))
  {
    hide Outcome, Prepare, FindTool;
    UpdatesAreEvents(call, env.ticks);
  }

  lemma OneResultShown(f: Finalized)
    ensures ResultsShown(MessageLog(ResultMessage(f))) == [ResultMessage(f)]
  {
    var m := ResultMessage(f);
    var start, log := [Emit(MessageStart(m))], MessageLog(m);
    NothingShown(start);
    assert log[..1] == start && [] + [m] == [m];
  }

  lemma {:induction false} ResultsOfCalls(context: Context, calls: seq<ToolCall>, env: seq<CallEnv>, j: nat)
    requires j <= |calls| <= |env|
    ensures NoCallOfProvider(SequentialLog(context, calls, env, j))
    ensures ResultsShown(SequentialLog(context, calls, env, j))
         == ResultMessages(Outcomes(context.tools, calls, env, j))
  {
    hide SequentialCallLog, Outcome, ResultMessage, ResultsShown;
    if j == 0 {
      assert ResultMessages(Outcomes(context.tools, calls, env, j)) == [];
      NothingShown([]);
    } else {
      ResultsOfCalls(context, calls, env, j - 1);
      CallShowsItsResult(context, calls[j - 1], env[j - 1]);
      var done, call := SequentialLog(context, calls, env, j - 1), SequentialCallLog(context, calls[j - 1], env[j - 1]);
      ResultsShownConcat(done, call);
      OneMore(context, calls, env, j - 1);
      assert NoCallOfProvider(done + call);
    }
  }

  lemma {:induction false} SequentialLogGrows(context: Context, calls: seq<ToolCall>, env: seq<CallEnv>, j: nat, n: nat)
    requires j <= n <= |calls| <= |env|
    ensures SequentialLog(context, calls, env, j) <= SequentialLog(context, calls, env, n)
  {
    hide SequentialCallLog;
    if j < n {
      SequentialLogGrows(context, calls, env, j, n - 1);
    }
  }

  /** The interaction at `m` belongs to call `j` of the sequential executor. */
  ghost predicate WithinCall(context: Context, calls: seq<ToolCall>, env: seq<CallEnv>, j: nat, m: nat)
    requires j < |calls| <= |env|
  {
    |SequentialLog(context, calls, env, j)| <= m < |SequentialLog(context, calls, env, j + 1)|
  }

  /** At a hook of call `j` the results of the calls before it have been shown. */
  lemma ShownBySequential(context: Context, calls: seq<ToolCall>, env: seq<CallEnv>, n: nat, j: nat, m: nat)
    requires j < n <= |calls| <= |env| && WithinCall(context, calls, env, j, m)
    ensures m < |SequentialLog(context, calls, env, n)|
    ensures IsHook(SequentialLog(context, calls, env, n)[m]) ==>
              (ResultsShown(SequentialLog(context, calls, env, n)[..m])
               == ResultMessages(Outcomes(context.tools, calls, env, j)))
  {
    hide SequentialCallLog, Outcome, ResultMessage, ResultsShown, BeforeResult;
    var done, log := SequentialLog(context, calls, env, j), SequentialLog(context, calls, env, n);
    var call := SequentialCallLog(context, calls[j], env[j]);
    SequentialLogGrows(context, calls, env, j + 1, n);
    assert SequentialLog(context, calls, env, j + 1) == done + call;
    var i := m - |done|;
    assert log[m] == (done + call)[m] == call[i];
    CallShowsItsResult(context, calls[j], env[j]);
    if IsHook(log[m]) {
      var head := BeforeResult(context, calls[j], env[j]);
      var message := ResultMessage(Outcome(context.tools, calls[j], env[j]));
      assert i < |head| by {
        MessagesAreNoHooks(head, message, i);
      }
      assert log[..m] == done + head[..i];
      NothingShown(head[..i]);
      ResultsOfCalls(context, calls, env, j);
      ResultsShownConcat(done, head[..i]);
    }
  }

  lemma MessagesAreNoHooks(head: seq<Interaction>, m: Message, i: nat)
    requires i < |head + MessageLog(m)| && IsHook((head + MessageLog(m))[i])
    ensures i < |head|
  {
  }

  // ----- Concurrent batches -----

  /** At a hook of a concurrent batch no result has been shown. */
  lemma NoneShownByParallel(context: Context, calls: seq<ToolCall>, env: seq<CallEnv>, schedule: seq<Action>, m: nat)
    requires |calls| <= |env| && m < |ParallelBatch(context, calls, env, schedule).log|
    requires IsHook(ParallelBatch(context, calls, env, schedule).log[m])
    ensures ResultsShown(ParallelBatch(context, calls, env, schedule).log[..m]) == []
  {
    hide Entries, InitialStatuses, Race, RaceLog, PreflightLog, MessagesLog, ResultMessages, OutcomesOf, ResultsShown;
    var n := Reached(calls, env, 0);
    var entries := Entries(context.tools, calls, env, n);
    var start := InitialStatuses(entries);
    var st := Race(entries, start, schedule);
    var log := PreflightLog(context, calls, env, n) + RaceLog(context.messages, entries, start, schedule);
    PreflightShowsNoResults(context, calls, env, n);
    RaceShowsNoResults(context.messages, entries, start, schedule);
    if AllDone(st) {
      MessagesLogNeverCalls(ResultMessages(OutcomesOf(st)));
    }
    assert ParallelBatch(context, calls, env, schedule).log[..m] == log[..m];
    NothingShown(log[..m]);
  }

  lemma {:induction false} PreflightShowsNoResults(context: Context, calls: seq<ToolCall>, env: seq<CallEnv>, n: nat)
    requires n <= |calls| <= |env|
    ensures NoResults(PreflightLog(context, calls, env, n))
  {
    hide Prepare;
    if n > 0 {
      PreflightShowsNoResults(context, calls, env, n - 1);
    }
  }

  lemma {:induction false} RaceShowsNoResults(
      given: seq<Message>, entries: seq<Entry>, st: seq<Status>, schedule: seq<Action>)
    ensures NoResults(RaceLog(given, entries, st, schedule))
    decreases |schedule|
  {
    if schedule != [] && Enabled(entries, st, schedule[0]) {
      RaceShowsNoResults(given, entries, After(entries, st, schedule[0]), schedule[1..]);
    }
  }

  // ----- In runs -----

  lemma ShownInBatch(
      request: Request, context: Context, mode: ToolMode, steering: seq<Message>, turns: seq<TurnEnv>, t: nat, m: nat)
    requires AllAnswer(turns) && t < |TurnsOf(request, context, mode, steering, turns)|
    requires var taken := TurnsOf(request, context, mode, steering, turns)[t];
             && HasBatch(taken) && Answers(taken.te) && m < |BatchOf(mode, taken).log|
             && NoCallOfProvider(BatchOf(mode, taken).log[..m])
    ensures var taken := TurnsOf(request, context, mode, steering, turns)[t];
            var log := RunOf(request, context, mode, steering, turns).log;
            && BatchStart(taken) + m < |log|
            && log[BatchStart(taken) + m] == BatchOf(mode, taken).log[m]
            && ResultsShown(log[..BatchStart(taken) + m]) == ResultsShown(BatchOf(mode, taken).log[..m])
  {
    hide RunOf, TurnsOf, AssistantLog, ToolCalls, Answered, ExecuteBatch, ResultsShown, NoCallOfProvider;
    var taken := TurnsOf(request, context, mode, steering, turns)[t];
    var log := RunOf(request, context, mode, steering, turns).log;
    BatchIsInRun(request, context, mode, steering, turns, t);
    PiecePrefix(log, BatchStart(taken), BatchOf(mode, taken).log, m);
    var intro := AssistantLog(taken.first, taken.vars, taken.te);
    PiecePrefix(log, taken.start, intro, |intro|);
    assert intro[..|intro|] == intro;
    NoneShownBehindReply(log[..taken.start], taken.first, taken.vars, taken.te);
    ResultsShownConcat(log[..BatchStart(taken)], BatchOf(mode, taken).log[..m]);
  }

  /** The batch has a hook at `m`. */
  ghost predicate HookAt(mode: ToolMode, t: Taken, m: nat) {
    HasBatch(t) && Answers(t.te) && m < |BatchOf(mode, t).log| && IsHook(BatchOf(mode, t).log[m])
  }

  /** The hook at `k` is handed the transcript that the agent has by then, without the given messages at its end. */
  ghost predicate LagsBy(log: seq<Interaction>, s: State, k: nat, lag: seq<Message>) {
    && k < |log| && IsHook(log[k])
    && ReduceAll(s, Events(log[..k])).messages == log[k].context + lag
    && (ReduceAll(s, Events(log[..k])).messages == log[k].context <==> lag == [])
  }

  /** In every run, the hooks around the calls of a concurrent batch are handed the transcript the agent has. */
  lemma ConcurrentHooksAgree(
      request: Request, context: Context, mode: ToolMode, steering: seq<Message>, turns: seq<TurnEnv>, s: State,
      t: nat, m: nat)
    requires AllAnswer(turns) && AllKeep(Rules(false, true), turns)
    requires s.messages == context.messages && AtRest(s)
    requires t < |TurnsOf(request, context, mode, steering, turns)|
    requires var taken := TurnsOf(request, context, mode, steering, turns)[t];
             !IsSequential(mode, taken) && HookAt(mode, taken, m)
    ensures var k := BatchStart(TurnsOf(request, context, mode, steering, turns)[t]) + m;
            LagsBy(RunOf(request, context, mode, steering, turns).log, s, k, [])
  {
    hide RunOf, TurnsOf, AssistantLog, ToolCalls, Answered, ResultsShown, ReduceAll, Events, AllKeep, ParallelBatch,
         SequentialBatch, ExecuteBatch, IsSequential;
    var taken := TurnsOf(request, context, mode, steering, turns)[t];
    BatchByMode(mode, taken);
    NoneShownByParallel(BatchContext(taken), CallsOf(taken), taken.te.calls, taken.te.schedule, m);
    ParallelNeverCalls(BatchContext(taken), CallsOf(taken), taken.te.calls, taken.te.schedule);
    ShownInBatch(request, context, mode, steering, turns, t, m);
    HooksMayLag(request, context, mode, steering, turns, s, BatchStart(taken) + m);
  }

  lemma ParallelNeverCalls(context: Context, calls: seq<ToolCall>, env: seq<CallEnv>, schedule: seq<Action>)
    requires |calls| <= |env|
    ensures NoCallOfProvider(ParallelBatch(context, calls, env, schedule).log)
  {
    hide Entries, InitialStatuses, Race, RaceLog, PreflightLog, MessagesLog, ResultMessages, OutcomesOf;
    var n := Reached(calls, env, 0);
    var entries := Entries(context.tools, calls, env, n);
    var start := InitialStatuses(entries);
    var st := Race(entries, start, schedule);
    PreflightShowsNoResults(context, calls, env, n);
    RaceShowsNoResults(context.messages, entries, start, schedule);
    if AllDone(st) {
      MessagesLogNeverCalls(ResultMessages(OutcomesOf(st)));
    }
  }

  /** The interaction at `m` of the sequential batch belongs to call `j`. */
  ghost predicate OfCall(t: Taken, j: nat, m: nat) {
    && Answers(t.te) && j < Reached(CallsOf(t), t.te.calls, 0)
    && WithinCall(BatchContext(t), CallsOf(t), t.te.calls, j, m)
  }

  /** The results of the first `j` calls of the turn. */
  function ResultsBefore(t: Taken, j: nat): (results: seq<Message>)
    requires Answers(t.te) && j < |CallsOf(t)|
    ensures |results| == j
  {
    ResultMessages(Outcomes(BatchContext(t).tools, CallsOf(t), t.te.calls, j))
  }

  /** In every run, the hooks around call `j` of a sequential batch are handed the transcript the agent has without the
      results of the calls before it: the same one if and only if it is the first call. */
  lemma SequentialHooksLag(
      request: Request, context: Context, mode: ToolMode, steering: seq<Message>, turns: seq<TurnEnv>, s: State,
      t: nat, j: nat, m: nat)
    requires AllAnswer(turns) && AllKeep(Rules(false, true), turns)
    requires s.messages == context.messages && AtRest(s)
    requires t < |TurnsOf(request, context, mode, steering, turns)|
    requires var taken := TurnsOf(request, context, mode, steering, turns)[t];
             IsSequential(mode, taken) && HookAt(mode, taken, m) && OfCall(taken, j, m)
    ensures var taken := TurnsOf(request, context, mode, steering, turns)[t];
            var results := ResultsBefore(taken, j);
            && LagsBy(RunOf(request, context, mode, steering, turns).log, s, BatchStart(taken) + m, results)
            && (results == [] <==> j == 0)
  {
    hide RunOf, TurnsOf, AssistantLog, ToolCalls, Answered, ResultsShown, ReduceAll, Events, AllKeep, ParallelBatch,
         Outcomes, ResultMessages, WithinCall, SequentialLog, ExecuteBatch, IsSequential;
    var taken := TurnsOf(request, context, mode, steering, turns)[t];
    BatchByMode(mode, taken);
    var n := Reached(CallsOf(taken), taken.te.calls, 0);
    ShownBySequential(BatchContext(taken), CallsOf(taken), taken.te.calls, n, j, m);
    ResultsOfCalls(BatchContext(taken), CallsOf(taken), taken.te.calls, n);
    ShownInBatch(request, context, mode, steering, turns, t, m);
    HooksMayLag(request, context, mode, steering, turns, s, BatchStart(taken) + m);
  }

  // ----- A stale transcript -----

  /** `beforeToolCall` comes right behind the announcement of its call. */
  lemma BeforeIsConsulted(context: Context, calls: seq<ToolCall>, env: seq<CallEnv>, n: nat, j: nat)
    requires j < n <= |calls| <= |env|
    requires FindTool(context.tools, calls[j].name).Some? && env[j].validated.Returned? && env[j].before.Some?
    ensures var m := |SequentialLog(context, calls, env, j)| + 1;
            && WithinCall(context, calls, env, j, m)
            && m < |SequentialLog(context, calls, env, n)|
            && SequentialLog(context, calls, env, n)[m] == ConsultBefore(calls[j].id, context.messages)
  {
    hide FindTool, ExecutionLog, Outcome, ResultMessage;
    var done, call := SequentialLog(context, calls, env, j), SequentialCallLog(context, calls[j], env[j]);
    SequentialLogGrows(context, calls, env, j + 1, n);
    assert SequentialLog(context, calls, env, j + 1) == done + call;
    assert call[1] == ConsultBefore(calls[j].id, context.messages);
  }

  /** Two calls in sequential mode, with a `beforeToolCall` that lets everything pass: the hook of the second call is
      handed a transcript without the result of the first, which the agent already has. */
  lemma SecondHookIsStale(s: State) returns (k: nat, lag: Message)
    requires s.messages == [] && AtRest(s)
    ensures var te := TwoCalls(Some(Returned(None)), []);
            && AllAnswer([te])
            && LagsBy(RunOf(Prompt([User("go")]), Context([], [READ]), Sequential, [], [te]).log, s, k, [lag])
  {
    hide RunOf, TurnsOf, AssistantLog, Answered, LagsBy, SequentialLog, Outcomes, ResultMessages, AllKeep, TwoCalls,
         OfCall;
    var te, request, context := TwoCalls(Some(Returned(None)), []), Prompt([User("go")]), Context([], [READ]);
    TwoCallsKeep(Some(Returned(None)), []);
    OneTurn(request, context, Sequential, [], te);
    var taken := TurnsOf(request, context, Sequential, [], [te])[0];
    ToolsStay(taken);
    var m := |SequentialLog(BatchContext(taken), CallsOf(taken), te.calls, 1)| + 1;
    TwoCallsHooked(taken);
    SequentialHooksLag(request, context, Sequential, [], [te], s, 0, 1, m);
    k := BatchStart(taken) + m;
    lag := ResultsBefore(taken, 1)[0];
    assert ResultsBefore(taken, 1) == [lag];
  }

  lemma TwoCallsHooked(t: Taken)
    requires t.te == TwoCalls(Some(Returned(None)), []) && t.vars.context.tools == [READ]
    ensures Answers(t.te) && |CallsOf(t)| == 2 <= |t.te.calls|
    ensures var m := |SequentialLog(BatchContext(t), CallsOf(t), t.te.calls, 1)| + 1;
            IsSequential(Sequential, t) && HookAt(Sequential, t, m) && OfCall(t, 1, m)
  {
    hide AssistantLog, Answered, SequentialLog, WithinCall;
    TwoCallsKeep(Some(Returned(None)), []);
    ToolsStay(t);
    BeforeIsConsulted(BatchContext(t), CallsOf(t), t.te.calls, 2, 1);
  }
}
