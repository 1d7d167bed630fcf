/** Whole runs keep the protocol. */
module Runs {
  import opened Types
  import opened Tools
  import opened Parallel
  import opened Scheduling
  import opened Streaming
  import opened AgentLoop
  import opened Protocol
  import opened Conformance

  /** What the rules ask of the surroundings: the provider's `start` comes at most once; if transcripts are to be
      compared, `prepareNextTurn` leaves the context in place; if every call is to be answered, nobody aborts. */
  ghost predicate Keeps(rules: Rules, te: TurnEnv) {
    && Answers(te)
    && LegalStream(te.stream)
    && (rules.mirrored ==> te.replacement.None?)
    && (rules.exact ==> forall k :: 0 <= k < |te.calls| ==> !te.calls[k].abortedAfter)
  }

  ghost predicate AllKeep(rules: Rules, turns: seq<TurnEnv>) {
    forall t :: 0 <= t < |turns| ==> Keeps(rules, turns[t])
  }

  lemma {:induction false} AllReached(calls: seq<ToolCall>, env: seq<CallEnv>, k: nat)
    requires k <= |calls| <= |env|
    requires forall i :: 0 <= i < |env| ==> !env[i].abortedAfter
    ensures Reached(calls, env, k) == |calls|
    decreases |calls| - k
  {
    if k < |calls| {
      AllReached(calls, env, k + 1);
    }
  }

  lemma BatchEntries(tools: seq<Tool>, calls: seq<ToolCall>, env: seq<CallEnv>, n: nat)
    requires n <= |calls| <= |env|
    ensures InStep(InitialStatuses(Entries(tools, calls, env, n)), Entries(tools, calls, env, n))
  {
    var entries := Entries(tools, calls, env, n);
    InitiallyCoherent(entries);
    InitialAt(entries);
  }

  lemma {:induction false} OutcomeCalls(tools: seq<Tool>, calls: seq<ToolCall>, env: seq<CallEnv>, n: nat)
    requires n <= |calls| <= |env|
    ensures forall k :: 0 <= k < n ==> Outcomes(tools, calls, env, n)[k].call == calls[k]
  {
    hide Outcome;
    if n > 0 {
      OutcomeCalls(tools, calls, env, n - 1);
      OutcomeCall(tools, calls[n - 1], env[n - 1]);
    }
  }

  /** The concurrent executor keeps the protocol, and brings the observer to where the sequential one would. */
  lemma ParallelAccepted(
      rules: Rules, w: Watch, context: Context, calls: seq<ToolCall>, env: seq<CallEnv>, schedule: seq<Action>)
    requires Acts(w, calls) && |calls| <= |env| && MayHandOut(rules, w, context.messages)
    ensures var b := ParallelBatch(context, calls, env, schedule);
            && var w' := Observe(rules, w, b.log);
            && w'.Watch? && w'.phase.Acting?
            && (!b.complete ==> w'.messages == w.messages && w'.added == w.added)
            && (b.complete ==> Observe(rules, w, b.log) == AfterCalls(w, b.finalized))
            && (b.complete ==> b.finalized == Outcomes(context.tools, calls, env, Reached(calls, env, 0)))
  {
    hide Observe, Entries, InitialStatuses, Race, RaceLog, PreflightLog, MessagesLog, Outcomes, OutcomesOf, ToolCalls,
         ResultMessages, WaitingIds, RunningIds, DoneContinues, AnyContinues, InStep, Coherent;
    var n, tools, given := Reached(calls, env, 0), context.tools, context.messages;
    var entries := Entries(tools, calls, env, n);
    var start := InitialStatuses(entries);
    BatchEntries(tools, calls, env, n);
    PreflightAccepted(rules, w, context, calls, env, n);
    RaceAccepted(rules, w, given, entries, start, schedule);
    var preflight, race := PreflightLog(context, calls, env, n), RaceLog(given, entries, start, schedule);
    ObserveConcat(rules, w, preflight, race);
    var st := Race(entries, start, schedule);
    if AllDone(st) {
      InitiallyCoherent(entries);
      RaceIsCoherent(entries, start, schedule);
      DoneOutcomes(tools, calls, env, n, st);
      OutcomeCalls(tools, calls, env, n);
      var fs := OutcomesOf(st);
      EntryAt(tools, calls, env, n);
      DoneContinuesAtEnd(st);
      NobodyWaits(entries, st);
      NobodyRuns(entries, st);
      ResultsAccepted(rules, InRace(w, entries, st), calls, fs);
      ObserveConcat(rules, w, preflight + race, MessagesLog(ResultMessages(fs)));
    }
  }

  lemma BatchAccepted(rules: Rules, w: Watch, mode: ToolMode, context: Context, te: TurnEnv)
    requires var calls := ToolCalls(te.final.content); Acts(w, calls) && calls != [] && Keeps(rules, te)
    requires MayHandOut(rules, w, context.messages)
    ensures var calls := ToolCalls(te.final.content);
            var b := ExecuteBatch(mode, context, calls, te.calls, te.schedule);
            && var w' := Observe(rules, w, b.log);
            && w'.Watch? && w'.phase.Acting?
            && (!b.complete ==> w'.messages == w.messages && w'.added == w.added)
            && (b.complete ==>
                  && Observe(rules, w, b.log) == AfterCalls(w, b.finalized)
                  && 0 < |b.finalized| <= |calls|
                  && (rules.exact ==> |b.finalized| == |calls|)
                  && AnyContinues(b.finalized) == !ShouldTerminate(b.finalized))
  {
    hide Observe, Outcomes, SequentialLog, ToolCalls, AnyContinues, ParallelBatch, ShouldTerminate, ResultMessages;
    var calls := ToolCalls(te.final.content);
    var n := Reached(calls, te.calls, 0);
    if rules.exact {
      AllReached(calls, te.calls, 0);
    }
    SequentialAccepted(rules, w, context, calls, te.calls, n);
    ParallelAccepted(rules, w, context, calls, te.calls, te.schedule);
    ContinuesUnlessTerminated(Outcomes(context.tools, calls, te.calls, n));
  }

  // ----- Turns -----

  /** The observer and the loop agree at the top of a turn that is going to be taken. */
  ghost predicate AtTop(rules: Rules, w: Watch, first: bool, v: Vars) {
    && Idle(w)
    && w.owed == v.pending && w.added == v.newMessages
    && (rules.mirrored ==> w.messages == v.context.messages)
    && if first then w.phase.Opening? && !w.continuing
       else w.phase.Between? && (w.continuing || v.pending != [])
  }

  /** The observer when the provider is called. */
  ghost function WhenCalled(w: Watch, pending: seq<Message>): Watch
    requires w.Watch?
  {
    w.(phase := Calling, continuing := false, messages := w.messages + pending, added := w.added + pending, owed := [])
  }

  lemma OpeningAccepted(rules: Rules, w: Watch, first: bool, v: Vars)
    requires AtTop(rules, w, first, v)
    ensures Observe(rules, w, OpeningLog(first, v.pending) + [LlmCall(v.context.messages + v.pending)])
         == WhenCalled(w, v.pending)
  {
    hide Observe, MessagesLog;
    var w1 := w.(phase := Opening, continuing := false);
    var start := if first then [] else [Emit(TurnStart)];
    var call := LlmCall(v.context.messages + v.pending);
    if first {
      ObserveNone(rules, w);
    } else {
      ObserveOne(rules, w, Emit(TurnStart));
    }
    ObserveConcat(rules, w, start, MessagesLog(v.pending));
    InjectionAccepted(rules, w1, v.pending);
    var w2 := w1.(messages := w.messages + v.pending, added := w.added + v.pending, owed := []);
    assert v.pending[|v.pending|..] == [];
    ObserveConcat(rules, w, OpeningLog(first, v.pending), [call]);
    ObserveOne(rules, w2, call);
  }

  /** The observer behind the assistant message of a turn. */
  ghost function WhenAnswered(w: Watch, pending: seq<Message>, final: AssistantMessage): Watch
    requires w.Watch?
  {
    AfterReply(WhenCalled(w, pending), final)
  }

  lemma AssistantAccepted(rules: Rules, w: Watch, first: bool, v: Vars, te: TurnEnv)
    requires AtTop(rules, w, first, v) && LegalStream(te.stream)
    ensures Observe(rules, w, AssistantLog(first, v, te)) == WhenAnswered(w, v.pending, te.final)
    ensures WhenAnswered(w, v.pending, te.final).added == Answered(v, te).newMessages
    ensures rules.mirrored ==> WhenAnswered(w, v.pending, te.final).messages == Answered(v, te).context.messages
  {
    hide Observe, OpeningLog, StreamLog, StreamContext, LegalStream;
    var opening := OpeningLog(first, v.pending) + [LlmCall(v.context.messages + v.pending)];
    OpeningAccepted(rules, w, first, v);
    ObserveConcat(rules, w, opening, StreamLog(te.stream, te.final, false));
    StreamAccepted(rules, WhenCalled(w, v.pending), te.stream, te.final);
    StreamingIsOneAppend(te.stream, v.context.messages + v.pending, te.final);
  }

  lemma ClosingAccepted(rules: Rules, w: Watch, v: Vars, te: TurnEnv, results: seq<Message>)
    requires Keeps(rules, te)
    requires Idle(w) && w.phase.Acting? && w.reply == te.final && !Failed(te.final)
    requires w.results == results && TurnComplete(rules, w) && w.owed == []
    requires w.added == v.newMessages && (rules.mirrored ==> w.messages == v.context.messages)
    ensures Observe(rules, w, ClosingLog(v, te, results))
         == if te.stop then w.(phase := Over) else w.(phase := Between, owed := te.steering)
  {
    hide Observe, TurnComplete, Failed;
    var log := ClosingLog(v, te, results);
    var w' := w.(phase := Between);
    ObserveTwo(rules, w, log[0], log[1]);
    ObserveTwo(rules, w', log[2], log[3]);
    ObserveConcat(rules, w, [log[0], log[1]], [log[2], log[3]]);
    assert log == [log[0], log[1]] + [log[2], log[3]];
  }

  lemma FailureAccepted(rules: Rules, w: Watch, te: TurnEnv, newMessages: seq<Message>)
    requires Idle(w) && w.phase.Acting? && w.reply == te.final && Failed(te.final)
    requires w.begun == 0 && w.results == [] && w.owed == [] && w.added == newMessages
    ensures Observe(rules, w, [Emit(TurnEnd(Assistant(te.final), [])), Emit(AgentEnd(newMessages))])
         == w.(phase := Over)
  {
    ObserveTwo(rules, w, Emit(TurnEnd(Assistant(te.final), [])), Emit(AgentEnd(newMessages)));
  }

  /** The observer has counted the messages the loop has gathered, and knows its transcript. */
  ghost predicate Matches(rules: Rules, w: Watch, v: Vars) {
    w.Watch? && w.added == v.newMessages && (rules.mirrored ==> w.messages == v.context.messages)
  }

  /** A turn that goes on leaves the observer between turns, owing what the steering poll found. */
  ghost predicate Agree(rules: Rules, w: Watch, turn: Turn) {
    && Matches(rules, w, turn.vars)
    && match turn
       case Suspended(_, _) => !w.phase.Over?
       case Ended(_, _) => w.phase.Over?
       case GoesOn(_, v, hasMore) => Idle(w) && w.phase.Between? && w.owed == v.pending && w.continuing == hasMore
  }

  lemma CloseTurnAccepted(
      rules: Rules, w0: Watch, log: seq<Interaction>, v: Vars, te: TurnEnv, results: seq<Message>, hasMore: bool)
    requires Keeps(rules, te)
    requires var w := Observe(rules, w0, log);
             && Idle(w) && w.phase.Acting? && w.reply == te.final && !Failed(te.final)
             && w.results == results && TurnComplete(rules, w) && w.owed == [] && w.continuing == hasMore
             && w.added == v.newMessages && (rules.mirrored ==> w.messages == v.context.messages)
    ensures var turn := CloseTurn(log, v, te, results, hasMore); Agree(rules, Observe(rules, w0, turn.log), turn)
  {
    hide Observe, TurnComplete, Failed, ClosingLog;
    ClosingAccepted(rules, Observe(rules, w0, log), v, te, results);
    ObserveConcat(rules, w0, log, ClosingLog(v, te, results));
  }

  lemma TurnAccepted(rules: Rules, w: Watch, first: bool, v: Vars, mode: ToolMode, te: TurnEnv)
    requires AtTop(rules, w, first, v) && Keeps(rules, te)
    ensures var turn := RunTurn(first, v, mode, te); Agree(rules, Observe(rules, w, turn.log), turn)
  {
    hide Observe, AssistantLog, Answered, ExecuteBatch, CloseTurn, ToolCalls, ResultMessages, AnyContinues,
         ShouldTerminate;
    var log, w1, calls := AssistantLog(first, v, te), WhenAnswered(w, v.pending, te.final), ToolCalls(te.final.content);
    AssistantAccepted(rules, w, first, v, te);
    if Failed(te.final) {
      FailureAccepted(rules, w1, te, Answered(v, te).newMessages);
      ObserveConcat(
        rules, w, log, [Emit(TurnEnd(Assistant(te.final), [])), Emit(AgentEnd(Answered(v, te).newMessages))]);
    } else if calls == [] {
      CloseTurnAccepted(rules, w, log, Answered(v, te), te, [], false);
    } else {
      var b := ExecuteBatch(mode, Answered(v, te).context, calls, te.calls, te.schedule);
      assert Answered(v, te).context.messages + [] == Answered(v, te).context.messages;
      BatchAccepted(rules, w1, mode, Answered(v, te).context, te);
      ObserveConcat(rules, w, log, b.log);
      if b.complete {
        var results := ResultMessages(b.finalized);
        CloseTurnAccepted(rules, w, log + b.log, WithResults(Answered(v, te), results), te, results,
                          !ShouldTerminate(b.finalized));
      }
    }
  }

  // ----- Runs -----

  /** What observer and run have to agree on when observation stops. */
  ghost predicate RunAccepted(rules: Rules, w: Watch, run: Run) {
    var w' := Observe(rules, w, run.log);
    Matches(rules, w', run.vars) && (run.ended <==> w'.phase.Over?)
  }

  lemma ThenAccepted(rules: Rules, w: Watch, log: seq<Interaction>, run: Run)
    requires RunAccepted(rules, Observe(rules, w, log), run)
    ensures RunAccepted(rules, w, Then(log, run))
  {
    hide Observe;
    ObserveConcat(rules, w, log, run.log);
  }

  lemma {:induction false} TurnsAccepted(
      rules: Rules, w: Watch, first: bool, v: Vars, mode: ToolMode, turns: seq<TurnEnv>)
    requires AtTop(rules, w, first, v) && AllKeep(rules, turns) && AllAnswer(turns)
    ensures RunAccepted(rules, w, RunTurns(first, v, mode, turns))
    decreases |turns|, 1
  {
    hide Observe, RunTurn, OpeningLog, Keeps;
    if turns == [] {
      OpeningAccepted(rules, w, first, v);
    } else {
      assert Keeps(rules, turns[0]);
      var turn := RunTurn(first, v, mode, turns[0]);
      TurnAccepted(rules, w, first, v, mode, turns[0]);
      if turn.GoesOn? {
        var w' := Observe(rules, w, turn.log);
        if turn.hasMoreToolCalls || turn.vars.pending != [] {
          TurnsAccepted(rules, w', false, turn.vars, mode, turns[1..]);
          ThenAccepted(rules, w, turn.log, RunTurns(false, turn.vars, mode, turns[1..]));
        } else {
          WindDownAccepted(rules, w', turn.vars, mode, turns[0].followUp, turns[1..]);
          ThenAccepted(rules, w, turn.log, WindDown(turn.vars, mode, turns[0].followUp, turns[1..]));
        }
      }
    }
  }

  lemma {:induction false} WindDownAccepted(
      rules: Rules, w: Watch, v: Vars, mode: ToolMode, followUp: seq<Message>, turns: seq<TurnEnv>)
    requires Idle(w) && w.phase.Between? && !w.continuing && w.owed == [] && v.pending == []
    requires w.added == v.newMessages && (rules.mirrored ==> w.messages == v.context.messages)
    requires AllKeep(rules, turns) && AllAnswer(turns)
    ensures RunAccepted(rules, w, WindDown(v, mode, followUp, turns))
    decreases |turns|, 2
  {
    hide Observe, RunTurns;
    ObserveOne(rules, w, PollFollowUp(followUp));
    var w' := w.(owed := followUp);
    if followUp == [] {
      var last := Run([Emit(AgentEnd(v.newMessages))], true, v);
      ObserveOne(rules, w', Emit(AgentEnd(v.newMessages)));
      ThenAccepted(rules, w, [PollFollowUp(followUp)], last);
    } else {
      var v' := v.(pending := followUp);
      TurnsAccepted(rules, w', false, v', mode, turns);
      ThenAccepted(rules, w, [PollFollowUp(followUp)], RunTurns(false, v', mode, turns));
    }
  }

  lemma LoopAccepted(
      rules: Rules, w: Watch, v: Vars, mode: ToolMode, steering: seq<Message>, turns: seq<TurnEnv>)
    requires Idle(w) && w.phase.Opening? && !w.continuing && w.owed == []
    requires w.added == v.newMessages && (rules.mirrored ==> w.messages == v.context.messages)
    requires AllKeep(rules, turns) && AllAnswer(turns)
    ensures RunAccepted(rules, w, Loop(v, mode, steering, turns))
  {
    hide Observe, RunTurns;
    ObserveOne(rules, w, PollSteering(steering));
    TurnsAccepted(rules, w.(owed := steering), true, v.(pending := steering), mode, turns);
    ThenAccepted(rules, w, [PollSteering(steering)], RunTurns(true, v.(pending := steering), mode, turns));
  }

  lemma RunStartAccepted(rules: Rules, messages: seq<Message>, prompts: seq<Message>)
    ensures Observe(rules, Initial(messages, prompts), [Emit(AgentStart), Emit(TurnStart)])
         == Initial(messages, prompts).(phase := Opening)
  {
    ObserveTwo(rules, Initial(messages, prompts), Emit(AgentStart), Emit(TurnStart));
  }

  lemma PromptRunAccepted(
      rules: Rules, prompts: seq<Message>, context: Context, mode: ToolMode,
      steering: seq<Message>, turns: seq<TurnEnv>)
    requires AllKeep(rules, turns) && AllAnswer(turns)
    ensures RunAccepted(rules, Initial(context.messages, prompts), PromptRun(prompts, context, mode, steering, turns))
  {
    hide Observe, Loop, RunTurns, MessagesLog;
    var w := Initial(context.messages, prompts);
    var w1 := w.(phase := Opening);
    var w2 := w1.(messages := context.messages + prompts, added := prompts, owed := []);
    var start := [Emit(AgentStart), Emit(TurnStart)];
    var v := Vars(context.(messages := context.messages + prompts), prompts, []);
    RunStartAccepted(rules, context.messages, prompts);
    InjectionAccepted(rules, w1, prompts);
    assert [] + prompts == prompts && prompts[|prompts|..] == [];
    ObserveConcat(rules, w, start, MessagesLog(prompts));
    LoopAccepted(rules, w2, v, mode, steering, turns);
    ThenAccepted(rules, w, start + MessagesLog(prompts), Loop(v, mode, steering, turns));
  }

  lemma ContinueRunAccepted(
      rules: Rules, context: Context, mode: ToolMode, steering: seq<Message>, turns: seq<TurnEnv>)
    requires AllKeep(rules, turns) && AllAnswer(turns)
    ensures RunAccepted(rules, Initial(context.messages, []), ContinueRun(context, mode, steering, turns))
  {
    hide Observe, Loop, RunTurns;
    var w := Initial(context.messages, []);
    var v := Vars(context, [], []);
    RunStartAccepted(rules, context.messages, []);
    LoopAccepted(rules, w.(phase := Opening), v, mode, steering, turns);
    ThenAccepted(rules, w, [Emit(AgentStart), Emit(TurnStart)], Loop(v, mode, steering, turns));
  }

  /** Every run keeps the protocol, wherever its observation stops: the observer starts from the given transcript
      and expects the prompts; in the end it has gathered what the loop returns, knows the loop's transcript, and
      sees the run over exactly if it is. */
  lemma RunKeepsProtocol(
      rules: Rules, request: Request, context: Context, mode: ToolMode,
      steering: seq<Message>, turns: seq<TurnEnv>)
    requires AllKeep(rules, turns) && AllAnswer(turns)
    ensures RunAccepted(rules, Initial(context.messages, Expected(request)),
                        RunOf(request, context, mode, steering, turns))
  {
    match request {
      case Prompt(prompts) => PromptRunAccepted(rules, prompts, context, mode, steering, turns);
      case Continue => ContinueRunAccepted(rules, context, mode, steering, turns);
    }
  }
}
