/** Execution discipline over whole runs: in sequential mode no two tool calls ever overlap. */
module Discipline {
  import opened Types
  import opened Tools
  import opened Parallel
  import opened Scheduling
  import opened Streaming
  import opened AgentLoop

  /** Never more than one call in flight, and none at the end. */
  ghost predicate Disciplined(log: seq<Interaction>) {
    OneAtATime(log) && InFlight(log) == 0
  }

  lemma CalmIsDisciplined(log: seq<Interaction>)
    requires NeitherStartsNorEnds(log)
    ensures Disciplined(log)
  {
    hide InFlight;
    forall m | 0 <= m <= |log| ensures InFlight(log[..m]) == 0 {
      InFlightUnchanged(log[..m]);
    }
    assert log[..|log|] == log;
  }

  lemma DisciplinedConcat(a: seq<Interaction>, b: seq<Interaction>)
    requires Disciplined(a) && Disciplined(b)
    ensures Disciplined(a + b)
  {
    hide InFlight, OneAtATime;
    OneAtATimeInTurn(a, b);
    InFlightOfConcat(a, b);
  }

  lemma {:induction false} MessagesAreCalm(ms: seq<Message>)
    ensures NeitherStartsNorEnds(MessagesLog(ms))
  {
    if ms != [] {
      MessagesAreCalm(ms[..|ms| - 1]);
    }
  }

  lemma {:induction false} StreamsAreCalm(events: seq<StreamEvent>, final: AssistantMessage, open: bool)
    ensures NeitherStartsNorEnds(StreamLog(events, final, open))
  {
    if events != [] && !events[0].Finish? {
      StreamsAreCalm(events[1..], final, open || events[0].Start?);
    }
  }

  lemma OpeningIsCalm(first: bool, v: Vars)
    ensures NeitherStartsNorEnds(OpeningLog(first, v.pending) + [LlmCall(v.context.messages + v.pending)])
  {
    MessagesAreCalm(v.pending);
  }

  lemma AssistantIsCalm(first: bool, v: Vars, te: TurnEnv)
    ensures NeitherStartsNorEnds(AssistantLog(first, v, te))
  {
    hide OpeningLog, StreamLog;
    OpeningIsCalm(first, v);
    StreamsAreCalm(te.stream, te.final, false);
  }

  lemma SequentialBatchIsDisciplined(context: Context, calls: seq<ToolCall>, env: seq<CallEnv>, schedule: seq<Action>)
    requires |calls| <= |env|
    ensures Disciplined(ExecuteBatch(Sequential, context, calls, env, schedule).log)
    ensures ExecuteBatch(Sequential, context, calls, env, schedule).complete
  {
    hide OneAtATime, InFlight;
    SequentialDiscipline(context, calls, env, Reached(calls, env, 0));
  }

  lemma ClosingIsDisciplined(log: seq<Interaction>, v: Vars, te: TurnEnv, results: seq<Message>, more: bool)
    requires Disciplined(log)
    ensures Disciplined(CloseTurn(log, v, te, results, more).log)
  {
    hide Disciplined;
    CalmIsDisciplined(ClosingLog(v, te, results));
    DisciplinedConcat(log, ClosingLog(v, te, results));
  }

  lemma TurnIsDisciplined(first: bool, v: Vars, te: TurnEnv)
    requires Answers(te)
    ensures Disciplined(RunTurn(first, v, Sequential, te).log)
  {
    hide Disciplined, AssistantLog, ExecuteBatch, CloseTurn, ToolCalls, Answered, WithResults, ResultMessages,
         ShouldTerminate;
    var log, w, calls := AssistantLog(first, v, te), Answered(v, te), ToolCalls(te.final.content);
    AssistantIsCalm(first, v, te);
    CalmIsDisciplined(log);
    if Failed(te.final) {
      var end := [Emit(TurnEnd(Assistant(te.final), [])), Emit(AgentEnd(w.newMessages))];
      CalmIsDisciplined(end);
      DisciplinedConcat(log, end);
    } else if calls == [] {
      ClosingIsDisciplined(log, w, te, [], false);
    } else {
      var b := ExecuteBatch(Sequential, w.context, calls, te.calls, te.schedule);
      SequentialBatchIsDisciplined(w.context, calls, te.calls, te.schedule);
      DisciplinedConcat(log, b.log);
      ClosingIsDisciplined(log + b.log, WithResults(w, ResultMessages(b.finalized)), te, ResultMessages(b.finalized),
                           !ShouldTerminate(b.finalized));
    }
  }

  lemma {:induction false} TurnsAreDisciplined(first: bool, v: Vars, turns: seq<TurnEnv>)
    requires AllAnswer(turns)
    ensures Disciplined(RunTurns(first, v, Sequential, turns).log)
    decreases |turns|, 1
  {
    hide Disciplined, RunTurn, OpeningLog, WindDown;
    if turns == [] {
      OpeningIsCalm(first, v);
      CalmIsDisciplined(OpeningLog(first, v.pending) + [LlmCall(v.context.messages + v.pending)]);
    } else {
      TurnIsDisciplined(first, v, turns[0]);
      var turn := RunTurn(first, v, Sequential, turns[0]);
      if turn.GoesOn? {
        if turn.hasMoreToolCalls || turn.vars.pending != [] {
          TurnsAreDisciplined(false, turn.vars, turns[1..]);
          DisciplinedConcat(turn.log, RunTurns(false, turn.vars, Sequential, turns[1..]).log);
        } else {
          WindDownIsDisciplined(turn.vars, turns[0].followUp, turns[1..]);
          DisciplinedConcat(turn.log, WindDown(turn.vars, Sequential, turns[0].followUp, turns[1..]).log);
        }
      }
    }
  }

  lemma {:induction false} WindDownIsDisciplined(v: Vars, followUp: seq<Message>, turns: seq<TurnEnv>)
    requires AllAnswer(turns)
    ensures Disciplined(WindDown(v, Sequential, followUp, turns).log)
    decreases |turns|, 2
  {
    hide Disciplined, RunTurns;
    CalmIsDisciplined([PollFollowUp(followUp)]);
    if followUp != [] {
      var w := v.(pending := followUp);
      TurnsAreDisciplined(false, w, turns);
      DisciplinedConcat([PollFollowUp(followUp)], RunTurns(false, w, Sequential, turns).log);
    } else {
      CalmIsDisciplined([Emit(AgentEnd(v.newMessages))]);
      DisciplinedConcat([PollFollowUp(followUp)], [Emit(AgentEnd(v.newMessages))]);
    }
  }

  lemma LoopIsDisciplined(start: seq<Interaction>, v: Vars, steering: seq<Message>, turns: seq<TurnEnv>)
    requires AllAnswer(turns) && NeitherStartsNorEnds(start)
    ensures Disciplined(start + Loop(v, Sequential, steering, turns).log)
  {
    hide Disciplined, RunTurns;
    var w := v.(pending := steering);
    CalmIsDisciplined(start);
    CalmIsDisciplined([PollSteering(steering)]);
    TurnsAreDisciplined(true, w, turns);
    DisciplinedConcat([PollSteering(steering)], RunTurns(true, w, Sequential, turns).log);
    DisciplinedConcat(start, Loop(v, Sequential, steering, turns).log);
  }

  /** In sequential mode at most one tool call is in flight at every point of every run, and none when observation
      stops. */
  lemma SequentialRunsDoNotOverlap(
      request: Request, context: Context, steering: seq<Message>, turns: seq<TurnEnv>, k: nat)
    requires AllAnswer(turns)
    requires k <= |RunOf(request, context, Sequential, steering, turns).log|
    ensures var log := RunOf(request, context, Sequential, steering, turns).log;
            0 <= InFlight(log[..k]) <= 1 && InFlight(log) == 0
  {
    hide Loop, InFlight, MessagesLog;
    MessagesAreCalm(Expected(request));
    match request {
      case Prompt(prompts) =>
        LoopIsDisciplined([Emit(AgentStart), Emit(TurnStart)] + MessagesLog(prompts),
                          Vars(context.(messages := context.messages + prompts), prompts, []), steering, turns);
      case Continue =>
        LoopIsDisciplined([Emit(AgentStart), Emit(TurnStart)], Vars(context, [], []), steering, turns);
    }
  }
}
