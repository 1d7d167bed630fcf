/** Neither the scheduler nor the execution mode changes what a run says. */
module Determinism {
  import opened Types
  import opened Tools
  import opened Parallel
  import opened Scheduling
  import opened Streaming
  import opened AgentLoop

  /** Two scripts that differ in nothing but how races are scheduled. */
  ghost predicate SameButSchedules(a: seq<TurnEnv>, b: seq<TurnEnv>) {
    && |a| == |b|
    && forall t :: 0 <= t < |a| ==> SameButSchedule(a[t], b[t])
  }

  ghost predicate SameButSchedule(a: TurnEnv, b: TurnEnv) {
    a == b.(schedule := a.schedule)
  }

  lemma BatchesAgree(
      modeA: ToolMode, modeB: ToolMode, context: Context, calls: seq<ToolCall>, env: seq<CallEnv>,
      scheduleA: seq<Action>, scheduleB: seq<Action>)
    requires |calls| <= |env|
    requires ExecuteBatch(modeA, context, calls, env, scheduleA).complete
    requires ExecuteBatch(modeB, context, calls, env, scheduleB).complete
    ensures var a := ExecuteBatch(modeA, context, calls, env, scheduleA);
            var b := ExecuteBatch(modeB, context, calls, env, scheduleB);
            a.finalized == b.finalized && MessageEvents(a.log) == MessageEvents(b.log)
  {
    hide ParallelBatch, SequentialBatch, MessageEvents;
    if !UsesSequential(modeA, context.tools, calls) {
      ParallelRefinesSequential(context, calls, env, scheduleA);
    }
    if !UsesSequential(modeB, context.tools, calls) {
      ParallelRefinesSequential(context, calls, env, scheduleB);
    }
  }

  ghost predicate SameMessages(a: seq<Interaction>, b: seq<Interaction>) {
    MessageEvents(a) == MessageEvents(b)
  }

  lemma SameMessagesConcat(a: seq<Interaction>, b: seq<Interaction>, c: seq<Interaction>, d: seq<Interaction>)
    requires SameMessages(a, b) && SameMessages(c, d)
    ensures SameMessages(a + c, b + d)
  {
    MessageEventsOfConcat(a, c);
    MessageEventsOfConcat(b, d);
  }

  /** Two observations of a turn agree, unless one of them is cut off. */
  ghost predicate TurnsAgree(a: Turn, b: Turn) {
    match a
    case Suspended(_, _) => true
    case Ended(log, v) => b.Suspended? || (b.Ended? && b.vars == v && SameMessages(log, b.log))
    case GoesOn(log, v, more) =>
      b.Suspended? || (b.GoesOn? && b.vars == v && b.hasMoreToolCalls == more && SameMessages(log, b.log))
  }

  lemma TurnIsDeterministic(
      modeA: ToolMode, modeB: ToolMode, first: bool, v: Vars, a: TurnEnv, b: TurnEnv)
    requires Answers(a) && Answers(b) && SameButSchedule(a, b)
    ensures TurnsAgree(RunTurn(first, v, modeA, a), RunTurn(first, v, modeB, b))
  {
    hide ExecuteBatch, AssistantLog, Answered, MessageEvents, ToolCalls, ClosingLog, ResultMessages, ShouldTerminate,
         WithResults;
    var log, w, calls := AssistantLog(first, v, a), Answered(v, a), ToolCalls(a.final.content);
    SameLogs(first, v, a, b);
    SameClosing(w, a, b, []);
    if !Failed(a.final) && calls != [] {
      var ba := ExecuteBatch(modeA, w.context, calls, a.calls, a.schedule);
      var bb := ExecuteBatch(modeB, w.context, calls, b.calls, b.schedule);
      if ba.complete && bb.complete {
        BatchesAgree(modeA, modeB, w.context, calls, a.calls, a.schedule, b.schedule);
        var results := ResultMessages(ba.finalized);
        var closing := ClosingLog(WithResults(w, results), a, results);
        SameClosing(WithResults(w, results), a, b, results);
        SameMessagesConcat(log, log, ba.log, bb.log);
        SameMessagesConcat(log + ba.log, log + bb.log, closing, closing);
      }
    }
  }

  lemma SameLogs(first: bool, v: Vars, a: TurnEnv, b: TurnEnv)
    requires SameButSchedule(a, b)
    ensures AssistantLog(first, v, a) == AssistantLog(first, v, b)
    ensures Answered(v, a) == Answered(v, b)
  {
    hide StreamLog, StreamContext;
  }

  lemma SameClosing(w: Vars, a: TurnEnv, b: TurnEnv, results: seq<Message>)
    requires SameButSchedule(a, b)
    ensures ClosingLog(w, a, results) == ClosingLog(w, b, results) && Replaced(w, a) == Replaced(w, b)
  {
  }

  ghost predicate RunsAgree(a: Run, b: Run) {
    a.ended && b.ended ==> a.vars == b.vars && SameMessages(a.log, b.log)
  }

  lemma ThenAgrees(a: seq<Interaction>, b: seq<Interaction>, runA: Run, runB: Run)
    requires SameMessages(a, b) && RunsAgree(runA, runB)
    ensures RunsAgree(Then(a, runA), Then(b, runB))
  {
    hide SameMessages;
    if runA.ended && runB.ended {
      SameMessagesConcat(a, b, runA.log, runB.log);
    }
  }

  lemma {:induction false} TurnsAreDeterministic(
      modeA: ToolMode, modeB: ToolMode, first: bool, v: Vars, a: seq<TurnEnv>, b: seq<TurnEnv>)
    requires AllAnswer(a) && AllAnswer(b) && SameButSchedules(a, b)
    ensures RunsAgree(RunTurns(first, v, modeA, a), RunTurns(first, v, modeB, b))
    decreases |a|, 1
  {
    hide RunTurn, MessageEvents, SameButSchedule;
    if a != [] {
      var turnA, turnB := RunTurn(first, v, modeA, a[0]), RunTurn(first, v, modeB, b[0]);
      TurnIsDeterministic(modeA, modeB, first, v, a[0], b[0]);
      assert a[0].followUp == b[0].followUp by { SameFollowUp(a[0], b[0]); }
      if turnA.GoesOn? && turnB.GoesOn? {
        var w := turnA.vars;
        if turnA.hasMoreToolCalls || w.pending != [] {
          TurnsAreDeterministic(modeA, modeB, false, w, a[1..], b[1..]);
          ThenAgrees(turnA.log, turnB.log, RunTurns(false, w, modeA, a[1..]), RunTurns(false, w, modeB, b[1..]));
        } else {
          WindDownIsDeterministic(modeA, modeB, w, a[0].followUp, a[1..], b[1..]);
          ThenAgrees(turnA.log, turnB.log,
                     WindDown(w, modeA, a[0].followUp, a[1..]), WindDown(w, modeB, b[0].followUp, b[1..]));
        }
      }
    }
  }

  lemma SameFollowUp(a: TurnEnv, b: TurnEnv)
    requires SameButSchedule(a, b)
    ensures a.followUp == b.followUp
  {
  }

  lemma {:induction false} WindDownIsDeterministic(
      modeA: ToolMode, modeB: ToolMode, v: Vars, followUp: seq<Message>, a: seq<TurnEnv>, b: seq<TurnEnv>)
    requires AllAnswer(a) && AllAnswer(b) && SameButSchedules(a, b)
    ensures RunsAgree(WindDown(v, modeA, followUp, a), WindDown(v, modeB, followUp, b))
    decreases |a|, 2
  {
    hide RunTurns, MessageEvents, SameButSchedules;
    if followUp != [] {
      var w := v.(pending := followUp);
      TurnsAreDeterministic(modeA, modeB, false, w, a, b);
      ThenAgrees([PollFollowUp(followUp)], [PollFollowUp(followUp)],
                 RunTurns(false, w, modeA, a), RunTurns(false, w, modeB, b));
    }
  }

  /** A run that is over has the same outcome, the same final context and the same message events, in the same order,
      under every scheduler and in both execution modes. */
  lemma RunsAreDeterministic(
      request: Request, context: Context, modeA: ToolMode, modeB: ToolMode, steering: seq<Message>,
      a: seq<TurnEnv>, b: seq<TurnEnv>)
    requires AllAnswer(a) && AllAnswer(b) && SameButSchedules(a, b)
    requires RunOf(request, context, modeA, steering, a).ended && RunOf(request, context, modeB, steering, b).ended
    ensures var runA, runB := RunOf(request, context, modeA, steering, a), RunOf(request, context, modeB, steering, b);
            runA.vars == runB.vars && MessageEvents(runA.log) == MessageEvents(runB.log)
  {
    hide RunTurns, MessageEvents, SameButSchedules, MessagesLog;
    var (start, v) := match request
      case Prompt(prompts) =>
        ([Emit(AgentStart), Emit(TurnStart)] + MessagesLog(prompts),
         Vars(context.(messages := context.messages + prompts), prompts, []))
      case Continue => ([Emit(AgentStart), Emit(TurnStart)], Vars(context, [], []));
    var w := v.(pending := steering);
    TurnsAreDeterministic(modeA, modeB, true, w, a, b);
    ThenAgrees([PollSteering(steering)], [PollSteering(steering)],
               RunTurns(true, w, modeA, a), RunTurns(true, w, modeB, b));
    ThenAgrees(start, start, Loop(v, modeA, steering, a), Loop(v, modeB, steering, b));
  }
}
