/** What a run that fails leaves running: the other tasks of a concurrent batch, and otherwise nothing. */
module Failures {
  import opened Types
  import opened Tools
  import opened Parallel
  import opened Scheduling
  import opened AgentLoop
  import opened Protocol
  import opened Guarantees
  import opened Runs
  import opened Turns

  /** Where a failure comes from: a listener refuses the event at some place, or something else throws. */
  datatype Cause = Listener(at: nat) | Elsewhere

  /** An event emitted by a task of a race: a report, or the end of a call in execution. */
  predicate IsTaskEvent(before: seq<Interaction>, x: Interaction) {
    x.Emit? && (x.event.ToolUpdate? || (x.event.ToolEnd? && x.event.id !in UnderWay(before).waiting))
  }

  /** What tasks do on their own. */
  predicate IsTaskStep(x: Interaction) {
    x.Execute? || x.ConsultAfter? || (x.Emit? && (x.event.ToolUpdate? || x.event.ToolEnd?))
  }

  /** A run can fail behind this log for this cause. Whatever throws besides a listener throws while no tool is in
      execution: `execute` and `afterToolCall` are guarded. A listener's refusal stops the run at once, unless the event
      comes from a task: then all tasks, every one of them started by then, go on until the failure has made its way
      through `Promise.all`. A task whose report was refused fails when its tool has settled, and never ends. */
  ghost predicate Fails(log: seq<Interaction>, cause: Cause) {
    match cause
    case Elsewhere => UnderWay(log).running == multiset{}
    case Listener(j) =>
      && j < |log| && log[j].Emit?
      && (j + 1 == |log| || (IsTaskEvent(log[..j], log[j]) && forall i :: j < i < |log| ==> IsTaskStep(log[i])))
      && (IsTaskEvent(log[..j], log[j]) ==> UnderWay(log).waiting == multiset{})
      && (log[j].event.ToolUpdate? ==> log[j].event.id in UnderWay(log).running)
  }

  /** The calls left running: those in execution, but not the one that failed. */
  function Left(log: seq<Interaction>, cause: Cause): multiset<string> {
    var running := UnderWay(log).running;
    if cause.Listener? && cause.at < |log| && log[cause.at].Emit? && log[cause.at].event.ToolUpdate?
    then running - multiset{log[cause.at].event.id} else running
  }

  // ----- In sequential batches -----

  /** Steps of tasks announce nothing, so there are never more calls in flight than before. */
  lemma {:induction false} TaskStepsOnlyEnd(a: seq<Interaction>, b: seq<Interaction>)
    requires forall i :: 0 <= i < |b| ==> IsTaskStep(b[i])
    ensures InFlight(a + b) <= InFlight(a)
  {
    if b == [] {
      assert a + b == a;
    } else {
      assert (a + b)[..|a + b| - 1] == a + b[..|b| - 1];
      TaskStepsOnlyEnd(a, b[..|b| - 1]);
      assert IsTaskStep(b[|b| - 1]);
    }
  }

  lemma AloneIsWhole(running: multiset<string>, id: string)
    requires id in running && |running| <= 1
    ensures running - multiset{id} == multiset{}
  {
    assert running == (running - multiset{id}) + multiset{id};
  }

  lemma InFlightSnoc(log: seq<Interaction>, x: Interaction)
    ensures InFlight(log + [x])
         == InFlight(log) + if x.Emit? && x.event.ToolStart? then 1 else if x.Emit? && x.event.ToolEnd? then -1 else 0
  {
    assert (log + [x])[..|log|] == log;
  }

  lemma UnderWaySnoc(log: seq<Interaction>, x: Interaction)
    ensures UnderWay(log + [x]) == CallsAfter(UnderWay(log), x)
  {
    assert (log + [x])[..|log|] == log;
  }

  lemma NoneInFlightBehindEnd(log: seq<Interaction>, j: nat)
    requires j < |log| && log[j].Emit? && log[j].event.ToolEnd? && InFlight(log[..j]) <= 1
    requires forall i :: j < i < |log| ==> IsTaskStep(log[i])
    ensures InFlight(log) <= 0
  {
    hide InFlight, IsTaskStep;
    assert log[..j + 1] == log[..j] + [log[j]];
    InFlightSnoc(log[..j], log[j]);
    assert log == log[..j + 1] + log[j + 1..];
    TaskStepsOnlyEnd(log[..j + 1], log[j + 1..]);
  }

  /** Behind an event that is neither a report nor an end, with no two calls under way. */
  lemma NoneRunsBehind(before: seq<Interaction>, x: Interaction)
    requires InOrder(UnderWay(before), x) && x.Emit? && !x.event.ToolUpdate? && !x.event.ToolEnd?
    requires var u := UnderWay(before + [x]); |u.waiting| + |u.running| <= 1
    ensures UnderWay(before + [x]).running == multiset{}
  {
    hide UnderWay;
    UnderWaySnoc(before, x);
    if x.event.ToolStart? {
      assert x.event.id in UnderWay(before + [x]).waiting;
      assert |UnderWay(before + [x]).waiting| >= 1;
    }
  }

  /** If calls never overlap, the one that fails is alone. */
  lemma NothingLeftAlone(log: seq<Interaction>, cause: Cause)
    requires Fails(log, cause)
    requires forall k :: 0 <= k <= |log| ==>
               InFlight(log[..k]) == |UnderWay(log[..k]).waiting| + |UnderWay(log[..k]).running|
    requires forall k :: 0 <= k < |log| ==> InOrder(UnderWay(log[..k]), log[k])
    requires InFlight(log) <= 1
    requires cause.Listener? ==> InFlight(log[..cause.at]) <= 1
    ensures Left(log, cause) == multiset{}
  {
    hide InFlight, UnderWay, InOrder, IsTaskStep;
    assert log[..|log|] == log;
    if cause.Listener? {
      var j := cause.at;
      var x := log[j];
      if x.event.ToolUpdate? {
        AloneIsWhole(UnderWay(log).running, x.event.id);
      } else if x.event.ToolEnd? {
        NoneInFlightBehindEnd(log, j);
      } else {
        assert log == log[..j] + [x];
        NoneRunsBehind(log[..j], x);
      }
    }
  }

  /** A failure in a sequential batch leaves nothing running. */
  lemma NothingLeftInSequence(
      request: Request, context: Context, mode: ToolMode, steering: seq<Message>, turns: seq<TurnEnv>, t: nat, m: nat,
      cause: Cause)
    requires AllAnswer(turns) && AllKeep(Rules(false, false), turns)
    requires t < |TurnsOf(request, context, mode, steering, turns)|
    requires var taken := TurnsOf(request, context, mode, steering, turns)[t];
             && HasBatch(taken) && IsSequential(mode, taken) && Answers(taken.te)
             && m <= |BatchOf(mode, taken).log|
    requires var k := BatchStart(TurnsOf(request, context, mode, steering, turns)[t]) + m;
             var log := RunOf(request, context, mode, steering, turns).log;
             k <= |log| && Fails(log[..k], cause)
    ensures var k := BatchStart(TurnsOf(request, context, mode, steering, turns)[t]) + m;
            Left(RunOf(request, context, mode, steering, turns).log[..k], cause) == multiset{}
  {
    hide RunOf, TurnsOf, UnderWay, AssistantLog, ToolCalls, Answered, InFlight, ExecuteBatch, AllKeep, Fails, Left;
    var taken := TurnsOf(request, context, mode, steering, turns)[t];
    var log := RunOf(request, context, mode, steering, turns).log;
    var at, batch := BatchStart(taken), BatchOf(mode, taken).log;
    var before := log[..at + m];
    SequentialTurnsDoNotOverlap(request, context, mode, steering, turns, t, m);
    UnderWayInBatch(request, context, mode, steering, turns, t, m);
    RunIsOrderly(request, context, mode, steering, turns, at + m);
    if m == 0 {
      NothingLeftWhenNoneRuns(before, cause);
    } else {
      if cause.Listener? {
        ListenerIsInBatch(before, cause, at, batch[..m], mode, taken);
        SequentialTurnsDoNotOverlap(request, context, mode, steering, turns, t, cause.at - at);
        assert before[..cause.at] == log[..cause.at];
      }
      NothingLeftAlone(before, cause);
    }
  }

  lemma NothingLeftWhenNoneRuns(log: seq<Interaction>, cause: Cause)
    requires UnderWay(log).running == multiset{}
    ensures Left(log, cause) == multiset{}
  {
    hide UnderWay;
    if cause.Listener? && cause.at < |log| && log[cause.at].Emit? && log[cause.at].event.ToolUpdate? {
      assert multiset{} - multiset{log[cause.at].event.id} == multiset{};
    }
  }

  /** A batch begins with an announcement, which no task makes: so what was refused before is not followed by it. */
  lemma ListenerIsInBatch(
      before: seq<Interaction>, cause: Cause, at: nat, done: seq<Interaction>, mode: ToolMode, t: Taken)
    requires cause.Listener? && Fails(before, cause)
    requires HasBatch(t) && Answers(t.te) && done != [] && done <= BatchOf(mode, t).log
    requires at + |done| == |before| && before == before[..at] + done
    ensures at <= cause.at < |before|
  {
    hide UnderWay, AssistantLog, ToolCalls, Answered;
    BatchBeginsWithStart(mode, t);
    assert before[at] == done[0] == BatchOf(mode, t).log[0];
    assert !IsTaskStep(before[at]);
  }

  lemma BatchBeginsWithStart(mode: ToolMode, t: Taken)
    requires HasBatch(t) && Answers(t.te)
    ensures var log := BatchOf(mode, t).log; log != [] && log[0].Emit? && log[0].event.ToolStart?
  {
    hide ToolCalls, Answered, InitialStatuses, Race, RaceLog, MessagesLog, ResultMessages, OutcomesOf, Entries;
    var context, calls, env := BatchContext(t), CallsOf(t), t.te.calls;
    SequentialBegins(context, calls, env, Reached(calls, env, 0));
  }

  lemma {:induction false} SequentialBegins(context: Context, calls: seq<ToolCall>, env: seq<CallEnv>, n: nat)
    requires 0 < n <= |calls| <= |env|
    ensures var log := SequentialLog(context, calls, env, n); log != [] && log[0] == Emit(StartEvent(calls[0]))
    ensures var log := PreflightLog(context, calls, env, n); log != [] && log[0] == Emit(StartEvent(calls[0]))
  {
    hide Prepare, Outcome, ResultMessage, ExecutionLog, BeforeLog;
    if n > 1 {
      SequentialBegins(context, calls, env, n - 1);
    }
  }

  /** What is known of every point of a run. */
  lemma RunIsOrderly(
      request: Request, context: Context, mode: ToolMode, steering: seq<Message>, turns: seq<TurnEnv>, k: nat)
    requires AllAnswer(turns) && AllKeep(Rules(false, false), turns)
    requires k <= |RunOf(request, context, mode, steering, turns).log|
    ensures var log := RunOf(request, context, mode, steering, turns).log[..k];
            && (forall i :: 0 <= i <= k ==>
                  InFlight(log[..i]) == |UnderWay(log[..i]).waiting| + |UnderWay(log[..i]).running|)
            && (forall i :: 0 <= i < k ==> InOrder(UnderWay(log[..i]), log[i]))
  {
    hide RunOf, UnderWay, InFlight, AllKeep, InOrder, Observe, TurnTally;
    var whole := RunOf(request, context, mode, steering, turns).log;
    var log := whole[..k];
    var rules, w := Rules(false, false), Initial(context.messages, Expected(request));
    RunKeepsProtocol(rules, request, context, mode, steering, turns);
    forall i | 0 <= i <= k
      ensures InFlight(log[..i]) == |UnderWay(log[..i]).waiting| + |UnderWay(log[..i]).running|
    {
      RunFlight(request, context, mode, steering, turns, i);
      assert log[..i] == whole[..i];
    }
    forall i | 0 <= i < k ensures InOrder(UnderWay(log[..i]), log[i]) {
      ToolLifecycle(rules, w, whole, i);
      assert log[..i] == whole[..i];
    }
  }

  // ----- Elsewhere -----

  lemma CalmPrefix(log: seq<Interaction>, k: nat)
    requires Calm(log) && k <= |log|
    ensures UnderWay(log[..k]) == NONE_UNDER_WAY
  {
    CalmFromRest(log[..k]);
  }

  /** Within a turn, calls are in execution only within its batch. */
  lemma RunningWithinTurn(mode: ToolMode, t: Taken, k: nat)
    requires Keeps(Rules(false, false), t.te) && Answers(t.te) && k <= |TurnLog(mode, t)|
    ensures UnderWay(TurnLog(mode, t)[..k]).running == multiset{}
            || (HasBatch(t) && BatchStart(t) < t.start + k <= BatchStart(t) + |BatchOf(mode, t).log|)
  {
    hide UnderWay, AssistantLog, RunTurn, BatchOf, Keeps, Calm;
    var log, intro := TurnLog(mode, t), AssistantLog(t.first, t.vars, t.te);
    if HasBatch(t) {
      var closing := BatchIsInTurn(mode, t);
      var batch := BatchOf(mode, t).log;
      AssistantLogIsCalm(t.first, t.vars, t.te);
      if k <= |intro| {
        CalmPrefix(intro, k);
        assert log[..k] == intro[..k];
      } else if k > |intro| + |batch| {
        var i := k - |intro| - |batch|;
        TurnLeavesNothingUnderWay(t.first, t.vars, mode, t.te);
        UnderWayUnchanged(intro + batch, closing);
        CalmSlice(closing, i);
        UnderWayUnchanged(intro + batch, closing[..i]);
        assert log[..k] == (intro + batch) + closing[..i];
      }
    } else {
      TurnWithoutBatch(mode, t);
      CalmPrefix(log, k);
    }
  }

  lemma CalmSlice(log: seq<Interaction>, k: nat)
    requires Calm(log) && k <= |log|
    ensures Calm(log[..k])
  {
  }

  lemma TurnWithoutBatch(mode: ToolMode, t: Taken)
    requires Answers(t.te) && !HasBatch(t)
    ensures Calm(TurnLog(mode, t))
  {
    hide AssistantLog, ToolCalls, Answered;
    AssistantLogIsCalm(t.first, t.vars, t.te);
  }

  lemma NothingFurther(start: nat, first: bool, v: Vars, mode: ToolMode, turns: seq<TurnEnv>)
    returns (rest: seq<Interaction>)
    requires AllAnswer(turns) && |TurnsTaken(start, first, v, mode, turns)| == 1
    ensures turns != []
    ensures RunTurns(first, v, mode, turns).log == RunTurn(first, v, mode, turns[0]).log + rest && Calm(rest)
    ensures rest != [] ==> RunTurn(first, v, mode, turns[0]).GoesOn?
  {
    hide RunTurn, OpeningLog;
    var turn := RunTurn(first, v, mode, turns[0]);
    match turn {
      case GoesOn(log, w, more) =>
        if more || w.pending != [] {
          NoTurns(start + |log|, false, w, mode, turns[1..]);
          rest := RunTurns(false, w, mode, turns[1..]).log;
          OpeningLogIsCalm(false, w);
        } else {
          var followUp := turns[0].followUp;
          var next := w.(pending := followUp);
          NoTurns(start + |log| + 1, false, next, mode, turns[1..]);
          rest := WindDown(w, mode, followUp, turns[1..]).log;
          WindDownIsCalm(w, mode, followUp, turns[1..]);
        }
      case _ =>
        rest := [];
        assert turn.log + [] == turn.log;
    }
  }

  lemma WindDownIsCalm(v: Vars, mode: ToolMode, followUp: seq<Message>, turns: seq<TurnEnv>)
    requires AllAnswer(turns) && (followUp == [] || turns == [])
    ensures Calm(WindDown(v, mode, followUp, turns).log)
  {
    hide OpeningLog, RunTurn;
    if followUp != [] {
      var next := v.(pending := followUp);
      OpeningLogIsCalm(false, next);
      assert RunTurns(false, next, mode, turns).log
          == OpeningLog(false, next.pending) + [LlmCall(next.context.messages + next.pending)];
    }
  }

  /** Over all turns, too. */
  lemma {:induction false} RunningWithinTurns(
      start: nat, first: bool, v: Vars, mode: ToolMode, turns: seq<TurnEnv>, k: nat)
    returns (t: nat)
    requires AllAnswer(turns) && AllKeep(Rules(false, false), turns) && k <= |RunTurns(first, v, mode, turns).log|
    ensures UnderWay(RunTurns(first, v, mode, turns).log[..k]).running == multiset{}
            || (t < |TurnsTaken(start, first, v, mode, turns)|
                && InBatch(TurnsTaken(start, first, v, mode, turns)[t], mode, start + k))
    decreases |turns|
  {
    hide RunTurn, TurnsTaken, UnderWay, Keeps, Answers, OpeningLog, Calm, InBatch;
    t := 0;
    var all := RunTurns(first, v, mode, turns).log;
    NoTurns(start, first, v, mode, turns);
    if turns == [] {
      OpeningLogIsCalm(first, v);
      CalmPrefix(all, k);
    } else {
      hide RunTurns;
      assert Keeps(Rules(false, false), turns[0]) && Answers(turns[0]);
      var rest := FirstTurnIsThere(start, first, v, mode, turns);
      var taken := Taken(start, first, v, turns[0]);
      var log := RunTurn(first, v, mode, turns[0]).log;
      if k <= |log| {
        RunningWithinTurn(mode, taken, k);
        assert all[..k] == log[..k];
        InBatchIfRunning(taken, mode, k);
      } else if |TurnsTaken(start, first, v, mode, turns)| == 1 {
        rest := NothingFurther(start, first, v, mode, turns);
        TurnLeavesNothingUnderWay(first, v, mode, turns[0]);
        CalmSlice(rest, k - |log|);
        UnderWayUnchanged(log, rest[..k - |log|]);
        assert all[..k] == log + rest[..k - |log|];
      } else {
        t := RunningFurther(start, first, v, mode, turns, k);
      }
    }
  }

  /** The point `at` of a run is within the batch of this turn. */
  ghost predicate InBatch(t: Taken, mode: ToolMode, at: nat) {
    HasBatch(t) && Answers(t.te) && BatchStart(t) < at <= BatchStart(t) + |BatchOf(mode, t).log|
  }

  lemma InBatchIfRunning(t: Taken, mode: ToolMode, k: nat)
    requires Answers(t.te)
    ensures HasBatch(t) && BatchStart(t) < t.start + k <= BatchStart(t) + |BatchOf(mode, t).log| ==>
              InBatch(t, mode, t.start + k)
  {
  }

  lemma {:induction false} RunningFurther(
      start: nat, first: bool, v: Vars, mode: ToolMode, turns: seq<TurnEnv>, k: nat)
    returns (t: nat)
    requires AllAnswer(turns) && AllKeep(Rules(false, false), turns)
    requires |TurnsTaken(start, first, v, mode, turns)| > 1 && turns != []
    requires |RunTurn(first, v, mode, turns[0]).log| < k <= |RunTurns(first, v, mode, turns).log|
    ensures UnderWay(RunTurns(first, v, mode, turns).log[..k]).running == multiset{}
            || (t < |TurnsTaken(start, first, v, mode, turns)|
                && InBatch(TurnsTaken(start, first, v, mode, turns)[t], mode, start + k))
    decreases |turns|, 0
  {
    hide RunTurn, RunTurns, TurnsTaken, UnderWay, Keeps, Calm, InBatch;
    t := 0;
    var log, all := RunTurn(first, v, mode, turns[0]).log, RunTurns(first, v, mode, turns).log;
    assert Keeps(Rules(false, false), turns[0]);
    TurnLeavesNothingUnderWay(first, v, mode, turns[0]);
    GoesOnIfFurther(start, first, v, mode, turns);
    var pause, w := Further(start, first, v, mode, turns);
    var rest := RunTurns(false, w, mode, turns[1..]).log;
    if k <= |log| + |pause| {
      CalmSlice(pause, k - |log|);
      UnderWayUnchanged(log, pause[..k - |log|]);
      assert all[..k] == log + pause[..k - |log|];
    } else {
      var i := k - |log| - |pause|;
      UnderWayUnchanged(log, pause);
      UnderWayBehind(log + pause, rest[..i]);
      assert all[..k] == (log + pause) + rest[..i];
      t := RunningWithinTurns(start + |log| + |pause|, false, w, mode, turns[1..], i);
      t := t + 1;
    }
  }

  /** At every point of a run, either no call is in execution or the point is within the batch of a turn. */
  lemma RunningOnlyInBatches(
      request: Request, context: Context, mode: ToolMode, steering: seq<Message>, turns: seq<TurnEnv>, k: nat)
    returns (t: nat)
    requires AllAnswer(turns) && AllKeep(Rules(false, false), turns)
    requires k <= |RunOf(request, context, mode, steering, turns).log|
    ensures UnderWay(RunOf(request, context, mode, steering, turns).log[..k]).running == multiset{}
            || (t < |TurnsOf(request, context, mode, steering, turns)|
                && InBatch(TurnsOf(request, context, mode, steering, turns)[t], mode, k))
  {
    hide RunOf, RunTurns, TurnsTaken, Opener, StartVars, UnderWay, Calm, InBatch;
    t := 0;
    var opener, v := Opener(request, steering), StartVars(request, context, steering);
    var log, rest := RunOf(request, context, mode, steering, turns).log, RunTurns(true, v, mode, turns).log;
    RunIsOpenerAndTurns(request, context, mode, steering, turns);
    OpenerIsCalm(request, steering);
    if k <= |opener| {
      CalmPrefix(opener, k);
      assert log[..k] == opener[..k];
    } else {
      CalmFromRest(opener);
      t := RunningWithinTurns(|opener|, true, v, mode, turns, k - |opener|);
      UnderWayBehind(opener, rest[..k - |opener|]);
      assert log[..k] == opener + rest[..k - |opener|];
    }
  }

  /** A failure leaves calls running only within a concurrent batch, and there only behind the preflight: everywhere else
      it leaves none. */
  lemma LeftOnlyByRaces(
      request: Request, context: Context, mode: ToolMode, steering: seq<Message>, turns: seq<TurnEnv>, k: nat,
      cause: Cause)
    returns (t: nat)
    requires AllAnswer(turns) && AllKeep(Rules(false, false), turns)
    requires k <= |RunOf(request, context, mode, steering, turns).log|
    requires Fails(RunOf(request, context, mode, steering, turns).log[..k], cause)
    ensures Left(RunOf(request, context, mode, steering, turns).log[..k], cause) == multiset{}
            || (t < |TurnsOf(request, context, mode, steering, turns)|
                && InRace(TurnsOf(request, context, mode, steering, turns)[t], mode, k))
  {
    hide RunOf, TurnsOf, UnderWay, AssistantLog, ToolCalls, Answered, ExecuteBatch, AllKeep, Fails, Left, IsSequential;
    var log := RunOf(request, context, mode, steering, turns).log;
    t := RunningOnlyInBatches(request, context, mode, steering, turns, k);
    if UnderWay(log[..k]).running == multiset{} {
      NothingLeftWhenNoneRuns(log[..k], cause);
    } else {
      var taken := TurnsOf(request, context, mode, steering, turns)[t];
      var m := k - BatchStart(taken);
      if IsSequential(mode, taken) {
        NothingLeftInSequence(request, context, mode, steering, turns, t, m, cause);
      } else {
        UnderWayInBatch(request, context, mode, steering, turns, t, m);
        NoneRunInPreflight(mode, taken, m);
      }
    }
  }

  /** The point `at` of a run is within a concurrent batch, behind its preflight. */
  ghost predicate InRace(t: Taken, mode: ToolMode, at: nat) {
    InBatch(t, mode, at) && !IsSequential(mode, t) && BatchStart(t) + |PreflightOf(t)| < at
  }

  function PreflightOf(t: Taken): seq<Interaction>
    requires Answers(t.te)
  {
    PreflightLog(BatchContext(t), CallsOf(t), t.te.calls, Reached(CallsOf(t), t.te.calls, 0))
  }

  lemma NoneRunInPreflight(mode: ToolMode, t: Taken, m: nat)
    requires HasBatch(t) && Answers(t.te) && !IsSequential(mode, t) && m <= |BatchOf(mode, t).log|
    ensures m <= |PreflightOf(t)| ==> UnderWay(BatchOf(mode, t).log[..m]).running == multiset{}
  {
    hide UnderWay, ToolCalls, Answered, ExecuteBatch, PreflightLog, Entries, OnlyTasks;
    PreflightComesFirst(mode, BatchContext(t), CallsOf(t), t.te.calls, t.te.schedule);
    var preflight, batch := PreflightOf(t), BatchOf(mode, t).log;
    PreflightNeverExecutes(BatchContext(t), CallsOf(t), t.te.calls, Reached(CallsOf(t), t.te.calls, 0));
    if m <= |preflight| {
      assert batch[..m] == preflight[..m];
      RunningNeedsExecute(preflight[..m]);
    }
  }

  lemma {:induction false} PreflightNeverExecutes(context: Context, calls: seq<ToolCall>, env: seq<CallEnv>, n: nat)
    requires n <= |calls| <= |env|
    ensures forall k :: 0 <= k < |PreflightLog(context, calls, env, n)| ==>
              !PreflightLog(context, calls, env, n)[k].Execute?
  {
    hide Prepare;
    if n > 0 {
      PreflightNeverExecutes(context, calls, env, n - 1);
    }
  }

  /** In sequential mode no failure of any run leaves a call running. */
  lemma NothingLeftInSequentialMode(
      request: Request, context: Context, steering: seq<Message>, turns: seq<TurnEnv>, k: nat, cause: Cause)
    requires AllAnswer(turns) && AllKeep(Rules(false, false), turns)
    requires k <= |RunOf(request, context, Sequential, steering, turns).log|
    requires Fails(RunOf(request, context, Sequential, steering, turns).log[..k], cause)
    ensures Left(RunOf(request, context, Sequential, steering, turns).log[..k], cause) == multiset{}
  {
    hide RunOf, TurnsOf, UnderWay, ToolCalls, Answered, ExecuteBatch, AllKeep, Fails, Left, InBatch;
    var _ := LeftOnlyByRaces(request, context, Sequential, steering, turns, k, cause);
  }

  // ----- A failing race -----

  /** Both calls are started, and the first one runs to its end. */
  const FIRST_ENDS: seq<Action> := [Launch(0), Launch(1), Resolve(0), Review(0), Complete(0)]

  lemma RaceStep(given: seq<Message>, entries: seq<Entry>, st: seq<Status>, a: Action, rest: seq<Action>)
    requires Enabled(entries, st, a)
    ensures RaceLog(given, entries, st, [a] + rest)
         == ActionLog(given, entries, st, a) + RaceLog(given, entries, After(entries, st, a), rest)
    ensures Race(entries, st, [a] + rest) == Race(entries, After(entries, st, a), rest)
  {
    hide ActionLog, After, Enabled;
    assert ([a] + rest)[1..] == rest;
  }

  lemma FirstEndsRace(given: seq<Message>, e: Entry, f: Entry)
    requires e.Task? && f.Task? && e.env.ticks == [] && f.env.ticks == [] && e.env.after.None?
    ensures RaceLog(given, [e, f], [Waiting, Waiting], FIRST_ENDS)
         == [Execute(e.call.id, e.args), Execute(f.call.id, f.args), Emit(EndEvent(EntryOutcome(e)))]
    ensures !AllDone(Race([e, f], [Waiting, Waiting], FIRST_ENDS))
  {
    hide EntryOutcome, RaceLog, Race;
    var entries := [e, f];
    var s0: seq<Status> := [Waiting, Waiting];
    var s1: seq<Status> := [Running([]), Waiting];
    var s2: seq<Status> := [Running([]), Running([])];
    var s3: seq<Status> := [Settled, Running([])];
    var s4: seq<Status> := [InReview, Running([])];
    var s5: seq<Status> := [Done(EntryOutcome(e)), Running([])];
    assert After(entries, s0, Launch(0)) == s1;
    assert After(entries, s1, Launch(1)) == s2;
    assert After(entries, s2, Resolve(0)) == s3;
    assert After(entries, s3, Review(0)) == s4;
    assert After(entries, s4, Complete(0)) == s5;
    assert ActionLog(given, entries, s2, Resolve(0)) == [] && ActionLog(given, entries, s3, Review(0)) == [];
    var end := [Emit(EndEvent(EntryOutcome(e)))];
    assert end + [] == end && [] + end == end;
    RaceEnds(given, entries, s5);
    RaceStep(given, entries, s4, Complete(0), []);
    RaceStep(given, entries, s3, Review(0), [Complete(0)]);
    RaceStep(given, entries, s2, Resolve(0), [Review(0), Complete(0)]);
    RaceStep(given, entries, s1, Launch(1), [Resolve(0), Review(0), Complete(0)]);
    RaceStep(given, entries, s0, Launch(0), [Launch(1), Resolve(0), Review(0), Complete(0)]);
    assert [Complete(0)] + [] == [Complete(0)] && [Review(0)] + [Complete(0)] == [Review(0), Complete(0)];
    assert [Resolve(0)] + [Review(0), Complete(0)] == [Resolve(0), Review(0), Complete(0)];
    assert [Launch(1)] + [Resolve(0), Review(0), Complete(0)] == [Launch(1), Resolve(0), Review(0), Complete(0)];
    assert [Launch(0)] + [Launch(1), Resolve(0), Review(0), Complete(0)] == FIRST_ENDS;
    var x, y := Execute(e.call.id, e.args), Execute(f.call.id, f.args);
    assert RaceLog(given, entries, s2, [Resolve(0), Review(0), Complete(0)]) == end;
    assert [x] + ([y] + end) == [x, y, Emit(EndEvent(EntryOutcome(e)))];
    assert RaceLog(given, entries, s0, FIRST_ENDS) == [x] + ([y] + end);
    assert s5[1].Running?;
  }

  lemma RaceEnds(given: seq<Message>, entries: seq<Entry>, st: seq<Status>)
    ensures RaceLog(given, entries, st, []) == [] && Race(entries, st, []) == st
  {
  }

  /** What the concurrent executor shows of two calls until the first one ends. */
  lemma TwoCallsBatch(t: Taken)
    requires t.te == TwoCalls(None, FIRST_ENDS) && t.vars.context.tools == [READ]
    ensures Answers(t.te) && HasBatch(t) && !IsSequential(Parallel, t)
    ensures |BatchOf(Parallel, t).log| == 5
    ensures var log := BatchOf(Parallel, t).log;
            && log[0] == Emit(StartEvent(ReadCall("a"))) && log[1] == Emit(StartEvent(ReadCall("b")))
            && log[2] == Execute("a", EMPTY_OBJECT) && log[3] == Execute("b", EMPTY_OBJECT)
            && log[4].Emit? && log[4].event.ToolEnd? && log[4].event.id == "a"
  {
    hide AssistantLog, Answered, RaceLog, Race, ExecuteBatch;
    TwoCallsKeep(None, FIRST_ENDS);
    ToolsStay(t);
    BatchByMode(Parallel, t);
    var context, calls, env := BatchContext(t), CallsOf(t), t.te.calls;
    var e, f := Task(ReadCall("a"), EMPTY_OBJECT, env[0]), Task(ReadCall("b"), EMPTY_OBJECT, env[1]);
    assert calls == [ReadCall("a"), ReadCall("b")];
    assert Reached(calls, env, 0) == 2;
    TwoEntries(context, env);
    FirstEndsRace(context.messages, e, f);
  }

  lemma OneEntry(context: Context, id: string, env: CallEnv)
    requires context.tools == [READ] && env.before.None? && !env.abortedAtPreflight
    requires env.validated == Returned(EMPTY_OBJECT)
    ensures EntryOf(context.tools, ReadCall(id), env) == Task(ReadCall(id), EMPTY_OBJECT, env)
    ensures PreflightCallLog(context, ReadCall(id), env) == [Emit(StartEvent(ReadCall(id)))]
  {
    var call, start := ReadCall(id), Emit(StartEvent(ReadCall(id)));
    assert Prepare(context.tools, call, env) == Prepared(EMPTY_OBJECT);
    assert BeforeLog(context, call, env) == [];
    assert [start] + [] + [] == [start];
  }

  lemma OfTwo(context: Context, calls: seq<ToolCall>, env: seq<CallEnv>)
    requires |calls| == |env| == 2
    ensures Entries(context.tools, calls, env, 2)
         == [EntryOf(context.tools, calls[0], env[0]), EntryOf(context.tools, calls[1], env[1])]
    ensures PreflightLog(context, calls, env, 2)
         == PreflightCallLog(context, calls[0], env[0]) + PreflightCallLog(context, calls[1], env[1])
  {
    hide EntryOf, PreflightCallLog;
    var tools := context.tools;
    assert Entries(tools, calls, env, 0) == [] && PreflightLog(context, calls, env, 0) == [];
    assert Entries(tools, calls, env, 1) == [] + [EntryOf(tools, calls[0], env[0])];
    assert PreflightLog(context, calls, env, 1) == [] + PreflightCallLog(context, calls[0], env[0]);
    assert [] + PreflightCallLog(context, calls[0], env[0]) == PreflightCallLog(context, calls[0], env[0]);
  }

  lemma TwoEntries(context: Context, env: seq<CallEnv>)
    requires context.tools == [READ] && env == TwoCalls(None, FIRST_ENDS).calls
    ensures var calls := [ReadCall("a"), ReadCall("b")];
            && Entries(context.tools, calls, env, 2)
            == [Task(ReadCall("a"), EMPTY_OBJECT, env[0]), Task(ReadCall("b"), EMPTY_OBJECT, env[1])]
            && InitialStatuses(Entries(context.tools, calls, env, 2)) == [Waiting, Waiting]
            && PreflightLog(context, calls, env, 2)
            == [Emit(StartEvent(ReadCall("a"))), Emit(StartEvent(ReadCall("b")))]
  {
    hide Entries, PreflightLog, EntryOf, PreflightCallLog, StartEvent, ReadCall, InitialStatuses;
    OneEntry(context, "a", env[0]);
    OneEntry(context, "b", env[1]);
    OfTwo(context, [ReadCall("a"), ReadCall("b")], env);
    InitialAt(Entries(context.tools, [ReadCall("a"), ReadCall("b")], env, 2));
  }

  lemma AnnounceOne(u: Calls, id: string)
    ensures CallsAfter(u, Emit(StartEvent(ReadCall(id)))) == u.(waiting := u.waiting + multiset{id})
    ensures CallsAfter(u, Execute(id, EMPTY_OBJECT)) == Calls(u.waiting - multiset{id}, u.running + multiset{id})
  {
  }

  lemma TwoIds(a: string, b: string)
    ensures multiset{} + multiset{a} + multiset{b} == multiset{a, b}
    ensures multiset{a, b} - multiset{a} == multiset{b} && multiset{b} - multiset{b} == multiset{}
  {
  }

  lemma FiveUnderWay(log: seq<Interaction>)
    requires |log| == 5
    requires log[0] == Emit(StartEvent(ReadCall("a"))) && log[1] == Emit(StartEvent(ReadCall("b")))
    requires log[2] == Execute("a", EMPTY_OBJECT) && log[3] == Execute("b", EMPTY_OBJECT)
    requires log[4].Emit? && log[4].event.ToolEnd? && log[4].event.id == "a"
    ensures UnderWay(log) == Calls(multiset{}, multiset{"b"})
  {
    hide UnderWay, StartEvent, ReadCall;
    var x := log[4];
    assert log == [log[0], log[1]] + [log[2], log[3]] + [x];
    assert [log[0], log[1]] == [] + [log[0]] + [log[1]];
    assert [log[0], log[1]] + [log[2], log[3]] == [log[0], log[1]] + [log[2]] + [log[3]];
    NoneYet();
    TwoIds("a", "b");
    AnnounceOne(NONE_UNDER_WAY, "a");
    AnnounceOne(Calls(multiset{} + multiset{"a"}, multiset{}), "b");
    AnnounceOne(Calls(multiset{"a", "b"}, multiset{}), "a");
    AnnounceOne(Calls(multiset{"b"}, multiset{} + multiset{"a"}), "b");
    hide CallsAfter;
    UnderWaySnoc([], log[0]);
    UnderWaySnoc([] + [log[0]], log[1]);
    UnderWaySnoc([log[0], log[1]], log[2]);
    UnderWaySnoc([log[0], log[1]] + [log[2]], log[3]);
    UnderWaySnoc([log[0], log[1]] + [log[2], log[3]], x);
    EndOne(x);
  }

  lemma NoneYet()
    ensures UnderWay([]) == NONE_UNDER_WAY
  {
  }

  lemma EndOne(x: Interaction)
    requires x.Emit? && x.event.ToolEnd? && x.event.id == "a"
    ensures CallsAfter(Calls(multiset{}, multiset{} + multiset{"a"} + multiset{"b"}), x)
         == Calls(multiset{}, multiset{"b"})
  {
    TwoIds("a", "b");
  }

  /** Two calls of a concurrent batch: a listener that refuses the end of the first one fails the run while the second is
      still running. */
  lemma ARaceLeavesOneRunning() returns (k: nat)
    ensures var te := TwoCalls(None, FIRST_ENDS);
            && AllAnswer([te]) && AllKeep(Rules(false, true), [te]) && AllKeep(Rules(false, false), [te])
            && var log := RunOf(Prompt([User("go")]), Context([], [READ]), Parallel, [], [te]).log;
               && 0 < k <= |log| && Fails(log[..k], Listener(k - 1))
               && Left(log[..k], Listener(k - 1)) == multiset{"b"}
  {
    hide RunOf, TurnsOf, AssistantLog, Answered, AllKeep, TwoCalls, UnderWay, ExecuteBatch;
    var te, request, context := TwoCalls(None, FIRST_ENDS), Prompt([User("go")]), Context([], [READ]);
    TwoCallsKeep(None, FIRST_ENDS);
    OneTurn(request, context, Parallel, [], te);
    var taken := TurnsOf(request, context, Parallel, [], [te])[0];
    TwoCallsBatch(taken);
    var batch := BatchOf(Parallel, taken).log;
    k := BatchStart(taken) + 5;
    UnderWayInBatch(request, context, Parallel, [], [te], 0, 5);
    assert batch[..5] == batch;
    FiveUnderWay(batch);
    var log := RunOf(request, context, Parallel, [], [te]).log;
    assert log[..k][k - 1] == batch[4];
  }
}
