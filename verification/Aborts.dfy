/** What an abort stops: in a batch the announcement of further calls, and in the turns behind it every execution. */
module Aborts {
  import opened Types
  import opened Tools
  import opened Parallel
  import opened Scheduling
  import opened AgentLoop
  import opened Turns

  // ----- What a batch announces and executes -----

  /** The calls announced in a log, in order. */
  function Announcements(log: seq<Interaction>): seq<Interaction> {
    if log == [] then []
    else
      var x := log[|log| - 1];
      Announcements(log[..|log| - 1]) + if x.Emit? && x.event.ToolStart? then [x] else []
  }

  /** The executions of tools in a log, in order. */
  function Executions(log: seq<Interaction>): seq<Interaction> {
    if log == [] then []
    else
      var x := log[|log| - 1];
      Executions(log[..|log| - 1]) + if x.Execute? then [x] else []
  }

  lemma {:induction false} ShownByConcat(a: seq<Interaction>, b: seq<Interaction>)
    ensures Announcements(a + b) == Announcements(a) + Announcements(b)
    ensures Executions(a + b) == Executions(a) + Executions(b)
  {
    if b == [] {
      assert a + b == a;
    } else {
      assert (a + b)[..|a + b| - 1] == a + b[..|b| - 1];
      ShownByConcat(a, b[..|b| - 1]);
    }
  }

  lemma ShownByOne(x: Interaction)
    ensures Announcements([x]) == if x.Emit? && x.event.ToolStart? then [x] else []
    ensures Executions([x]) == if x.Execute? then [x] else []
  {
    assert [x][..0] == [];
  }

  /** Nothing is announced and nothing is executed. */
  ghost predicate Passive(log: seq<Interaction>) {
    forall k :: 0 <= k < |log| ==> !log[k].Execute? && !(log[k].Emit? && log[k].event.ToolStart?)
  }

  lemma {:induction false} PassiveShowsNone(log: seq<Interaction>)
    requires Passive(log)
    ensures Announcements(log) == [] && Executions(log) == []
  {
    if log != [] {
      PassiveShowsNone(log[..|log| - 1]);
    }
  }

  lemma {:induction false} MessagesArePassive(ms: seq<Message>)
    ensures Passive(MessagesLog(ms))
  {
    if ms != [] {
      MessagesArePassive(ms[..|ms| - 1]);
    }
  }

  lemma {:induction false} UpdatesArePassive(call: ToolCall, ticks: seq<Tick>)
    ensures Passive(AcceptedUpdates(call, ticks))
  {
    if ticks != [] && ticks[0].Report? {
      UpdatesArePassive(call, ticks[1..]);
    }
  }

  /** The announcements of the first `n` calls, in source order. */
  function AnnouncementsOf(calls: seq<ToolCall>, n: nat): seq<Interaction>
    requires n <= |calls|
  {
    if n == 0 then [] else AnnouncementsOf(calls, n - 1) + [Emit(StartEvent(calls[n - 1]))]
  }

  /** The execution of a call, if it gets through its preflight. */
  function Admission(tools: seq<Tool>, call: ToolCall, env: CallEnv): seq<Interaction> {
    match Prepare(tools, call, env)
    case Immediate(_, _) => []
    case Prepared(args) => [Execute(call.id, args)]
  }

  /** The executions of those among the first `n` calls that get through their preflight, in source order. */
  function Admitted(tools: seq<Tool>, calls: seq<ToolCall>, env: seq<CallEnv>, n: nat): seq<Interaction>
    requires n <= |calls| <= |env|
  {
    if n == 0 then [] else Admitted(tools, calls, env, n - 1) + Admission(tools, calls[n - 1], env[n - 1])
  }

  lemma PreflightShows(context: Context, call: ToolCall, env: CallEnv)
    ensures Announcements(PreflightCallLog(context, call, env)) == [Emit(StartEvent(call))]
    ensures Executions(PreflightCallLog(context, call, env)) == []
  {
    hide Prepare, Announcements, Executions;
    var start, rest := [Emit(StartEvent(call))], PreflightCallLog(context, call, env)[1..];
    assert PreflightCallLog(context, call, env) == start + rest;
    PassiveShowsNone(rest);
    ShownByOne(start[0]);
    ShownByConcat(start, rest);
    assert start + [] == start;
  }

  lemma TaskShows(context: Context, call: ToolCall, env: CallEnv)
    ensures var e := EntryOf(context.tools, call, env);
            var log := TaskRest(context.messages, e, InitialStatus(e));
            Announcements(log) == [] && Executions(log) == Admission(context.tools, call, env)
  {
    hide Announcements, Executions, Prepare, EntryOutcome;
    var e := EntryOf(context.tools, call, env);
    if e.Ready? {
      PassiveShowsNone([]);
    } else {
      var x, rest := Execute(call.id, e.args), AcceptedUpdates(call, env.ticks) + AfterRunning(context.messages, e);
      UpdatesArePassive(call, env.ticks);
      PassiveShowsNone(rest);
      ShownByOne(x);
      ShownByConcat([x], rest);
      assert [x] + [] == [x];
    }
  }

  lemma SequentialCallShows(context: Context, call: ToolCall, env: CallEnv)
    ensures Announcements(SequentialCallLog(context, call, env)) == [Emit(StartEvent(call))]
    ensures Executions(SequentialCallLog(context, call, env)) == Admission(context.tools, call, env)
  {
    hide Announcements, Executions, PreflightCallLog, TaskRest, SequentialCallLog, InitialStatus, EntryOf, Admission,
         Outcome, ResultMessage;
    var e := EntryOf(context.tools, call, env);
    var a, b := PreflightCallLog(context, call, env), TaskRest(context.messages, e, InitialStatus(e));
    var m := MessageLog(ResultMessage(Outcome(context.tools, call, env)));
    OneCallSplits(context, call, env);
    PreflightShows(context, call, env);
    TaskShows(context, call, env);
    PassiveShowsNone(m);
    ShownByConcat(a, b);
    ShownByConcat(a + b, m);
    NothingMore(Emit(StartEvent(call)), Admission(context.tools, call, env));
  }

  lemma NothingMore(x: Interaction, log: seq<Interaction>)
    ensures [x] + [] + [] == [x] && [] + log + [] == log
  {
  }

  lemma {:induction false} SequentialShows(context: Context, calls: seq<ToolCall>, env: seq<CallEnv>, n: nat)
    requires n <= |calls| <= |env|
    ensures Announcements(SequentialLog(context, calls, env, n)) == AnnouncementsOf(calls, n)
    ensures Executions(SequentialLog(context, calls, env, n)) == Admitted(context.tools, calls, env, n)
  {
    hide Announcements, Executions, SequentialCallLog, Admission;
    if n == 0 {
      PassiveShowsNone([]);
    } else {
      SequentialShows(context, calls, env, n - 1);
      SequentialCallShows(context, calls[n - 1], env[n - 1]);
      ShownByConcat(SequentialLog(context, calls, env, n - 1),
                    SequentialCallLog(context, calls[n - 1], env[n - 1]));
    }
  }

  lemma {:induction false} WholePreflightShows(context: Context, calls: seq<ToolCall>, env: seq<CallEnv>, n: nat)
    requires n <= |calls| <= |env|
    ensures Announcements(PreflightLog(context, calls, env, n)) == AnnouncementsOf(calls, n)
    ensures Executions(PreflightLog(context, calls, env, n)) == []
  {
    hide Announcements, Executions, PreflightCallLog;
    if n == 0 {
      PassiveShowsNone([]);
    } else {
      WholePreflightShows(context, calls, env, n - 1);
      PreflightShows(context, calls[n - 1], env[n - 1]);
      ShownByConcat(PreflightLog(context, calls, env, n - 1), PreflightCallLog(context, calls[n - 1], env[n - 1]));
    }
  }

  /** The tasks still to be started, from the entry at `k` on, in order. */
  function ToLaunch(entries: seq<Entry>, st: seq<Status>, k: nat): seq<Interaction>
    requires k <= |st| == |entries|
    decreases |st| - k
  {
    if k == |st| then []
    else
      (if st[k].Waiting? && entries[k].Task? then [Execute(entries[k].call.id, entries[k].args)] else [])
        + ToLaunch(entries, st, k + 1)
  }

  lemma {:induction false} NoneToLaunchBefore(entries: seq<Entry>, st: seq<Status>, k: nat, i: nat)
    requires k <= i <= |st| == |entries|
    requires forall j :: k <= j < i ==> !st[j].Waiting?
    ensures ToLaunch(entries, st, k) == ToLaunch(entries, st, i)
    decreases i - k
  {
    if k < i {
      NoneToLaunchBefore(entries, st, k + 1, i);
    }
  }

  lemma {:induction false} SameToLaunch(entries: seq<Entry>, st: seq<Status>, st': seq<Status>, k: nat)
    requires k <= |st| == |st'| == |entries|
    requires forall j :: k <= j < |st| ==> (st[j].Waiting? <==> st'[j].Waiting?)
    ensures ToLaunch(entries, st, k) == ToLaunch(entries, st', k)
    decreases |st| - k
  {
    if k < |st| {
      SameToLaunch(entries, st, st', k + 1);
    }
  }

  /** Tasks are started in source order, one step at a time. */
  lemma StepLaunches(given: seq<Message>, entries: seq<Entry>, st: seq<Status>, a: Action)
    requires Enabled(entries, st, a)
    ensures Announcements(ActionLog(given, entries, st, a)) == []
    ensures Executions(ActionLog(given, entries, st, a)) + ToLaunch(entries, After(entries, st, a), 0)
         == ToLaunch(entries, st, 0)
  {
    hide ToLaunch, Announcements, Executions, EntryOutcome;
    var next := After(entries, st, a);
    if a.Launch? {
      LaunchIsNext(entries, st, a.i);
      ShownByOne(Execute(entries[a.i].call.id, entries[a.i].args));
    } else {
      PassiveShowsNone(ActionLog(given, entries, st, a));
      SameToLaunch(entries, st, next, 0);
      assert [] + ToLaunch(entries, st, 0) == ToLaunch(entries, st, 0);
    }
  }

  lemma LaunchIsNext(entries: seq<Entry>, st: seq<Status>, i: nat)
    requires Enabled(entries, st, Launch(i))
    ensures var next := After(entries, st, Launch(i));
            ToLaunch(entries, st, 0) == [Execute(entries[i].call.id, entries[i].args)] + ToLaunch(entries, next, 0)
  {
    var next := After(entries, st, Launch(i));
    assert forall j :: 0 <= j < i ==> st[j] == st[..i][j];
    NoneToLaunchBefore(entries, st, 0, i);
    NoneToLaunchBefore(entries, next, 0, i + 1);
    SameToLaunch(entries, st, next, i + 1);
  }

  /** Under every schedule: nothing is announced in a race, and the tasks started, followed by those still to be
      started, are those there were to start. */
  lemma {:induction false} RaceLaunches(
      given: seq<Message>, entries: seq<Entry>, st: seq<Status>, schedule: seq<Action>)
    requires |st| == |entries|
    ensures |Race(entries, st, schedule)| == |entries|
    ensures Announcements(RaceLog(given, entries, st, schedule)) == []
    ensures Executions(RaceLog(given, entries, st, schedule)) + ToLaunch(entries, Race(entries, st, schedule), 0)
         == ToLaunch(entries, st, 0)
    decreases |schedule|
  {
    hide ActionLog, After, Enabled, ToLaunch, Announcements, Executions;
    if schedule == [] || !Enabled(entries, st, schedule[0]) {
      PassiveShowsNone([]);
      assert [] + ToLaunch(entries, st, 0) == ToLaunch(entries, st, 0);
    } else {
      var a, next := schedule[0], After(entries, st, schedule[0]);
      var log, rest := ActionLog(given, entries, st, a), RaceLog(given, entries, next, schedule[1..]);
      RaceLaunches(given, entries, next, schedule[1..]);
      StepLaunches(given, entries, st, a);
      ShownByConcat(log, rest);
      Associate(Executions(log), Executions(rest), ToLaunch(entries, Race(entries, next, schedule[1..]), 0));
    }
  }

  lemma {:induction false} ToLaunchSnoc(entries: seq<Entry>, st: seq<Status>, e: Entry, s: Status, k: nat)
    requires k <= |st| == |entries|
    ensures ToLaunch(entries + [e], st + [s], k)
         == ToLaunch(entries, st, k) + (if s.Waiting? && e.Task? then [Execute(e.call.id, e.args)] else [])
    decreases |st| - k
  {
    if k < |st| {
      ToLaunchSnoc(entries, st, e, s, k + 1);
    } else {
      assert ToLaunch(entries + [e], st + [s], k + 1) == [];
    }
  }

  /** At first, the tasks to start are the calls that got through their preflight. */
  lemma {:induction false} AllToLaunch(tools: seq<Tool>, calls: seq<ToolCall>, env: seq<CallEnv>, n: nat)
    requires n <= |calls| <= |env|
    ensures var entries := Entries(tools, calls, env, n);
            && |InitialStatuses(entries)| == |entries|
            && ToLaunch(entries, InitialStatuses(entries), 0) == Admitted(tools, calls, env, n)
  {
    hide ToLaunch, Prepare;
    var entries := Entries(tools, calls, env, n);
    InitialAt(entries);
    if n == 0 {
      NoneToLaunch();
    } else {
      var before, e := Entries(tools, calls, env, n - 1), EntryOf(tools, calls[n - 1], env[n - 1]);
      AllToLaunch(tools, calls, env, n - 1);
      assert (before + [e])[..|before|] == before;
      ToLaunchSnoc(before, InitialStatuses(before), e, InitialStatus(e), 0);
    }
  }

  lemma NoneToLaunch()
    ensures ToLaunch([], [], 0) == []
  {
  }

  lemma NoneToLaunchWhenDone(entries: seq<Entry>, st: seq<Status>)
    requires |st| == |entries| && AllDone(st)
    ensures ToLaunch(entries, st, 0) == []
  {
    NoneToLaunchBefore(entries, st, 0, |st|);
  }

  lemma ParallelShows(context: Context, calls: seq<ToolCall>, env: seq<CallEnv>, schedule: seq<Action>)
    requires |calls| <= |env|
    ensures var b, n := ParallelBatch(context, calls, env, schedule), Reached(calls, env, 0);
            && Announcements(b.log) == AnnouncementsOf(calls, n)
            && Executions(b.log) <= Admitted(context.tools, calls, env, n)
            && (b.complete ==> Executions(b.log) == Admitted(context.tools, calls, env, n))
  {
    hide Entries, InitialStatuses, Race, RaceLog, PreflightLog, Admitted, AnnouncementsOf, Announcements, Executions,
         ToLaunch, OutcomesOf, ResultMessages, MessagesLog, Reached;
    var n, given := Reached(calls, env, 0), context.messages;
    var entries := Entries(context.tools, calls, env, n);
    AllToLaunch(context.tools, calls, env, n);
    var start := InitialStatuses(entries);
    var st := Race(entries, start, schedule);
    var preflight, race := PreflightLog(context, calls, env, n), RaceLog(given, entries, start, schedule);
    WholePreflightShows(context, calls, env, n);
    RaceLaunches(given, entries, start, schedule);
    ShownByConcat(preflight, race);
    assert AnnouncementsOf(calls, n) + [] == AnnouncementsOf(calls, n) && [] + Executions(race) == Executions(race);
    if AllDone(st) {
      var results := MessagesLog(ResultMessages(OutcomesOf(st)));
      MessagesArePassive(ResultMessages(OutcomesOf(st)));
      PassiveShowsNone(results);
      ShownByConcat(preflight + race, results);
      NoneToLaunchWhenDone(entries, st);
      assert Executions(race) + [] == Executions(race);
    }
  }

  /** Both executors, under every schedule: the calls announced are those reached, in source order; those executed are,
      in source order, those that got through their preflight, all of them when the batch is complete. */
  lemma BatchShows(
      mode: ToolMode, context: Context, calls: seq<ToolCall>, env: seq<CallEnv>, schedule: seq<Action>)
    requires |calls| <= |env|
    ensures var b, n := ExecuteBatch(mode, context, calls, env, schedule), Reached(calls, env, 0);
            && Announcements(b.log) == AnnouncementsOf(calls, n)
            && Executions(b.log) <= Admitted(context.tools, calls, env, n)
            && (b.complete ==> Executions(b.log) == Admitted(context.tools, calls, env, n))
  {
    hide ParallelBatch, SequentialLog, Admitted, AnnouncementsOf, Announcements, Executions, Reached, Outcomes;
    if UsesSequential(mode, context.tools, calls) {
      SequentialShows(context, calls, env, Reached(calls, env, 0));
    } else {
      ParallelShows(context, calls, env, schedule);
    }
  }

  // ----- A flag that stays up -----

  /** The abort is seen during this call, at its preflight or behind it. */
  predicate Seen(env: CallEnv) {
    env.abortedAtPreflight || env.abortedAfter
  }

  /** The flag does not fall again during a call. */
  predicate Steady(env: CallEnv) {
    env.abortedAtPreflight ==> env.abortedAfter
  }

  lemma {:induction false} ReachedUpTo(calls: seq<ToolCall>, env: seq<CallEnv>, k: nat, j: nat)
    requires k <= j < |calls| <= |env| && env[j].abortedAfter
    ensures Reached(calls, env, k) <= j + 1
    decreases |calls| - k
  {
    if !env[k].abortedAfter {
      ReachedUpTo(calls, env, k + 1, j);
    }
  }

  /** If the flag stays up, the call during which an abort is seen is the last one announced. The ones that are executed
      are calls before it that got through their preflight, in source order, and itself if it was through when the abort
      came; and in a complete batch they are all of these, seen or not. */
  lemma AbortStopsTheBatch(
      mode: ToolMode, context: Context, calls: seq<ToolCall>, env: seq<CallEnv>, schedule: seq<Action>, j: nat)
    requires |calls| <= |env| && j < Reached(calls, env, 0)
    requires Seen(env[j]) && Steady(env[j])
    ensures var b := ExecuteBatch(mode, context, calls, env, schedule);
            var admitted := Admitted(context.tools, calls, env, if env[j].abortedAtPreflight then j else j + 1);
            && Announcements(b.log) == AnnouncementsOf(calls, j + 1)
            && Executions(b.log) <= admitted
            && (b.complete ==> Executions(b.log) == admitted)
  {
    hide ExecuteBatch, AnnouncementsOf, Announcements, Executions, Reached, Admitted;
    ReachedUpTo(calls, env, 0, j);
    BatchShows(mode, context, calls, env, schedule);
    if env[j].abortedAtPreflight {
      NotAdmitted(context.tools, calls, env, j);
    }
  }

  lemma NotAdmitted(tools: seq<Tool>, calls: seq<ToolCall>, env: seq<CallEnv>, j: nat)
    requires j < |calls| <= |env| && env[j].abortedAtPreflight
    ensures Admitted(tools, calls, env, j + 1) == Admitted(tools, calls, env, j)
  {
    assert Admission(tools, calls[j], env[j]) == [];
  }

  /** A batch that begins with the flag up announces its first call and executes none. */
  lemma AbortedFromTheStart(
      mode: ToolMode, context: Context, calls: seq<ToolCall>, env: seq<CallEnv>, schedule: seq<Action>)
    requires 0 < |calls| <= |env| && env[0].abortedAtPreflight && Steady(env[0])
    ensures var log := ExecuteBatch(mode, context, calls, env, schedule).log;
            Announcements(log) == [Emit(StartEvent(calls[0]))] && Executions(log) == []
  {
    hide ExecuteBatch, Announcements, Executions, Reached;
    AbortStopsTheBatch(mode, context, calls, env, schedule, 0);
    assert AnnouncementsOf(calls, 1) == AnnouncementsOf(calls, 0) + [Emit(StartEvent(calls[0]))];
  }

  // ----- Behind the turn of the abort -----

  /** The turn has a tool batch. */
  predicate CallsTools(te: TurnEnv) {
    !Failed(te.final) && ToolCalls(te.final.content) != []
  }

  /** The abort is seen in the batch of the turn. */
  ghost predicate SeenIn(te: TurnEnv) {
    Answers(te) && exists j :: 0 <= j < Reached(ToolCalls(te.final.content), te.calls, 0) && Seen(te.calls[j])
  }

  /** The turn begins its batch, if it has one, with the flag up. */
  predicate BeginsAborted(te: TurnEnv) {
    CallsTools(te) && Answers(te) ==> te.calls[0].abortedAtPreflight && Steady(te.calls[0])
  }

  /** Once an abort has been seen, the flag is up in every later turn. */
  ghost predicate StaysUp(turns: seq<TurnEnv>) {
    forall t, u :: 0 <= t < u < |turns| && CallsTools(turns[t]) && SeenIn(turns[t]) ==> BeginsAborted(turns[u])
  }

  ghost predicate ExecutesNothing(log: seq<Interaction>) {
    forall k :: 0 <= k < |log| ==> !log[k].Execute?
  }

  lemma {:induction false} NoExecutions(log: seq<Interaction>)
    requires Executions(log) == []
    ensures ExecutesNothing(log)
  {
    if log != [] {
      NoExecutions(log[..|log| - 1]);
    }
  }

  lemma AbortedTurnExecutesNothing(first: bool, v: Vars, mode: ToolMode, te: TurnEnv)
    requires Answers(te) && BeginsAborted(te)
    ensures ExecutesNothing(RunTurn(first, v, mode, te).log)
  {
    hide AssistantLog, ExecuteBatch, ToolCalls, Answered, RunTurn;
    var t := Taken(0, first, v, te);
    AssistantLogIsCalm(first, v, te);
    if HasBatch(t) {
      var closing := BatchIsInTurn(mode, t);
      AbortedFromTheStart(mode, BatchContext(t), CallsOf(t), te.calls, te.schedule);
      NoExecutions(BatchOf(mode, t).log);
    } else {
      TurnWithoutTools(first, v, mode, te);
    }
  }

  lemma TurnWithoutTools(first: bool, v: Vars, mode: ToolMode, te: TurnEnv)
    requires Answers(te) && !CallsTools(te)
    ensures ExecutesNothing(RunTurn(first, v, mode, te).log)
  {
    hide AssistantLog, ToolCalls, Answered;
    AssistantLogIsCalm(first, v, te);
  }

  lemma {:induction false} AbortedTurnsExecuteNothing(first: bool, v: Vars, mode: ToolMode, turns: seq<TurnEnv>)
    requires AllAnswer(turns) && forall t :: 0 <= t < |turns| ==> BeginsAborted(turns[t])
    ensures ExecutesNothing(RunTurns(first, v, mode, turns).log)
    decreases |turns|, 1
  {
    hide RunTurn, BeginsAborted, OpeningLog, Answers;
    if turns == [] {
      OpeningLogIsCalm(first, v);
    } else {
      assert Answers(turns[0]) && BeginsAborted(turns[0]);
      AbortedTurnExecutesNothing(first, v, mode, turns[0]);
      match RunTurn(first, v, mode, turns[0]) {
        case GoesOn(_, w, more) =>
          if more || w.pending != [] {
            AbortedTurnsExecuteNothing(false, w, mode, turns[1..]);
          } else {
            AbortedRestExecutesNothing(w, mode, turns[0].followUp, turns[1..]);
          }
        case _ =>
      }
    }
  }

  lemma {:induction false} AbortedRestExecutesNothing(
      v: Vars, mode: ToolMode, followUp: seq<Message>, turns: seq<TurnEnv>)
    requires AllAnswer(turns) && forall t :: 0 <= t < |turns| ==> BeginsAborted(turns[t])
    ensures ExecutesNothing(WindDown(v, mode, followUp, turns).log)
    decreases |turns|, 2
  {
    hide RunTurns, BeginsAborted, Answers;
    if followUp != [] {
      AbortedTurnsExecuteNothing(false, v.(pending := followUp), mode, turns);
    }
  }

  /** What comes behind the first turn, whatever it is. */
  lemma BehindTheFirst(start: nat, first: bool, v: Vars, mode: ToolMode, turns: seq<TurnEnv>)
    returns (rest: seq<Interaction>)
    requires AllAnswer(turns) && turns != []
    requires forall t :: 0 < t < |turns| ==> BeginsAborted(turns[t])
    ensures RunTurns(first, v, mode, turns).log == RunTurn(first, v, mode, turns[0]).log + rest
    ensures ExecutesNothing(rest)
  {
    hide RunTurn, BeginsAborted, Answers;
    var turn := RunTurn(first, v, mode, turns[0]);
    assert forall t :: 0 <= t < |turns[1..]| ==> turns[1..][t] == turns[t + 1];
    match turn {
      case GoesOn(_, w, more) =>
        if more || w.pending != [] {
          rest := RunTurns(false, w, mode, turns[1..]).log;
          AbortedTurnsExecuteNothing(false, w, mode, turns[1..]);
        } else {
          rest := WindDown(w, mode, turns[0].followUp, turns[1..]).log;
          AbortedRestExecutesNothing(w, mode, turns[0].followUp, turns[1..]);
        }
      case _ =>
        rest := [];
        assert turn.log + [] == turn.log;
    }
  }

  /** Where the batch of a turn ends. */
  function BatchEnd(mode: ToolMode, t: Taken): nat
    requires Answers(t.te)
  {
    BatchStart(t) + |BatchOf(mode, t).log|
  }

  lemma BehindTheBatch(
      start: nat, first: bool, v: Vars, mode: ToolMode, turns: seq<TurnEnv>)
    requires AllAnswer(turns) && turns != []
    requires forall t :: 0 < t < |turns| ==> BeginsAborted(turns[t])
    requires CallsTools(turns[0])
    ensures var log, at := RunTurns(first, v, mode, turns).log, BatchEnd(mode, Taken(start, first, v, turns[0])) - start;
            at <= |log| && ExecutesNothing(log[at..])
  {
    hide RunTurns, RunTurn, BeginsAborted, AssistantLog, ExecuteBatch, ToolCalls, Answered, Answers;
    assert Answers(turns[0]);
    var taken := Taken(start, first, v, turns[0]);
    var closing := BatchIsInTurn(mode, taken);
    var rest := BehindTheFirst(start, first, v, mode, turns);
    var front := AssistantLog(first, v, turns[0]) + BatchOf(mode, taken).log;
    Associate(front, closing, rest);
    assert (front + (closing + rest))[|front|..] == closing + rest;
  }

  lemma {:induction false} NothingBehind(
      start: nat, first: bool, v: Vars, mode: ToolMode, turns: seq<TurnEnv>, t: nat)
    requires AllAnswer(turns) && StaysUp(turns) && t < |TurnsTaken(start, first, v, mode, turns)|
    requires CallsTools(TurnsTaken(start, first, v, mode, turns)[t].te)
    requires SeenIn(TurnsTaken(start, first, v, mode, turns)[t].te)
    ensures var taken, log := TurnsTaken(start, first, v, mode, turns)[t], RunTurns(first, v, mode, turns).log;
            && Answers(taken.te) && start <= BatchEnd(mode, taken) <= start + |log|
            && ExecutesNothing(log[BatchEnd(mode, taken) - start..])
    decreases |turns|
  {
    hide RunTurn, RunTurns, TurnsTaken, CallsTools, SeenIn, BeginsAborted, BatchOf, AssistantLog, StaysUp, Calm,
         ExecutesNothing, BatchEnd, Answers;
    NoTurns(start, first, v, mode, turns);
    var log, all := RunTurn(first, v, mode, turns[0]).log, RunTurns(first, v, mode, turns).log;
    if t == 0 {
      var _ := FirstTurnIsThere(start, first, v, mode, turns);
      LaterBeginAborted(turns);
      BehindTheBatch(start, first, v, mode, turns);
      EndsBehindStart(mode, Taken(start, first, v, turns[0]));
    } else {
      var pause, w := Further(start, first, v, mode, turns);
      var at, rest := start + |log| + |pause|, RunTurns(false, w, mode, turns[1..]).log;
      StaysUpBehind(turns);
      NothingBehind(at, false, w, mode, turns[1..], t - 1);
      var taken := TurnsTaken(at, false, w, mode, turns[1..])[t - 1];
      assert ((log + pause) + rest)[BatchEnd(mode, taken) - start..] == rest[BatchEnd(mode, taken) - at..];
    }
  }

  lemma LaterBeginAborted(turns: seq<TurnEnv>)
    requires turns != [] && StaysUp(turns) && CallsTools(turns[0]) && SeenIn(turns[0])
    ensures forall t :: 0 < t < |turns| ==> BeginsAborted(turns[t])
  {
    hide CallsTools, SeenIn, BeginsAborted;
  }

  lemma StaysUpBehind(turns: seq<TurnEnv>)
    requires turns != [] && StaysUp(turns)
    ensures StaysUp(turns[1..])
  {
    hide CallsTools, SeenIn, BeginsAborted;
    assert forall t :: 0 <= t < |turns[1..]| ==> turns[1..][t] == turns[t + 1];
  }

  lemma EndsBehindStart(mode: ToolMode, t: Taken)
    requires Answers(t.te)
    ensures t.start <= BatchEnd(mode, t)
  {
  }

  /** If the flag stays up over the whole run: behind the batch in which the abort is seen, no tool is executed any more,
      however many turns are still taken. */
  lemma AbortStopsTheRun(
      request: Request, context: Context, mode: ToolMode, steering: seq<Message>, turns: seq<TurnEnv>, t: nat)
    requires AllAnswer(turns) && StaysUp(turns)
    requires t < |TurnsOf(request, context, mode, steering, turns)|
    requires var te := TurnsOf(request, context, mode, steering, turns)[t].te; CallsTools(te) && SeenIn(te)
    ensures var log, taken := RunOf(request, context, mode, steering, turns).log,
                              TurnsOf(request, context, mode, steering, turns)[t];
            && Answers(taken.te) && BatchEnd(mode, taken) <= |log| && ExecutesNothing(log[BatchEnd(mode, taken)..])
  {
    hide RunOf, RunTurns, TurnsTaken, Opener, StartVars, CallsTools, SeenIn, BeginsAborted, BatchOf, AssistantLog;
    var opener, v := Opener(request, steering), StartVars(request, context, steering);
    RunIsOpenerAndTurns(request, context, mode, steering, turns);
    NothingBehind(|opener|, true, v, mode, turns, t);
    var end := BatchEnd(mode, TurnsOf(request, context, mode, steering, turns)[t]);
    var rest := RunTurns(true, v, mode, turns).log;
    assert (opener + rest)[end..] == rest[end - |opener|..];
  }
}
