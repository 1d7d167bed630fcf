/** What holds of the concurrent executor under every scheduler. */
module Scheduling {
  import opened Types
  import opened Tools
  import opened Parallel

  /** An entry is done only with its own outcome, and a rejected entry is done from the start. */
  ghost predicate Coherent(entries: seq<Entry>, st: seq<Status>) {
    && |st| == |entries|
    && (forall k :: 0 <= k < |st| ==> entries[k].Ready? ==> st[k].Done?)
    && (forall k :: 0 <= k < |st| ==> st[k].Done? ==> st[k].finalized == EntryOutcome(entries[k]))
  }

  lemma {:induction false} RaceIsCoherent(entries: seq<Entry>, st: seq<Status>, schedule: seq<Action>)
    requires Coherent(entries, st)
    ensures Coherent(entries, Race(entries, st, schedule))
    decreases |schedule|
  {
    if schedule != [] && Enabled(entries, st, schedule[0]) {
      RaceIsCoherent(entries, After(entries, st, schedule[0]), schedule[1..]);
    }
  }

  lemma InitiallyCoherent(entries: seq<Entry>)
    ensures Coherent(entries, InitialStatuses(entries))
  {
    InitialAt(entries);
  }

  lemma {:induction false} EntryAt(tools: seq<Tool>, calls: seq<ToolCall>, env: seq<CallEnv>, n: nat)
    requires n <= |calls| <= |env|
    ensures |Entries(tools, calls, env, n)| == n
    ensures forall k :: 0 <= k < n ==> Entries(tools, calls, env, n)[k] == EntryOf(tools, calls[k], env[k])
  {
    if n > 0 {
      EntryAt(tools, calls, env, n - 1);
    }
  }

  lemma {:induction false} DoneOutcomes(
      tools: seq<Tool>, calls: seq<ToolCall>, env: seq<CallEnv>, n: nat, st: seq<Status>)
    requires n <= |calls| <= |env|
    requires Coherent(Entries(tools, calls, env, n), st) && AllDone(st)
    ensures OutcomesOf(st) == Outcomes(tools, calls, env, n)
  {
    EntryAt(tools, calls, env, n);
    if n > 0 {
      var entries := Entries(tools, calls, env, n);
      assert entries[..n - 1] == Entries(tools, calls, env, n - 1);
      DoneOutcomes(tools, calls, env, n - 1, st[..n - 1]);
      assert st[n - 1].finalized == EntryOutcome(EntryOf(tools, calls[n - 1], env[n - 1]));
    }
  }

  // ----- What a batch does, up to order -----

  /** What an entry in a given state has yet to show, in order. */
  function TaskRest(given: seq<Message>, e: Entry, s: Status): seq<Interaction> {
    if e.Ready? then []
    else
      match s
      case Waiting =>
        [Execute(e.call.id, e.args)] + (AcceptedUpdates(e.call, e.env.ticks) + AfterRunning(given, e))
      case Running(ticks) => AcceptedUpdates(e.call, ticks) + AfterRunning(given, e)
      case Settled => AfterRunning(given, e)
      case InReview => [Emit(EndEvent(EntryOutcome(e)))]
      case Done(_) => []
  }

  function AfterRunning(given: seq<Message>, e: Entry): seq<Interaction>
    requires e.Task?
  {
    AfterLog(given, e.call, e.env) + [Emit(EndEvent(EntryOutcome(e)))]
  }

  /** What the schedule shows of one entry. */
  function TaskLog(given: seq<Message>, entries: seq<Entry>, st: seq<Status>, schedule: seq<Action>, i: nat)
    : seq<Interaction>
    decreases |schedule|
  {
    if schedule == [] || !Enabled(entries, st, schedule[0]) then []
    else (if schedule[0].i == i then ActionLog(given, entries, st, schedule[0]) else [])
           + TaskLog(given, entries, After(entries, st, schedule[0]), schedule[1..], i)
  }

  /** One step of a task shows the next piece of what it has to show. */
  lemma StepTakesNext(given: seq<Message>, entries: seq<Entry>, st: seq<Status>, a: Action)
    requires Enabled(entries, st, a)
    ensures ActionLog(given, entries, st, a) + TaskRest(given, entries[a.i], After(entries, st, a)[a.i])
         == TaskRest(given, entries[a.i], st[a.i])
    ensures forall i :: 0 <= i < |st| && i != a.i ==> After(entries, st, a)[i] == st[i]
  {
    hide EntryOutcome, AfterLog, EndEvent, UpdateEvent;
    var e := entries[a.i];
    match a {
      case Launch(i) =>
      case Progress(i) =>
        if st[i].Running? {
          Associate([Emit(UpdateEvent(e.call, st[i].ticks[0].partial))], AcceptedUpdates(e.call, st[i].ticks[1..]),
                    AfterRunning(given, e));
        }
      case Resolve(i) =>
        assert AcceptedUpdates(e.call, st[i].ticks) == [];
        assert [] + AfterRunning(given, e) == AfterRunning(given, e);
      case Review(i) =>
      case Complete(i) =>
    }
  }

  /** Every task keeps its order: under every schedule, what has been seen of it and what it has yet to show are, in this
      order, what it had to show at first. */
  lemma {:induction false} TasksKeepOrder(
      given: seq<Message>, entries: seq<Entry>, st: seq<Status>, schedule: seq<Action>, i: nat)
    requires |st| == |entries| && i < |st|
    ensures |Race(entries, st, schedule)| == |entries|
    ensures TaskLog(given, entries, st, schedule, i) + TaskRest(given, entries[i], Race(entries, st, schedule)[i])
         == TaskRest(given, entries[i], st[i])
    decreases |schedule|
  {
    hide ActionLog, TaskRest, After;
    RaceKeepsLength(entries, st, schedule);
    var rest := TaskRest(given, entries[i], Race(entries, st, schedule)[i]);
    if schedule == [] || !Enabled(entries, st, schedule[0]) {
      assert [] + rest == rest;
    } else {
      var a := schedule[0];
      var next := After(entries, st, a);
      var step := if a.i == i then ActionLog(given, entries, st, a) else [];
      TasksKeepOrder(given, entries, next, schedule[1..], i);
      StepTakesNext(given, entries, st, a);
      Associate(step, TaskLog(given, entries, next, schedule[1..], i), rest);
    }
  }

  /** A task that is done has shown everything, once and in order. */
  lemma DoneTaskHasShownAll(
      given: seq<Message>, entries: seq<Entry>, st: seq<Status>, schedule: seq<Action>, i: nat)
    requires |st| == |entries| && i < |st| && |Race(entries, st, schedule)| == |entries|
    requires Race(entries, st, schedule)[i].Done?
    ensures TaskLog(given, entries, st, schedule, i) == TaskRest(given, entries[i], st[i])
  {
    hide Race, TaskLog;
    TasksKeepOrder(given, entries, st, schedule, i);
  }

  function TotalWork(given: seq<Message>, entries: seq<Entry>, st: seq<Status>): multiset<Interaction>
    requires |st| == |entries|
  {
    if st == [] then multiset{}
    else
      var n := |st| - 1;
      TotalWork(given, entries[..n], st[..n]) + multiset(TaskRest(given, entries[n], st[n]))
  }

  lemma {:induction false} WorkAfterUpdate(
      given: seq<Message>, entries: seq<Entry>, st: seq<Status>, i: nat, s: Status)
    requires |st| == |entries| && i < |st|
    ensures TotalWork(given, entries, st[i := s]) + multiset(TaskRest(given, entries[i], st[i]))
         == TotalWork(given, entries, st) + multiset(TaskRest(given, entries[i], s))
  {
    hide TaskRest;
    var n := |st| - 1;
    if i == n {
      assert st[i := s][..n] == st[..n];
    } else {
      WorkAfterUpdate(given, entries[..n], st[..n], i, s);
      assert st[i := s][..n] == st[..n][i := s];
      var before, after := TotalWork(given, entries[..n], st[..n]), TotalWork(given, entries[..n], st[..n][i := s]);
      var w := multiset(TaskRest(given, entries[n], st[n]));
      var old', new' := multiset(TaskRest(given, entries[i], st[i])), multiset(TaskRest(given, entries[i], s));
      assert entries[..n][i] == entries[i] && st[..n][i] == st[i];
      assert (after + w) + old' == (after + old') + w;
      assert (before + w) + new' == (before + new') + w;
    }
  }

  lemma {:induction false} NoWorkWhenDone(given: seq<Message>, entries: seq<Entry>, st: seq<Status>)
    requires |st| == |entries| && AllDone(st)
    ensures TotalWork(given, entries, st) == multiset{}
  {
    if st != [] {
      NoWorkWhenDone(given, entries[..|st| - 1], st[..|st| - 1]);
    }
  }

  /** Whatever the scheduler does, work done and work left add up. */
  lemma {:induction false} RaceConservesWork(
      given: seq<Message>, entries: seq<Entry>, st: seq<Status>, schedule: seq<Action>)
    requires |st| == |entries|
    ensures |Race(entries, st, schedule)| == |entries|
    ensures multiset(RaceLog(given, entries, st, schedule)) + TotalWork(given, entries, Race(entries, st, schedule))
         == TotalWork(given, entries, st)
    decreases |schedule|
  {
    hide TotalWork, ActionLog, After;
    if schedule != [] && Enabled(entries, st, schedule[0]) {
      var a := schedule[0];
      var next := After(entries, st, a);
      RaceConservesWork(given, entries, next, schedule[1..]);
      StepConservesWork(given, entries, st, a);
      var done, rest := ActionLog(given, entries, st, a), RaceLog(given, entries, next, schedule[1..]);
      assert multiset(done + rest) == multiset(done) + multiset(rest);
    }
  }

  lemma Cancel<T>(a: multiset<T>, b: multiset<T>, c: multiset<T>)
    requires a + c == b + c
    ensures a == b
  {
    forall x ensures a[x] == b[x] {
      assert (a + c)[x] == (b + c)[x];
    }
  }

  lemma StepConservesWork(given: seq<Message>, entries: seq<Entry>, st: seq<Status>, a: Action)
    requires Enabled(entries, st, a)
    ensures multiset(ActionLog(given, entries, st, a)) + TotalWork(given, entries, After(entries, st, a))
         == TotalWork(given, entries, st)
  {
    hide ActionLog, TaskRest, TotalWork, After;
    var next := After(entries, st, a);
    var log, left := ActionLog(given, entries, st, a), TaskRest(given, entries[a.i], next[a.i]);
    StepTakesNext(given, entries, st, a);
    WorkAfterUpdate(given, entries, st, a.i, next[a.i]);
    assert next == st[a.i := next[a.i]];
    assert multiset(log + left) == multiset(log) + multiset(left);
    var done, work := multiset(log), TotalWork(given, entries, next);
    assert (done + work) + multiset(left) == work + (done + multiset(left));
    Cancel(done + work, TotalWork(given, entries, st), multiset(left));
  }

  lemma Regroup<T>(
      a: multiset<T>, b: multiset<T>, c: multiset<T>, abc: multiset<T>,
      x: multiset<T>, y: multiset<T>, z: multiset<T>, xyz: multiset<T>)
    requires a + b + c == abc && x + y + z == xyz
    ensures (a + x) + (b + y) + (c + z) == abc + xyz
  {
  }

  lemma {:induction false} PreflightAndWork(context: Context, calls: seq<ToolCall>, env: seq<CallEnv>, n: nat)
    requires n <= |calls| <= |env|
    ensures var entries := Entries(context.tools, calls, env, n);
            && |InitialStatuses(entries)| == |entries|
            && multiset(PreflightLog(context, calls, env, n))
                 + TotalWork(context.messages, entries, InitialStatuses(entries))
                 + multiset(MessagesLog(ResultMessages(Outcomes(context.tools, calls, env, n))))
            == multiset(SequentialLog(context, calls, env, n))
  {
    hide EntryOf, Outcome, SequentialCallLog, PreflightCallLog, TaskRest, ResultMessage, MessageLog, InitialStatus,
         Entries, Outcomes, SequentialLog, PreflightLog, InitialStatuses, TotalWork, MessagesLog, ResultMessages;
    var tools, given := context.tools, context.messages;
    var entries := Entries(tools, calls, env, n);
    InitialAt(entries);
    if n == 0 {
      NothingToDo(context, calls, env);
    } else {
      var call, callEnv := calls[n - 1], env[n - 1];
      var e, m := EntryOf(tools, call, callEnv), ResultMessage(Outcome(tools, call, callEnv));
      var before := Entries(tools, calls, env, n - 1);
      var ms := ResultMessages(Outcomes(tools, calls, env, n - 1));
      PreflightAndWork(context, calls, env, n - 1);
      OneCallWork(context, call, callEnv);
      var p, q := PreflightLog(context, calls, env, n - 1), PreflightCallLog(context, call, callEnv);
      var s, t := SequentialLog(context, calls, env, n - 1), SequentialCallLog(context, call, callEnv);
      Regroup(
        multiset(p), TotalWork(given, before, InitialStatuses(before)), multiset(MessagesLog(ms)), multiset(s),
        multiset(q), multiset(TaskRest(given, e, InitialStatus(e))), multiset(MessageLog(m)), multiset(t));
      assert multiset(p + q) == multiset(p) + multiset(q) && multiset(s + t) == multiset(s) + multiset(t);
      OneMore(context, calls, env, n - 1);
      OneMorePreflight(context, calls, env, n - 1);
      OneMoreEntry(given, before, e);
      OneMoreMessage(ms, m);
    }
  }

  lemma NothingToDo(context: Context, calls: seq<ToolCall>, env: seq<CallEnv>)
    requires |calls| <= |env|
    ensures Entries(context.tools, calls, env, 0) == [] && InitialStatuses([]) == []
    ensures PreflightLog(context, calls, env, 0) == [] && SequentialLog(context, calls, env, 0) == []
    ensures TotalWork(context.messages, [], []) == multiset{}
    ensures MessagesLog(ResultMessages(Outcomes(context.tools, calls, env, 0))) == []
  {
  }

  lemma OneMorePreflight(context: Context, calls: seq<ToolCall>, env: seq<CallEnv>, n: nat)
    requires n < |calls| <= |env|
    ensures Entries(context.tools, calls, env, n + 1)
         == Entries(context.tools, calls, env, n) + [EntryOf(context.tools, calls[n], env[n])]
    ensures PreflightLog(context, calls, env, n + 1)
         == PreflightLog(context, calls, env, n) + PreflightCallLog(context, calls[n], env[n])
  {
    hide EntryOf, PreflightCallLog;
  }

  lemma OneMoreEntry(given: seq<Message>, entries: seq<Entry>, e: Entry)
    ensures |InitialStatuses(entries)| == |entries| && |InitialStatuses(entries + [e])| == |entries| + 1
    ensures TotalWork(given, entries + [e], InitialStatuses(entries + [e]))
         == TotalWork(given, entries, InitialStatuses(entries)) + multiset(TaskRest(given, e, InitialStatus(e)))
  {
    hide TaskRest, InitialStatus;
    assert (entries + [e])[..|entries|] == entries;
    InitialAt(entries);
    InitialAt(entries + [e]);
    var st := InitialStatuses(entries + [e]);
    assert st[..|entries|] == InitialStatuses(entries);
  }

  lemma OneMoreMessage(ms: seq<Message>, m: Message)
    ensures MessagesLog(ms + [m]) == MessagesLog(ms) + MessageLog(m)
    ensures multiset(MessagesLog(ms + [m])) == multiset(MessagesLog(ms)) + multiset(MessageLog(m))
  {
    assert (ms + [m])[..|ms|] == ms;
  }

  /** What the concurrent executor does for one call: preflight, and then its task. */
  lemma OneCallSplits(context: Context, call: ToolCall, env: CallEnv)
    ensures var e := EntryOf(context.tools, call, env);
            (SequentialCallLog(context, call, env)
             == PreflightCallLog(context, call, env) + TaskRest(context.messages, e, InitialStatus(e))
                  + MessageLog(ResultMessage(Outcome(context.tools, call, env))))
  {
    hide Prepare, Finalize, BeforeLog, AfterLog, MessageLog, ResultMessage, EndEvent, StartEvent;
    var e := EntryOf(context.tools, call, env);
    if e.Ready? {
      var log := PreflightCallLog(context, call, env);
      assert [Emit(StartEvent(call))] + BeforeLog(context, call, env) + []
          == [Emit(StartEvent(call))] + BeforeLog(context, call, env);
      assert log + [] == log;
    } else {
      var a := [Emit(StartEvent(call))] + BeforeLog(context, call, env);
      var run, updates := [Execute(call.id, e.args)], AcceptedUpdates(call, env.ticks);
      var after, end := AfterLog(context.messages, call, env), [Emit(EndEvent(Outcome(context.tools, call, env)))];
      assert PreflightCallLog(context, call, env) == a + [] == a;
      assert a + (run + updates + after) + end == a + (run + (updates + (after + end)));
    }
  }

  lemma OneCallWork(context: Context, call: ToolCall, env: CallEnv)
    ensures var e := EntryOf(context.tools, call, env);
            (multiset(PreflightCallLog(context, call, env))
               + multiset(TaskRest(context.messages, e, InitialStatus(e)))
               + multiset(MessageLog(ResultMessage(Outcome(context.tools, call, env))))
             == multiset(SequentialCallLog(context, call, env)))
  {
    hide PreflightCallLog, TaskRest, MessageLog, SequentialCallLog, EntryOf, Outcome, InitialStatus;
    OneCallSplits(context, call, env);
    var e := EntryOf(context.tools, call, env);
    var a, b := PreflightCallLog(context, call, env), TaskRest(context.messages, e, InitialStatus(e));
    var c := MessageLog(ResultMessage(Outcome(context.tools, call, env)));
    assert multiset(a + b + c) == multiset(a) + multiset(b) + multiset(c);
  }

  /** The message events of a log, in order. */
  function MessageEvents(log: seq<Interaction>): seq<Interaction> {
    if log == [] then []
    else
      var x := log[|log| - 1];
      MessageEvents(log[..|log| - 1]) + if x.Emit? && (x.event.MessageStart? || x.event.MessageEnd?) then [x] else []
  }

  lemma {:induction false} MessageEventsOfConcat(a: seq<Interaction>, b: seq<Interaction>)
    ensures MessageEvents(a + b) == MessageEvents(a) + MessageEvents(b)
  {
    if b == [] {
      assert a + b == a;
    } else {
      assert (a + b)[..|a + b| - 1] == a + b[..|b| - 1];
      MessageEventsOfConcat(a, b[..|b| - 1]);
    }
  }

  ghost predicate Silent(log: seq<Interaction>) {
    forall k :: 0 <= k < |log| ==> !(log[k].Emit? && (log[k].event.MessageStart? || log[k].event.MessageEnd?))
  }

  lemma {:induction false} SilentHasNoMessages(log: seq<Interaction>)
    requires Silent(log)
    ensures MessageEvents(log) == []
  {
    if log != [] {
      SilentHasNoMessages(log[..|log| - 1]);
    }
  }

  lemma OneMessage(m: Message)
    ensures MessageEvents(MessageLog(m)) == MessageLog(m)
  {
    var x, y := Emit(MessageStart(m)), Emit(MessageEnd(m));
    assert [x][..0] == [] && [y][..0] == [];
    MessageEventsOfConcat([x], [y]);
    assert MessageLog(m) == [x] + [y];
  }

  lemma {:induction false} ResultsAreMessages(ms: seq<Message>)
    ensures MessageEvents(MessagesLog(ms)) == MessagesLog(ms)
  {
    if ms != [] {
      ResultsAreMessages(ms[..|ms| - 1]);
      OneMessage(ms[|ms| - 1]);
      MessageEventsOfConcat(MessagesLog(ms[..|ms| - 1]), MessageLog(ms[|ms| - 1]));
    }
  }

  lemma {:induction false} PreflightIsSilent(context: Context, calls: seq<ToolCall>, env: seq<CallEnv>, n: nat)
    requires n <= |calls| <= |env|
    ensures Silent(PreflightLog(context, calls, env, n))
  {
    hide Prepare;
    if n > 0 {
      PreflightIsSilent(context, calls, env, n - 1);
    }
  }

  lemma {:induction false} RaceIsSilent(
      given: seq<Message>, entries: seq<Entry>, st: seq<Status>, schedule: seq<Action>)
    ensures Silent(RaceLog(given, entries, st, schedule))
    decreases |schedule|
  {
    if schedule != [] && Enabled(entries, st, schedule[0]) {
      RaceIsSilent(given, entries, After(entries, st, schedule[0]), schedule[1..]);
    }
  }

  lemma {:induction false} UpdatesAreSilent(call: ToolCall, ticks: seq<Tick>)
    ensures Silent(AcceptedUpdates(call, ticks))
  {
    if ticks != [] && ticks[0].Report? {
      UpdatesAreSilent(call, ticks[1..]);
    }
  }

  lemma MessagesComeLast(before: seq<Interaction>, m: Message)
    requires Silent(before)
    ensures MessageEvents(before + MessageLog(m)) == MessageLog(m)
  {
    SilentHasNoMessages(before);
    MessageEventsOfConcat(before, MessageLog(m));
    OneMessage(m);
  }

  lemma SequentialCallMessages(context: Context, call: ToolCall, env: CallEnv)
    ensures MessageEvents(SequentialCallLog(context, call, env))
         == MessageLog(ResultMessage(Outcome(context.tools, call, env)))
  {
    hide Outcome, Prepare, ResultMessage, MessageEvents, MessageLog;
    var f := Outcome(context.tools, call, env);
    UpdatesAreSilent(call, env.ticks);
    MessagesComeLast(
      [Emit(StartEvent(call))] + BeforeLog(context, call, env) + ExecutionLog(context, call, env) + [Emit(EndEvent(f))],
      ResultMessage(f));
  }

  lemma {:induction false} SequentialMessages(context: Context, calls: seq<ToolCall>, env: seq<CallEnv>, n: nat)
    requires n <= |calls| <= |env|
    ensures MessageEvents(SequentialLog(context, calls, env, n))
         == MessagesLog(ResultMessages(Outcomes(context.tools, calls, env, n)))
  {
    hide SequentialCallLog, SequentialLog, ResultMessage, Outcome, MessageEvents, Outcomes, ResultMessages, MessagesLog,
         MessageLog;
    if n == 0 {
      NoMessages(context, calls, env);
    } else {
      var log, last := SequentialLog(context, calls, env, n - 1), SequentialCallLog(context, calls[n - 1], env[n - 1]);
      var ms := ResultMessages(Outcomes(context.tools, calls, env, n - 1));
      var m := ResultMessage(Outcome(context.tools, calls[n - 1], env[n - 1]));
      SequentialMessages(context, calls, env, n - 1);
      SequentialCallMessages(context, calls[n - 1], env[n - 1]);
      MessageEventsOfConcat(log, last);
      OneMore(context, calls, env, n - 1);
      OneMoreMessage(ms, m);
    }
  }

  lemma NoMessages(context: Context, calls: seq<ToolCall>, env: seq<CallEnv>)
    requires |calls| <= |env|
    ensures MessageEvents(SequentialLog(context, calls, env, 0))
         == MessagesLog(ResultMessages(Outcomes(context.tools, calls, env, 0)))
  {
  }

  /** Every schedule that completes the race yields the outcomes, the termination verdict and the message events of the
      sequential executor on the same calls, and exactly the same interactions, progress updates included, up to
      order. */
  lemma ParallelRefinesSequential(
      context: Context, calls: seq<ToolCall>, env: seq<CallEnv>, schedule: seq<Action>)
    requires |calls| <= |env|
    requires ParallelBatch(context, calls, env, schedule).complete
    ensures var p, s := ParallelBatch(context, calls, env, schedule), SequentialBatch(context, calls, env);
            && p.finalized == s.finalized
            && MessageEvents(p.log) == MessageEvents(s.log)
            && multiset(p.log) == multiset(s.log)
  {
    hide Outcomes, Entries, Race, RaceLog, SequentialLog, PreflightLog, MessagesLog, ResultMessages, OutcomesOf,
         TotalWork, MessageEvents, Silent;
    var n, given := Reached(calls, env, 0), context.messages;
    var entries := Entries(context.tools, calls, env, n);
    var start := InitialStatuses(entries);
    InitiallyCoherent(entries);
    RaceIsCoherent(entries, start, schedule);
    var st := Race(entries, start, schedule);
    DoneOutcomes(context.tools, calls, env, n, st);
    var preflight, race := PreflightLog(context, calls, env, n), RaceLog(given, entries, start, schedule);
    var results := MessagesLog(ResultMessages(OutcomesOf(st)));

    PreflightIsSilent(context, calls, env, n);
    RaceIsSilent(given, entries, start, schedule);
    SilentHasNoMessages(preflight);
    SilentHasNoMessages(race);
    MessageEventsOfConcat(preflight, race);
    MessageEventsOfConcat(preflight + race, results);
    ResultsAreMessages(ResultMessages(OutcomesOf(st)));
    SequentialMessages(context, calls, env, n);

    PreflightAndWork(context, calls, env, n);
    RaceConservesWork(given, entries, start, schedule);
    NoWorkWhenDone(given, entries, st);
    assert multiset(preflight + race + results) == multiset(preflight) + multiset(race) + multiset(results);
  }

  // ----- The order within a call -----

  /** The interaction is about a call of this id. */
  predicate IsOf(x: Interaction, id: string) {
    match x
    case ConsultBefore(i, _) => i == id
    case Execute(i, _) => i == id
    case ConsultAfter(i, _) => i == id
    case Emit(ToolStart(i, _, _)) => i == id
    case Emit(ToolUpdate(i, _, _, _)) => i == id
    case Emit(ToolEnd(i, _, _, _)) => i == id
    case _ => false
  }

  /** Everything about the calls of an id, in order. */
  function TraceOf(log: seq<Interaction>, id: string): seq<Interaction> {
    if log == [] then []
    else TraceOf(log[..|log| - 1], id) + if IsOf(log[|log| - 1], id) then [log[|log| - 1]] else []
  }

  lemma {:induction false} TraceOfConcat(a: seq<Interaction>, b: seq<Interaction>, id: string)
    ensures TraceOf(a + b, id) == TraceOf(a, id) + TraceOf(b, id)
  {
    hide IsOf;
    if b == [] {
      assert a + b == a;
    } else {
      assert (a + b)[..|a + b| - 1] == a + b[..|b| - 1];
      TraceOfConcat(a, b[..|b| - 1], id);
    }
  }

  ghost predicate AllOf(log: seq<Interaction>, id: string) {
    forall k :: 0 <= k < |log| ==> IsOf(log[k], id)
  }

  lemma {:induction false} TraceOfOne(log: seq<Interaction>, own: string, id: string)
    requires AllOf(log, own)
    ensures TraceOf(log, id) == if id == own then log else []
  {
    if log != [] {
      TraceOfOne(log[..|log| - 1], own, id);
      assert IsOf(log[|log| - 1], own);
    }
  }

  lemma {:induction false} UpdatesAreOf(call: ToolCall, ticks: seq<Tick>)
    ensures AllOf(AcceptedUpdates(call, ticks), call.id)
  {
    if ticks != [] && ticks[0].Report? {
      UpdatesAreOf(call, ticks[1..]);
    }
  }

  lemma TaskIsOf(given: seq<Message>, e: Entry, s: Status)
    ensures AllOf(TaskRest(given, e, s), EntryCall(e).id)
  {
    if e.Task? {
      UpdatesAreOf(e.call, e.env.ticks);
      if s.Running? {
        UpdatesAreOf(e.call, s.ticks);
      }
    }
  }

  lemma PreflightIsOf(context: Context, call: ToolCall, env: CallEnv)
    ensures AllOf(PreflightCallLog(context, call, env), call.id)
  {
  }

  /** The calls have different ids, and the one at `i`, if it is one of them, is the one with this id. */
  ghost predicate Identifies(calls: seq<ToolCall>, n: nat, i: nat, id: string)
    requires n <= |calls|
  {
    forall k :: 0 <= k < n ==> (calls[k].id == id <==> k == i)
  }

  lemma {:induction false} PreflightTrace(
      context: Context, calls: seq<ToolCall>, env: seq<CallEnv>, n: nat, i: nat, id: string)
    requires n <= |calls| <= |env| && Identifies(calls, n, i, id)
    ensures TraceOf(PreflightLog(context, calls, env, n), id)
         == if i < n then PreflightCallLog(context, calls[i], env[i]) else []
  {
    hide PreflightCallLog, TraceOf, AllOf;
    if n == 0 {
      NoTrace(id);
    } else {
      var log, last := PreflightLog(context, calls, env, n - 1), PreflightCallLog(context, calls[n - 1], env[n - 1]);
      PreflightTrace(context, calls, env, n - 1, i, id);
      PreflightIsOf(context, calls[n - 1], env[n - 1]);
      TraceOfOne(last, calls[n - 1].id, id);
      TraceOfConcat(log, last, id);
    }
  }

  lemma NoTrace(id: string)
    ensures TraceOf([], id) == []
  {
  }

  /** What both executors show of a call, up to its result message. */
  function CallTrace(context: Context, call: ToolCall, env: CallEnv): seq<Interaction> {
    var e := EntryOf(context.tools, call, env);
    PreflightCallLog(context, call, env) + TaskRest(context.messages, e, InitialStatus(e))
  }

  lemma OneCallTrace(context: Context, call: ToolCall, env: CallEnv, id: string)
    ensures TraceOf(SequentialCallLog(context, call, env), id)
         == if id == call.id then CallTrace(context, call, env) else []
  {
    hide PreflightCallLog, TaskRest, SequentialCallLog, InitialStatus, TraceOf, Outcome, Prepare;
    var e := EntryOf(context.tools, call, env);
    var a, b := PreflightCallLog(context, call, env), TaskRest(context.messages, e, InitialStatus(e));
    var m := ResultMessage(Outcome(context.tools, call, env));
    OneCallSplits(context, call, env);
    PreflightIsOf(context, call, env);
    TaskIsOf(context.messages, e, InitialStatus(e));
    TraceOfOne(a, call.id, id);
    TraceOfOne(b, call.id, id);
    MessagesAreOfNone([m], id);
    TraceOfConcat(a, b, id);
    TraceOfConcat(a + b, MessageLog(m), id);
    assert [m][..0] == [] && [] + MessageLog(m) == MessageLog(m);
  }

  lemma {:induction false} MessagesAreOfNone(ms: seq<Message>, id: string)
    ensures TraceOf(MessagesLog(ms), id) == []
  {
    if ms != [] {
      var m := ms[|ms| - 1];
      var front, x, y := MessagesLog(ms[..|ms| - 1]), Emit(MessageStart(m)), Emit(MessageEnd(m));
      MessagesAreOfNone(ms[..|ms| - 1], id);
      assert MessagesLog(ms) == (front + [x]) + [y];
      assert (front + [x])[..|front|] == front && ((front + [x]) + [y])[..|front + [x]|] == front + [x];
    }
  }

  lemma {:induction false} SequentialTrace(
      context: Context, calls: seq<ToolCall>, env: seq<CallEnv>, n: nat, i: nat, id: string)
    requires n <= |calls| <= |env| && Identifies(calls, n, i, id)
    ensures TraceOf(SequentialLog(context, calls, env, n), id)
         == if i < n then CallTrace(context, calls[i], env[i]) else []
  {
    hide SequentialCallLog, CallTrace, TraceOf;
    if n == 0 {
      NoTrace(id);
    } else {
      SequentialTrace(context, calls, env, n - 1, i, id);
      OneCallTrace(context, calls[n - 1], env[n - 1], id);
      TraceOfConcat(
        SequentialLog(context, calls, env, n - 1), SequentialCallLog(context, calls[n - 1], env[n - 1]), id);
    }
  }

  lemma ActionIsOf(given: seq<Message>, entries: seq<Entry>, st: seq<Status>, a: Action)
    requires Enabled(entries, st, a)
    ensures AllOf(ActionLog(given, entries, st, a), EntryCall(entries[a.i]).id)
  {
  }

  lemma {:induction false} RaceTrace(
      given: seq<Message>, entries: seq<Entry>, st: seq<Status>, schedule: seq<Action>, i: nat, id: string)
    requires forall k :: 0 <= k < |entries| ==> (EntryCall(entries[k]).id == id <==> k == i)
    ensures TraceOf(RaceLog(given, entries, st, schedule), id) == TaskLog(given, entries, st, schedule, i)
    decreases |schedule|
  {
    hide ActionLog, After;
    if schedule != [] && Enabled(entries, st, schedule[0]) {
      var a := schedule[0];
      var log, next := ActionLog(given, entries, st, a), After(entries, st, a);
      RaceTrace(given, entries, next, schedule[1..], i, id);
      ActionIsOf(given, entries, st, a);
      TraceOfOne(log, EntryCall(entries[a.i]).id, id);
      TraceOfConcat(log, RaceLog(given, entries, next, schedule[1..]), id);
    }
  }

  lemma {:induction false} NoTaskBehindTheLast(
      given: seq<Message>, entries: seq<Entry>, st: seq<Status>, schedule: seq<Action>, i: nat)
    requires |entries| <= i
    ensures TaskLog(given, entries, st, schedule, i) == []
    decreases |schedule|
  {
    if schedule != [] && Enabled(entries, st, schedule[0]) {
      NoTaskBehindTheLast(given, entries, After(entries, st, schedule[0]), schedule[1..], i);
    }
  }

  /** Only the order between different calls is up to the scheduler: if the calls have different ids, then everything
      about each of them, from its announcement over its updates to its end, comes in the order of the sequential
      executor, in every schedule that completes. */
  lemma EachCallKeepsItsOrder(
      context: Context, calls: seq<ToolCall>, env: seq<CallEnv>, schedule: seq<Action>, i: nat, id: string)
    requires |calls| <= |env| && Identifies(calls, |calls|, i, id)
    requires ParallelBatch(context, calls, env, schedule).complete
    ensures TraceOf(ParallelBatch(context, calls, env, schedule).log, id)
         == TraceOf(SequentialBatch(context, calls, env).log, id)
  {
    hide Entries, Race, RaceLog, SequentialLog, PreflightLog, MessagesLog, ResultMessages, OutcomesOf, TraceOf, TaskLog,
         PreflightCallLog, TaskRest, EntryOf, InitialStatus;
    var n, given := Reached(calls, env, 0), context.messages;
    var entries := Entries(context.tools, calls, env, n);
    var start := InitialStatuses(entries);
    var st := Race(entries, start, schedule);
    EntryAt(context.tools, calls, env, n);
    InitialAt(entries);
    RaceKeepsLength(entries, start, schedule);
    forall k | 0 <= k < n ensures EntryCall(entries[k]) == calls[k] {
      EntryIsOf(context.tools, calls[k], env[k]);
    }
    PreflightTrace(context, calls, env, n, i, id);
    RaceTrace(given, entries, start, schedule, i, id);
    if i < n {
      DoneTaskHasShownAll(given, entries, start, schedule, i);
    } else {
      NoTaskBehindTheLast(given, entries, start, schedule, i);
    }
    MessagesAreOfNone(ResultMessages(OutcomesOf(st)), id);
    TraceOfConcat(PreflightLog(context, calls, env, n), RaceLog(given, entries, start, schedule), id);
    TraceOfConcat(PreflightLog(context, calls, env, n) + RaceLog(given, entries, start, schedule),
                  MessagesLog(ResultMessages(OutcomesOf(st))), id);
    SequentialTrace(context, calls, env, n, i, id);
  }

  lemma EntryIsOf(tools: seq<Tool>, call: ToolCall, env: CallEnv)
    ensures EntryCall(EntryOf(tools, call, env)) == call
  {
  }

  // ----- Progress -----

  /** The reports a tool has yet to make before it settles. */
  function Reports(ticks: seq<Tick>): nat {
    if ticks == [] || ticks[0].Settle? then 0 else 1 + Reports(ticks[1..])
  }

  /** The steps a task has yet to take. */
  function StepsLeft(e: Entry, s: Status): nat {
    match s
    case Waiting => if e.Task? then 4 + Reports(e.env.ticks) else 4
    case Running(ticks) => 3 + Reports(ticks)
    case Settled => 2
    case InReview => 1
    case Done(_) => 0
  }

  function Rank(entries: seq<Entry>, st: seq<Status>): nat
    requires |entries| == |st|
  {
    if st == [] then 0
    else
      var n := |st| - 1;
      Rank(entries[..n], st[..n]) + StepsLeft(entries[n], st[n])
  }

  /** A report that comes too late and is dropped. */
  predicate IsLate(st: seq<Status>, a: Action) {
    a.Progress? && a.i < |st| && !st[a.i].Running?
  }

  /** The steps of a schedule that advance a task. */
  function Advances(entries: seq<Entry>, st: seq<Status>, schedule: seq<Action>): nat
    decreases |schedule|
  {
    if schedule == [] || !Enabled(entries, st, schedule[0]) then 0
    else (if IsLate(st, schedule[0]) then 0 else 1)
           + Advances(entries, After(entries, st, schedule[0]), schedule[1..])
  }

  lemma {:induction false} RankAfterUpdate(entries: seq<Entry>, st: seq<Status>, i: nat, s: Status)
    requires |entries| == |st| && i < |st|
    ensures Rank(entries, st[i := s]) - Rank(entries, st) == StepsLeft(entries[i], s) - StepsLeft(entries[i], st[i])
  {
    hide StepsLeft;
    var n := |st| - 1;
    if i == n {
      assert st[i := s][..n] == st[..n];
    } else {
      RankAfterUpdate(entries[..n], st[..n], i, s);
      assert st[i := s][..n] == st[..n][i := s];
    }
  }

  lemma {:induction false} RankZero(entries: seq<Entry>, st: seq<Status>)
    requires |entries| == |st|
    ensures Rank(entries, st) == 0 <==> AllDone(st)
  {
    if st != [] {
      RankZero(entries[..|st| - 1], st[..|st| - 1]);
      assert AllDone(st) <==> AllDone(st[..|st| - 1]) && st[|st| - 1].Done?;
    }
  }

  lemma StepCounts(entries: seq<Entry>, st: seq<Status>, a: Action)
    requires Enabled(entries, st, a) && !IsLate(st, a)
    ensures StepsLeft(entries[a.i], After(entries, st, a)[a.i]) + 1 == StepsLeft(entries[a.i], st[a.i])
    ensures After(entries, st, a) == st[a.i := After(entries, st, a)[a.i]]
  {
    hide EntryOutcome;
  }

  /** A race is over exactly when its schedule has taken, for every task, one step for each report before it settles and
      four more: start, settling, review, and end. */
  lemma {:induction false} RaceLength(entries: seq<Entry>, st: seq<Status>, schedule: seq<Action>)
    requires |st| == |entries|
    ensures |Race(entries, st, schedule)| == |entries|
    ensures Advances(entries, st, schedule) + Rank(entries, Race(entries, st, schedule)) == Rank(entries, st)
    ensures AllDone(Race(entries, st, schedule)) <==> Advances(entries, st, schedule) == Rank(entries, st)
    decreases |schedule|
  {
    hide Rank, After, StepsLeft;
    if schedule != [] && Enabled(entries, st, schedule[0]) {
      var a := schedule[0];
      RaceLength(entries, After(entries, st, a), schedule[1..]);
      if IsLate(st, a) {
        LateChangesNothing(entries, st, a);
      } else {
        StepCounts(entries, st, a);
        RankAfterUpdate(entries, st, a.i, After(entries, st, a)[a.i]);
      }
    }
    RankZero(entries, Race(entries, st, schedule));
  }

  lemma LateChangesNothing(entries: seq<Entry>, st: seq<Status>, a: Action)
    requires Enabled(entries, st, a) && IsLate(st, a)
    ensures After(entries, st, a) == st
  {
  }

  /** The race never gets stuck: until all is done, some task can be advanced. */
  lemma NoDeadlock(entries: seq<Entry>, st: seq<Status>) returns (a: Action)
    requires Coherent(entries, st) && !AllDone(st)
    ensures Enabled(entries, st, a) && !IsLate(st, a)
  {
    if AllLaunched(st) {
      var i: nat :| i < |st| && !st[i].Done?;
      a := match st[i]
           case Running(ticks) => if ticks != [] && ticks[0].Report? then Progress(i) else Resolve(i)
           case Settled => Review(i)
           case _ => Complete(i);
    } else {
      a := Launch(FirstWaiting(st));
    }
  }

  /** Tasks do not wait for each other: once all have been started, each of them can be advanced until it is done,
      whatever the state of the others. */
  lemma TasksAreIndependent(entries: seq<Entry>, st: seq<Status>, i: nat) returns (a: Action)
    requires |entries| == |st| && AllLaunched(st) && i < |st| && entries[i].Task? && !st[i].Done?
    ensures a.i == i && Enabled(entries, st, a)
    ensures After(entries, st, a) == st[i := After(entries, st, a)[i]]
    ensures StepsLeft(entries[i], After(entries, st, a)[i]) + 1 == StepsLeft(entries[i], st[i])
  {
    hide EntryOutcome;
    a := match st[i]
         case Running(ticks) => if ticks != [] && ticks[0].Report? then Progress(i) else Resolve(i)
         case Settled => Review(i)
         case _ => Complete(i);
    StepCounts(entries, st, a);
  }

  /** A tool that is running may make its next report at any time, whatever the state of the other tasks; and one that
      has settled may still report, which shows nothing and changes nothing. */
  lemma ReportsComeAnyTime(given: seq<Message>, entries: seq<Entry>, st: seq<Status>, i: nat)
    requires |entries| == |st| && i < |st| && entries[i].Task?
    ensures st[i].Running? && st[i].ticks != [] && st[i].ticks[0].Report? ==>
              && Enabled(entries, st, Progress(i))
              && ActionLog(given, entries, st, Progress(i))
              == [Emit(UpdateEvent(entries[i].call, st[i].ticks[0].partial))]
              && After(entries, st, Progress(i)) == st[i := Running(st[i].ticks[1..])]
    ensures st[i].Settled? || st[i].InReview? || st[i].Done? ==>
              && Enabled(entries, st, Progress(i))
              && ActionLog(given, entries, st, Progress(i)) == [] && After(entries, st, Progress(i)) == st
  {
    hide UpdateEvent;
  }

  /** Before an execution there are only executions and reports. */
  ghost predicate InOneGo(log: seq<Interaction>) {
    forall j, k :: 0 <= j < k < |log| && log[k].Execute? ==>
      log[j].Execute? || (log[j].Emit? && log[j].event.ToolUpdate?)
  }

  ghost predicate NoneStarted(log: seq<Interaction>) {
    forall k :: 0 <= k < |log| ==> !log[k].Execute?
  }

  /** If a task has got beyond running, all have been started. */
  ghost predicate StartedTogether(entries: seq<Entry>, st: seq<Status>) {
    && |entries| == |st|
    && ((exists i :: 0 <= i < |st| && entries[i].Task? && !st[i].Waiting? && !st[i].Running?) ==> AllLaunched(st))
  }

  lemma StepKeepsTogether(entries: seq<Entry>, st: seq<Status>, a: Action)
    requires StartedTogether(entries, st) && Enabled(entries, st, a)
    ensures StartedTogether(entries, After(entries, st, a))
    ensures AllLaunched(st) ==> AllLaunched(After(entries, st, a)) && !a.Launch?
    ensures !a.Launch? && !a.Progress? ==> AllLaunched(After(entries, st, a))
  {
    hide EntryOutcome;
    var next := After(entries, st, a);
    if i: nat :| i < |st| && entries[i].Task? && !next[i].Waiting? && !next[i].Running? {
      if i != a.i {
        assert !st[i].Waiting? && !st[i].Running?;
      }
    }
  }

  lemma {:induction false} NoneStartedAfterAll(
      given: seq<Message>, entries: seq<Entry>, st: seq<Status>, schedule: seq<Action>)
    requires StartedTogether(entries, st) && AllLaunched(st)
    ensures NoneStarted(RaceLog(given, entries, st, schedule))
    decreases |schedule|
  {
    hide After, StartedTogether, EntryOutcome;
    if schedule != [] && Enabled(entries, st, schedule[0]) {
      StepKeepsTogether(entries, st, schedule[0]);
      NoneStartedAfterAll(given, entries, After(entries, st, schedule[0]), schedule[1..]);
      assert NoneStarted(ActionLog(given, entries, st, schedule[0]));
    }
  }

  lemma {:induction false} RaceStartsInOneGo(
      given: seq<Message>, entries: seq<Entry>, st: seq<Status>, schedule: seq<Action>)
    requires StartedTogether(entries, st)
    ensures InOneGo(RaceLog(given, entries, st, schedule))
    decreases |schedule|
  {
    hide After, StartedTogether, EntryOutcome, Enabled, AllLaunched;
    if schedule != [] && Enabled(entries, st, schedule[0]) {
      var a, next := schedule[0], After(entries, st, schedule[0]);
      StepKeepsTogether(entries, st, a);
      RaceStartsInOneGo(given, entries, next, schedule[1..]);
      if !a.Launch? && !a.Progress? {
        NoneStartedAfterAll(given, entries, next, schedule[1..]);
      }
    }
  }

  /** In a concurrent batch, under every schedule, all tasks are started before the first of them settles: behind the
      preflight nothing but reports comes between the executions. */
  lemma TasksStartInOneGo(
      context: Context, calls: seq<ToolCall>, env: seq<CallEnv>, schedule: seq<Action>)
    requires |calls| <= |env|
    ensures var preflight := PreflightLog(context, calls, env, Reached(calls, env, 0));
            var log := ParallelBatch(context, calls, env, schedule).log;
            |preflight| <= |log| && InOneGo(log[|preflight|..])
  {
    hide Entries, PreflightLog, InitialStatuses, Race, RaceLog, MessagesLog, ResultMessages, OutcomesOf, Reached;
    var n, given := Reached(calls, env, 0), context.messages;
    var entries := Entries(context.tools, calls, env, n);
    var start := InitialStatuses(entries);
    var st := Race(entries, start, schedule);
    var preflight, race := PreflightLog(context, calls, env, n), RaceLog(given, entries, start, schedule);
    InitialAt(entries);
    RaceStartsInOneGo(given, entries, start, schedule);
    if AllDone(st) {
      var results := MessagesLog(ResultMessages(OutcomesOf(st)));
      ResultsAreSilentOnTools(ResultMessages(OutcomesOf(st)));
      Associate(preflight, race, results);
      SplitAt(preflight, race + results);
    } else {
      SplitAt(preflight, race);
    }
  }

  lemma {:induction false} ResultsAreSilentOnTools(ms: seq<Message>)
    ensures NoneStarted(MessagesLog(ms))
  {
    if ms != [] {
      ResultsAreSilentOnTools(ms[..|ms| - 1]);
    }
  }

  ghost function FirstWaiting(st: seq<Status>): (i: nat)
    requires !AllLaunched(st)
    ensures i < |st| && st[i].Waiting? && AllLaunched(st[..i])
  {
    if AllLaunched(st[..|st| - 1]) then
      assert st[..|st| - 1] + [st[|st| - 1]] == st;
      |st| - 1
    else
      var i := FirstWaiting(st[..|st| - 1]);
      assert st[..|st| - 1][..i] == st[..i];
      i
  }

  // ----- Execution discipline -----

  function InFlight(log: seq<Interaction>): int {
    if log == [] then 0
    else
      var x := log[|log| - 1];
      InFlight(log[..|log| - 1])
        + if x.Emit? && x.event.ToolStart? then 1 else if x.Emit? && x.event.ToolEnd? then -1 else 0
  }

  lemma {:induction false} InFlightOfConcat(a: seq<Interaction>, b: seq<Interaction>)
    ensures InFlight(a + b) == InFlight(a) + InFlight(b)
  {
    if b == [] {
      assert a + b == a;
    } else {
      assert (a + b)[..|a + b| - 1] == a + b[..|b| - 1];
      InFlightOfConcat(a, b[..|b| - 1]);
    }
  }

  ghost predicate OneAtATime(log: seq<Interaction>) {
    forall m :: 0 <= m <= |log| ==> 0 <= InFlight(log[..m]) <= 1
  }

  lemma OneAtATimeInTurn(a: seq<Interaction>, b: seq<Interaction>)
    requires OneAtATime(a) && InFlight(a) == 0 && OneAtATime(b)
    ensures OneAtATime(a + b)
  {
    forall m | 0 <= m <= |a + b|
      ensures 0 <= InFlight((a + b)[..m]) <= 1
    {
      if m <= |a| {
        assert (a + b)[..m] == a[..m];
      } else {
        assert (a + b)[..m] == a + b[..m - |a|];
        InFlightOfConcat(a, b[..m - |a|]);
      }
    }
  }

  ghost predicate NeitherStartsNorEnds(log: seq<Interaction>) {
    forall k :: 0 <= k < |log| ==> !(log[k].Emit? && (log[k].event.ToolStart? || log[k].event.ToolEnd?))
  }

  lemma {:induction false} InFlightUnchanged(log: seq<Interaction>)
    requires NeitherStartsNorEnds(log)
    ensures InFlight(log) == 0
  {
    if log != [] {
      InFlightUnchanged(log[..|log| - 1]);
    }
  }

  lemma {:induction false} UpdatesNeitherStartNorEnd(call: ToolCall, ticks: seq<Tick>)
    ensures NeitherStartsNorEnds(AcceptedUpdates(call, ticks))
  {
    if ticks != [] && ticks[0].Report? {
      UpdatesNeitherStartNorEnd(call, ticks[1..]);
    }
  }

  lemma OneCallAtATime(start: Interaction, middle: seq<Interaction>, end: Interaction, tail: seq<Interaction>)
    requires start.Emit? && start.event.ToolStart? && end.Emit? && end.event.ToolEnd?
    requires NeitherStartsNorEnds(middle) && NeitherStartsNorEnds(tail)
    ensures var log := [start] + middle + [end] + tail; OneAtATime(log) && InFlight(log) == 0
  {
    var log := [start] + middle + [end] + tail;
    forall m | 0 <= m <= |log|
      ensures InFlight(log[..m]) == if 0 < m <= |middle| + 1 then 1 else 0
    {
      if m > 0 {
        assert [start][..0] == [];
        var k := if m <= |middle| + 1 then m - 1 else |middle|;
        InFlightUnchanged(middle[..k]);
        InFlightOfConcat([start], middle[..k]);
        if m <= |middle| + 1 {
          assert log[..m] == [start] + middle[..k];
        } else {
          var j := m - |middle| - 2;
          assert [end][..0] == [];
          assert middle[..k] == middle;
          InFlightUnchanged(tail[..j]);
          InFlightOfConcat([start] + middle, [end]);
          InFlightOfConcat([start] + middle + [end], tail[..j]);
          assert log[..m] == [start] + middle + [end] + tail[..j];
        }
      }
    }
    assert log[..|log|] == log;
  }

  lemma OneSequentialCall(context: Context, call: ToolCall, env: CallEnv)
    ensures var log := SequentialCallLog(context, call, env); OneAtATime(log) && InFlight(log) == 0
  {
    hide Prepare, Outcome, OneAtATime, InFlight;
    var f := Outcome(context.tools, call, env);
    var before, run := BeforeLog(context, call, env), ExecutionLog(context, call, env);
    UpdatesNeitherStartNorEnd(call, env.ticks);
    Associate([Emit(StartEvent(call))], before, run);
    OneCallAtATime(Emit(StartEvent(call)), before + run, Emit(EndEvent(f)), MessageLog(ResultMessage(f)));
  }

  lemma NothingInFlight()
    ensures OneAtATime([]) && InFlight([]) == 0
  {
  }

  lemma {:induction false} SequentialDiscipline(context: Context, calls: seq<ToolCall>, env: seq<CallEnv>, n: nat)
    requires n <= |calls| <= |env|
    ensures OneAtATime(SequentialLog(context, calls, env, n)) && InFlight(SequentialLog(context, calls, env, n)) == 0
  {
    hide SequentialCallLog, InFlight, OneAtATime;
    if n == 0 {
      NothingInFlight();
    } else {
      var done, rest := SequentialLog(context, calls, env, n - 1), SequentialCallLog(context, calls[n - 1], env[n - 1]);
      SequentialDiscipline(context, calls, env, n - 1);
      OneSequentialCall(context, calls[n - 1], env[n - 1]);
      OneAtATimeInTurn(done, rest);
      InFlightOfConcat(done, rest);
    }
  }

  /** Nothing of the preflight of any call: no announcement, no `beforeToolCall`, and only the ends and updates of
      tasks. */
  ghost predicate OnlyTasks(entries: seq<Entry>, log: seq<Interaction>) {
    forall k :: 0 <= k < |log| ==>
      match log[k]
      case ConsultBefore(_, _) => false
      case Emit(ToolStart(_, _, _)) => false
      case Emit(ToolEnd(_, _, _, _)) =>
        exists i :: 0 <= i < |entries| && entries[i].Task? && log[k] == Emit(EndEvent(EntryOutcome(entries[i])))
      case Emit(ToolUpdate(_, _, _, partial)) =>
        exists i :: 0 <= i < |entries| && entries[i].Task? && log[k] == Emit(UpdateEvent(entries[i].call, partial))
      case Execute(_, _) =>
        exists i :: 0 <= i < |entries| && entries[i].Task? && log[k] == Execute(entries[i].call.id, entries[i].args)
      case ConsultAfter(id, _) =>
        exists i :: 0 <= i < |entries| && entries[i].Task? && entries[i].call.id == id
      case _ => true
  }

  lemma OneActionIsOfTask(given: seq<Message>, entries: seq<Entry>, st: seq<Status>, a: Action)
    requires Enabled(entries, st, a)
    ensures OnlyTasks(entries, ActionLog(given, entries, st, a))
  {
    hide EntryOutcome;
  }

  lemma {:induction false} RaceIsOfTasks(
      given: seq<Message>, entries: seq<Entry>, st: seq<Status>, schedule: seq<Action>)
    ensures OnlyTasks(entries, RaceLog(given, entries, st, schedule))
    decreases |schedule|
  {
    hide ActionLog, After, OnlyTasks;
    if schedule == [] || !Enabled(entries, st, schedule[0]) {
      NothingIsOfTasks(entries);
    } else {
      var next := After(entries, st, schedule[0]);
      RaceIsOfTasks(given, entries, next, schedule[1..]);
      OneActionIsOfTask(given, entries, st, schedule[0]);
      OnlyTasksConcat(entries, ActionLog(given, entries, st, schedule[0]),
                      RaceLog(given, entries, next, schedule[1..]));
    }
  }

  lemma NothingIsOfTasks(entries: seq<Entry>)
    ensures OnlyTasks(entries, [])
  {
  }

  lemma OnlyTasksConcat(entries: seq<Entry>, a: seq<Interaction>, b: seq<Interaction>)
    requires OnlyTasks(entries, a) && OnlyTasks(entries, b)
    ensures OnlyTasks(entries, a + b)
  {
    hide EntryOutcome;
  }

  lemma {:induction false} ResultsAreOfTasks(entries: seq<Entry>, ms: seq<Message>)
    ensures OnlyTasks(entries, MessagesLog(ms))
  {
    hide EntryOutcome;
    if ms != [] {
      ResultsAreOfTasks(entries, ms[..|ms| - 1]);
    }
  }

  /** The tool at `i` is the one that a call by this name gets: the first with the name. */
  ghost predicate IsCalled(tools: seq<Tool>, name: string, i: nat) {
    i < |tools| && tools[i].name == name && forall j :: 0 <= j < i ==> tools[j].name != name
  }

  /** The calls have to be executed one after the other: the configuration asks for it, or a tool that is called. */
  ghost predicate InSequence(mode: ToolMode, tools: seq<Tool>, calls: seq<ToolCall>) {
    || mode == Sequential
    || exists k, i: nat ::
         0 <= k < |calls| && IsCalled(tools, calls[k].name, i) && tools[i].executionMode == Some(Sequential)
  }

  /** Looking a tool up finds the first of its name, if there is one. */
  lemma {:induction false} FoundIsCalled(tools: seq<Tool>, name: string) returns (i: nat)
    ensures FindTool(tools, name).Some? ==> IsCalled(tools, name, i) && FindTool(tools, name) == Some(tools[i])
    ensures FindTool(tools, name).None? ==> forall j :: 0 <= j < |tools| ==> tools[j].name != name
  {
    if tools == [] || tools[0].name == name {
      i := 0;
    } else {
      i := FoundIsCalled(tools[1..], name);
      assert forall j :: 0 < j < |tools| ==> tools[j] == tools[1..][j - 1];
      i := i + 1;
    }
  }

  lemma OnlyOneIsCalled(tools: seq<Tool>, name: string, i: nat)
    requires IsCalled(tools, name, i)
    ensures FindTool(tools, name) == Some(tools[i])
  {
    var j := FoundIsCalled(tools, name);
    assert FindTool(tools, name).Some?;
    assert i == j;
  }

  lemma SequentialIfAsked(mode: ToolMode, tools: seq<Tool>, calls: seq<ToolCall>)
    ensures UsesSequential(mode, tools, calls) <==> InSequence(mode, tools, calls)
  {
    hide FindTool;
    forall k | 0 <= k < |calls| && IsSequentialTool(tools, calls[k].name)
      ensures InSequence(mode, tools, calls)
    {
      var i := FoundIsCalled(tools, calls[k].name);
    }
    forall k, i: nat |
      0 <= k < |calls| && IsCalled(tools, calls[k].name, i) && tools[i].executionMode == Some(Sequential)
      ensures IsSequentialTool(tools, calls[k].name)
    {
      OnlyOneIsCalled(tools, calls[k].name, i);
    }
  }

  /** If the configuration or a called tool asks for it, no two calls of a batch overlap. */
  lemma SequentialBatchesDoNotOverlap(
      mode: ToolMode, context: Context, calls: seq<ToolCall>, env: seq<CallEnv>, schedule: seq<Action>)
    requires |calls| <= |env|
    requires InSequence(mode, context.tools, calls)
    ensures OneAtATime(ExecuteBatch(mode, context, calls, env, schedule).log)
  {
    hide InSequence, UsesSequential;
    SequentialIfAsked(mode, context.tools, calls);
    SequentialDiscipline(context, calls, env, Reached(calls, env, 0));
  }

  /** Otherwise the batch begins with the whole preflight, the announcement of every call and the end of every rejected
      one, and from there on only tasks are started, report and end, in every schedule. */
  lemma PreflightComesFirst(
      mode: ToolMode, context: Context, calls: seq<ToolCall>, env: seq<CallEnv>, schedule: seq<Action>)
    requires |calls| <= |env|
    requires !InSequence(mode, context.tools, calls)
    ensures var log, n := ExecuteBatch(mode, context, calls, env, schedule).log, Reached(calls, env, 0);
            var preflight := PreflightLog(context, calls, env, n);
            && |preflight| <= |log|
            && log[..|preflight|] == preflight
            && OnlyTasks(Entries(context.tools, calls, env, n), log[|preflight|..])
  {
    hide Entries, PreflightLog, InitialStatuses, Race, RaceLog, MessagesLog, ResultMessages, OutcomesOf, OnlyTasks,
         SequentialBatch, Reached, InSequence, UsesSequential;
    SequentialIfAsked(mode, context.tools, calls);
    var n, given := Reached(calls, env, 0), context.messages;
    var entries := Entries(context.tools, calls, env, n);
    var start := InitialStatuses(entries);
    var st := Race(entries, start, schedule);
    var preflight, race := PreflightLog(context, calls, env, n), RaceLog(given, entries, start, schedule);
    RaceIsOfTasks(given, entries, start, schedule);
    if AllDone(st) {
      var results := MessagesLog(ResultMessages(OutcomesOf(st)));
      ResultsAreOfTasks(entries, ResultMessages(OutcomesOf(st)));
      OnlyTasksConcat(entries, race, results);
      Associate(preflight, race, results);
      SplitAt(preflight, race + results);
    } else {
      SplitAt(preflight, race);
    }
  }

  lemma SplitAt<T>(a: seq<T>, b: seq<T>)
    ensures |a| <= |a + b| && (a + b)[..|a|] == a && (a + b)[|a|..] == b
  {
  }
}
