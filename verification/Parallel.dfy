/** The concurrent executor: preflight in source order, a race under an arbitrary scheduler,
    and result messages in source order. */
module Parallel {
  import opened Types
  import opened Tools

  /** An element of `finalizedCalls`: an outcome already known, or a task still to be started. */
  datatype Entry = Ready(finalized: Finalized) | Task(call: ToolCall, args: Json, env: CallEnv)

  /** The state of one entry during the race. A running tool has the given ticks before it, and only then are its
      updates accepted; in review, its outcome is with `afterToolCall`. */
  datatype Status = Waiting | Running(ticks: seq<Tick>) | Settled | InReview | Done(finalized: Finalized)

  /** One scheduler step: start the next task, let a tool make its next report, let its promise settle, hand its outcome
      to `afterToolCall`, or let its task run to the end. */
  datatype Action = Launch(i: nat) | Progress(i: nat) | Resolve(i: nat) | Review(i: nat) | Complete(i: nat)

  function EntryOf(tools: seq<Tool>, call: ToolCall, env: CallEnv): Entry {
    match Prepare(tools, call, env)
    case Immediate(result, isError) => Ready(Finalized(call, result, isError))
    case Prepared(args) => Task(call, args, env)
  }

  function EntryCall(e: Entry): ToolCall {
    if e.Ready? then e.finalized.call else e.call
  }

  function EntryOutcome(e: Entry): Finalized {
    if e.Ready? then e.finalized else Finalize(e.call, e.env)
  }

  function Entries(tools: seq<Tool>, calls: seq<ToolCall>, env: seq<CallEnv>, n: nat): seq<Entry>
    requires n <= |calls| <= |env|
  {
    if n == 0 then [] else Entries(tools, calls, env, n - 1) + [EntryOf(tools, calls[n - 1], env[n - 1])]
  }

  /** A call is announced before its preflight; a rejected one is over at once. */
  function PreflightCallLog(context: Context, call: ToolCall, env: CallEnv): seq<Interaction> {
    [Emit(StartEvent(call))] + BeforeLog(context, call, env)
      + match Prepare(context.tools, call, env)
        case Immediate(result, isError) => [Emit(EndEvent(Finalized(call, result, isError)))]
        case Prepared(_) => []
  }

  function PreflightLog(context: Context, calls: seq<ToolCall>, env: seq<CallEnv>, n: nat): seq<Interaction>
    requires n <= |calls| <= |env|
  {
    if n == 0 then []
    else PreflightLog(context, calls, env, n - 1) + PreflightCallLog(context, calls[n - 1], env[n - 1])
  }

  function InitialStatus(e: Entry): Status {
    if e.Ready? then Done(e.finalized) else Waiting
  }

  function InitialStatuses(entries: seq<Entry>): seq<Status> {
    if entries == [] then []
    else InitialStatuses(entries[..|entries| - 1]) + [InitialStatus(entries[|entries| - 1])]
  }

  predicate AllLaunched(st: seq<Status>) {
    forall k :: 0 <= k < |st| ==> !st[k].Waiting?
  }

  predicate AllDone(st: seq<Status>) {
    forall k :: 0 <= k < |st| ==> st[k].Done?
  }

  /** Tasks are started in order and in one go, so no promise settles before all have been started. A tool makes its
      reports in its own order; one that still reports when its promise has settled may do so at any time. */
  predicate Enabled(entries: seq<Entry>, st: seq<Status>, a: Action) {
    && |entries| == |st|
    && a.i < |st|
    && entries[a.i].Task?
    && match a
       case Launch(i) => st[i].Waiting? && AllLaunched(st[..i])
       case Progress(i) => !st[i].Waiting? && (st[i].Running? ==> st[i].ticks != [] && st[i].ticks[0].Report?)
       case Resolve(i) => st[i].Running? && (st[i].ticks == [] || st[i].ticks[0].Settle?) && AllLaunched(st)
       case Review(i) => st[i].Settled?
       case Complete(i) => st[i].InReview?
  }

  function After(entries: seq<Entry>, st: seq<Status>, a: Action): (st': seq<Status>)
    requires Enabled(entries, st, a)
    ensures |st'| == |st|
  {
    match a
    case Launch(i) => st[i := Running(entries[i].env.ticks)]
    case Progress(i) => if st[i].Running? then st[i := Running(st[i].ticks[1..])] else st
    case Resolve(i) => st[i := Settled]
    case Review(i) => st[i := InReview]
    case Complete(i) => st[i := Done(EntryOutcome(entries[i]))]
  }

  function ActionLog(given: seq<Message>, entries: seq<Entry>, st: seq<Status>, a: Action): seq<Interaction>
    requires Enabled(entries, st, a)
  {
    var e := entries[a.i];
    match a
    case Launch(_) => [Execute(e.call.id, e.args)]
    case Progress(i) => if st[i].Running? then [Emit(UpdateEvent(e.call, st[i].ticks[0].partial))] else []
    case Resolve(_) => []
    case Review(_) => AfterLog(given, e.call, e.env)
    case Complete(_) => [Emit(EndEvent(EntryOutcome(e)))]
  }

  /** The race under a schedule; what follows an action that is not possible is not observed. */
  function Race(entries: seq<Entry>, st: seq<Status>, schedule: seq<Action>): seq<Status>
    decreases |schedule|
  {
    if schedule == [] || !Enabled(entries, st, schedule[0]) then st
    else Race(entries, After(entries, st, schedule[0]), schedule[1..])
  }

  function RaceLog(given: seq<Message>, entries: seq<Entry>, st: seq<Status>, schedule: seq<Action>): seq<Interaction>
    decreases |schedule|
  {
    if schedule == [] || !Enabled(entries, st, schedule[0]) then []
    else
      ActionLog(given, entries, st, schedule[0])
        + RaceLog(given, entries, After(entries, st, schedule[0]), schedule[1..])
  }

  function OutcomesOf(st: seq<Status>): seq<Finalized>
    requires AllDone(st)
  {
    if st == [] then [] else OutcomesOf(st[..|st| - 1]) + [st[|st| - 1].finalized]
  }

  /** What a batch shows and yields; `complete` is false when it is cut off during the race. */
  datatype Batch = Batch(log: seq<Interaction>, complete: bool, finalized: seq<Finalized>)

  function ParallelBatch(context: Context, calls: seq<ToolCall>, env: seq<CallEnv>, schedule: seq<Action>): Batch
    requires |calls| <= |env|
  {
    var n := Reached(calls, env, 0);
    var entries := Entries(context.tools, calls, env, n);
    var start := InitialStatuses(entries);
    var st := Race(entries, start, schedule);
    var log := PreflightLog(context, calls, env, n) + RaceLog(context.messages, entries, start, schedule);
    if AllDone(st) then Batch(log + MessagesLog(ResultMessages(OutcomesOf(st))), true, OutcomesOf(st))
    else Batch(log, false, [])
  }

  function SequentialBatch(context: Context, calls: seq<ToolCall>, env: seq<CallEnv>): Batch
    requires |calls| <= |env|
  {
    var n := Reached(calls, env, 0);
    Batch(SequentialLog(context, calls, env, n), true, Outcomes(context.tools, calls, env, n))
  }

  predicate IsSequentialTool(tools: seq<Tool>, name: string) {
    var tool := FindTool(tools, name);
    tool.Some? && tool.value.executionMode == Some(Sequential)
  }

  predicate UsesSequential(mode: ToolMode, tools: seq<Tool>, calls: seq<ToolCall>) {
    mode == Sequential || exists k :: 0 <= k < |calls| && IsSequentialTool(tools, calls[k].name)
  }

  function ExecuteBatch(
      mode: ToolMode, context: Context, calls: seq<ToolCall>, env: seq<CallEnv>, schedule: seq<Action>): Batch
    requires |calls| <= |env|
  {
    if UsesSequential(mode, context.tools, calls) then SequentialBatch(context, calls, env)
    else ParallelBatch(context, calls, env, schedule)
  }

  // ----- The executor, step by step -----

  method PreflightOne(context: Context, toolCall: ToolCall, env: CallEnv, sink: Recorder) returns (entry: Entry)
    modifies sink
    ensures entry == EntryOf(context.tools, toolCall, env)
    ensures sink.log == old(sink.log) + PreflightCallLog(context, toolCall, env)
  {
    hide Prepare, BeforeLog;
    sink.EmitEvent(StartEvent(toolCall));
    var preparation := PrepareToolCall(context, toolCall, env, sink);
    match preparation {
      case Immediate(result, isError) =>
        var finalized := Finalized(toolCall, result, isError);
        sink.EmitEvent(EndEvent(finalized));
        entry := Ready(finalized);
      case Prepared(args) =>
        entry := Task(toolCall, args, env);
    }
  }

  method Preflight(context: Context, calls: seq<ToolCall>, env: seq<CallEnv>, sink: Recorder)
    returns (entries: seq<Entry>)
    requires |calls| <= |env|
    modifies sink
    ensures var n := Reached(calls, env, 0);
            && entries == Entries(context.tools, calls, env, n)
            && sink.log == old(sink.log) + PreflightLog(context, calls, env, n)
  {
    hide EntryOf, PreflightCallLog;
    entries := [];
    var k := 0;
    var aborted := false;
    while k < |calls| && !aborted
      invariant k <= |calls|
      invariant Reached(calls, env, 0) == if aborted then k else Reached(calls, env, k)
      invariant entries == Entries(context.tools, calls, env, k)
      invariant sink.log == old(sink.log) + PreflightLog(context, calls, env, k)
    {
      var entry := PreflightOne(context, calls[k], env[k], sink);
      Associate(old(sink.log), PreflightLog(context, calls, env, k), PreflightCallLog(context, calls[k], env[k]));
      entries := entries + [entry];
      aborted := env[k].abortedAfter;
      k := k + 1;
    }
  }

  method StartAll(entries: seq<Entry>) returns (status: array<Status>)
    ensures fresh(status) && status[..] == InitialStatuses(entries)
  {
    InitialAt(entries);
    status := new Status[|entries|](k requires 0 <= k < |entries| => InitialStatus(entries[k]));
  }

  /** One scheduler step on the shared state of the race. */
  method Schedule(context: Context, entries: seq<Entry>, status: array<Status>, a: Action, sink: Recorder)
    requires Enabled(entries, status[..], a)
    modifies status, sink
    ensures status[..] == After(entries, old(status[..]), a)
    ensures sink.log == old(sink.log) + ActionLog(context.messages, entries, old(status[..]), a)
  {
    var e := entries[a.i];
    match a {
      case Launch(i) =>
        sink.Record(Execute(e.call.id, e.args));
        status[i] := Running(e.env.ticks);
      case Progress(i) =>
        if status[i].Running? {
          sink.EmitEvent(UpdateEvent(e.call, status[i].ticks[0].partial));
          status[i] := Running(status[i].ticks[1..]);
        }
      case Resolve(i) =>
        status[i] := Settled;
      case Review(i) =>
        if e.env.after.Some? {
          sink.Record(ConsultAfter(e.call.id, context.messages));
        }
        status[i] := InReview;
      case Complete(i) =>
        var finalized := Finalize(e.call, e.env);
        sink.EmitEvent(EndEvent(finalized));
        status[i] := Done(finalized);
    }
  }

  /** Lets the scheduler run; stops where the schedule leaves the possible steps. */
  method RunRace(
      context: Context, entries: seq<Entry>, status: array<Status>, schedule: seq<Action>, sink: Recorder)
    requires status.Length == |entries|
    modifies status, sink
    ensures status[..] == Race(entries, old(status[..]), schedule)
    ensures sink.log == old(sink.log) + RaceLog(context.messages, entries, old(status[..]), schedule)
  {
    hide ActionLog, After;
    var k := 0;
    ghost var given := context.messages;
    while k < |schedule| && Enabled(entries, status[..], schedule[k])
      invariant k <= |schedule|
      invariant Race(entries, status[..], schedule[k..]) == Race(entries, old(status[..]), schedule)
      invariant sink.log + RaceLog(given, entries, status[..], schedule[k..])
             == old(sink.log) + RaceLog(given, entries, old(status[..]), schedule)
    {
      assert schedule[k..][1..] == schedule[k + 1..];
      ghost var before := sink.log;
      ghost var step := ActionLog(given, entries, status[..], schedule[k]);
      Associate(before, step, RaceLog(given, entries, After(entries, status[..], schedule[k]), schedule[k + 1..]));
      Schedule(context, entries, status, schedule[k], sink);
      k := k + 1;
    }
  }

  lemma {:induction false} InitialAt(entries: seq<Entry>)
    ensures |InitialStatuses(entries)| == |entries|
    ensures forall k :: 0 <= k < |entries| ==> InitialStatuses(entries)[k] == InitialStatus(entries[k])
  {
    if entries != [] {
      InitialAt(entries[..|entries| - 1]);
    }
  }

  lemma {:induction false} RaceKeepsLength(entries: seq<Entry>, st: seq<Status>, schedule: seq<Action>)
    ensures |Race(entries, st, schedule)| == |st|
    decreases |schedule|
  {
    if schedule != [] && Enabled(entries, st, schedule[0]) {
      RaceKeepsLength(entries, After(entries, st, schedule[0]), schedule[1..]);
    }
  }

  method EmitResults(finalized: seq<Finalized>, sink: Recorder) returns (messages: seq<Message>)
    modifies sink
    ensures messages == ResultMessages(finalized)
    ensures sink.log == old(sink.log) + MessagesLog(messages)
  {
    messages := [];
    for k := 0 to |finalized|
      invariant messages == ResultMessages(finalized[..k])
      invariant sink.log == old(sink.log) + MessagesLog(messages)
    {
      var toolResultMessage := ResultMessage(finalized[k]);
      EmitToolResultMessage(toolResultMessage, sink);
      assert finalized[..k + 1][..k] == finalized[..k];
      assert (messages + [toolResultMessage])[..|messages|] == messages;
      messages := messages + [toolResultMessage];
    }
    assert finalized[..|finalized|] == finalized;
  }

  method Collect(status: array<Status>) returns (finalized: seq<Finalized>)
    requires AllDone(status[..])
    ensures finalized == OutcomesOf(status[..])
  {
    finalized := [];
    for k := 0 to status.Length
      invariant AllDone(status[..k])
      invariant finalized == OutcomesOf(status[..k])
    {
      assert status[..k + 1][..k] == status[..k];
      assert status[k] == status[..][k];
      finalized := finalized + [status[k].finalized];
    }
    assert status[..status.Length] == status[..];
  }

  method ExecuteToolCallsParallel(
      context: Context, calls: seq<ToolCall>, env: seq<CallEnv>, schedule: seq<Action>, sink: Recorder)
    returns (complete: bool, finalized: seq<Finalized>, messages: seq<Message>)
    requires |calls| <= |env|
    modifies sink
    ensures var b := ParallelBatch(context, calls, env, schedule);
            && complete == b.complete
            && finalized == b.finalized
            && sink.log == old(sink.log) + b.log
    ensures messages == ResultMessages(finalized)
  {
    var entries := Preflight(context, calls, env, sink);
    InitialAt(entries);
    var status := StartAll(entries);
    ghost var preflightLog := PreflightLog(context, calls, env, Reached(calls, env, 0));
    RunRace(context, entries, status, schedule, sink);
    ghost var raceLog := RaceLog(context.messages, entries, InitialStatuses(entries), schedule);
    Associate(old(sink.log), preflightLog, raceLog);
    complete := AllDone(status[..]);
    if complete {
      finalized := Collect(status);
      messages := EmitResults(finalized, sink);
      Associate(old(sink.log), preflightLog + raceLog, MessagesLog(messages));
    } else {
      finalized, messages := [], [];
    }
  }

  /** `executeToolCalls`: one sequential tool makes the whole batch sequential. */
  method ExecuteToolCalls(
      mode: ToolMode, context: Context, calls: seq<ToolCall>, env: seq<CallEnv>, schedule: seq<Action>, sink: Recorder)
    returns (complete: bool, messages: seq<Message>, terminate: bool)
    requires |calls| <= |env|
    modifies sink
    ensures var b := ExecuteBatch(mode, context, calls, env, schedule);
            && complete == b.complete
            && messages == ResultMessages(b.finalized)
            && terminate == ShouldTerminate(b.finalized)
            && sink.log == old(sink.log) + b.log
  {
    var finalized;
    if UsesSequential(mode, context.tools, calls) {
      finalized, messages := ExecuteToolCallsSequential(context, calls, env, sink);
      complete := true;
    } else {
      complete, finalized, messages := ExecuteToolCallsParallel(context, calls, env, schedule, sink);
    }
    terminate := ShouldTerminate(finalized);
  }
}
