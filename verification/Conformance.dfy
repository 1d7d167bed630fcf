/** Every run of the loop, on every script and under every scheduler, keeps the protocol. */
module Conformance {
  import opened Types
  import opened Tools
  import opened Parallel
  import opened Scheduling
  import opened Streaming
  import opened AgentLoop
  import opened Protocol

  // ----- Observing in pieces -----

  lemma {:induction false} ObserveConcat(rules: Rules, w: Watch, a: seq<Interaction>, b: seq<Interaction>)
    ensures Observe(rules, w, a + b) == Observe(rules, Observe(rules, w, a), b)
  {
    hide Step;
    if b == [] {
      assert a + b == a;
    } else {
      assert (a + b)[..|a + b| - 1] == a + b[..|b| - 1];
      ObserveConcat(rules, w, a, b[..|b| - 1]);
    }
  }

  lemma ObserveOne(rules: Rules, w: Watch, x: Interaction)
    ensures Observe(rules, w, [x]) == Step(rules, w, x)
  {
    hide Step;
    assert [x][..0] == [];
  }

  lemma ObserveTwo(rules: Rules, w: Watch, x: Interaction, y: Interaction)
    ensures Observe(rules, w, [x, y]) == Step(rules, Step(rules, w, x), y)
  {
    hide Step;
    assert [x, y] == [x] + [y];
    ObserveConcat(rules, w, [x], [y]);
    ObserveOne(rules, w, x);
    ObserveOne(rules, Step(rules, w, x), y);
  }

  lemma OneInjectionAccepted(rules: Rules, w: Watch, m: Message)
    requires Idle(w) && w.phase.Opening? && w.owed != [] && w.owed[0] == m
    ensures Observe(rules, w, MessageLog(m))
         == w.(messages := w.messages + [m], added := w.added + [m], owed := w.owed[1..])
  {
    ObserveTwo(rules, w, Emit(MessageStart(m)), Emit(MessageEnd(m)));
  }

  lemma {:induction false} InjectionAccepted(rules: Rules, w: Watch, ms: seq<Message>)
    requires Idle(w) && w.phase.Opening? && ms <= w.owed
    ensures Observe(rules, w, MessagesLog(ms))
         == w.(messages := w.messages + ms, added := w.added + ms, owed := w.owed[|ms|..])
  {
    hide Protocol.Step, MessageLog;
    if ms == [] {
      assert w.messages + ms == w.messages && w.added + ms == w.added && w.owed[|ms|..] == w.owed;
    } else {
      var front, m := ms[..|ms| - 1], ms[|ms| - 1];
      InjectionAccepted(rules, w, front);
      ObserveConcat(rules, w, MessagesLog(front), MessageLog(m));
      var w' := w.(messages := w.messages + front, added := w.added + front, owed := w.owed[|front|..]);
      OneInjectionAccepted(rules, w', m);
      assert w'.messages + [m] == w.messages + ms && w'.added + [m] == w.added + ms;
      assert w'.owed[1..] == w.owed[|ms|..];
    }
  }

  // ----- The assistant message -----

  ghost function AfterReply(w: Watch, final: AssistantMessage): Watch
    requires w.Watch?
  {
    var m := Assistant(final);
    w.(messages := w.messages + [m], added := w.added + [m], open := None, phase := Acting, reply := final,
       begun := 0, results := [])
  }

  lemma {:induction false} OpenStreamAccepted(
      rules: Rules, w: Watch, events: seq<StreamEvent>, final: AssistantMessage)
    requires w.Watch? && w.phase.Calling? && w.open.Some? && Starts(events) == 0
    ensures Observe(rules, w, StreamLog(events, final, true)) == AfterReply(w, final)
    decreases |events|
  {
    hide Observe, Protocol.Step;
    if events == [] || events[0].Finish? {
      MessageEndAccepted(rules, w, final);
      assert StreamLog(events, final, true) == [Emit(MessageEnd(Assistant(final)))];
    } else {
      var m := Assistant(events[0].partial);
      ObserveConcat(rules, w, [Emit(MessageUpdate(m))], StreamLog(events[1..], final, true));
      MessageUpdateAccepted(rules, w, m);
      OpenStreamAccepted(rules, w.(open := Some(m)), events[1..], final);
    }
  }

  lemma MessageEndAccepted(rules: Rules, w: Watch, final: AssistantMessage)
    requires w.Watch? && w.phase.Calling? && w.open.Some?
    ensures Observe(rules, w, [Emit(MessageEnd(Assistant(final)))]) == AfterReply(w, final)
  {
    ObserveOne(rules, w, Emit(MessageEnd(Assistant(final))));
  }

  lemma MessageUpdateAccepted(rules: Rules, w: Watch, m: Message)
    requires w.Watch? && w.phase.Calling? && w.open.Some? && m.Assistant?
    ensures Observe(rules, w, [Emit(MessageUpdate(m))]) == w.(open := Some(m))
  {
    ObserveOne(rules, w, Emit(MessageUpdate(m)));
  }

  lemma MessageStartAccepted(rules: Rules, w: Watch, m: Message)
    requires Idle(w) && w.phase.Calling? && m.Assistant?
    ensures Observe(rules, w, [Emit(MessageStart(m))]) == w.(open := Some(m))
  {
    ObserveOne(rules, w, Emit(MessageStart(m)));
  }

  lemma {:induction false} StreamAccepted(rules: Rules, w: Watch, events: seq<StreamEvent>, final: AssistantMessage)
    requires Idle(w) && w.phase.Calling? && LegalStream(events)
    ensures Observe(rules, w, StreamLog(events, final, false)) == AfterReply(w, final)
  {
    hide Observe, Protocol.Step;
    if events == [] || events[0].Finish? {
      var m := Assistant(final);
      MessageStartAccepted(rules, w, m);
      MessageEndAccepted(rules, w.(open := Some(m)), final);
      ObserveConcat(rules, w, [Emit(MessageStart(m))], [Emit(MessageEnd(m))]);
    } else if events[0].Start? {
      var m := Assistant(events[0].partial);
      MessageStartAccepted(rules, w, m);
      OpenStreamAccepted(rules, w.(open := Some(m)), events[1..], final);
      ObserveConcat(rules, w, [Emit(MessageStart(m))], StreamLog(events[1..], final, true));
    } else {
      StreamAccepted(rules, w, events[1..], final);
    }
  }

  // ----- The sequential executor -----

  function AnyContinues(fs: seq<Finalized>): bool {
    fs != [] && (AnyContinues(fs[..|fs| - 1]) || !Terminates(fs[|fs| - 1]))
  }

  lemma {:induction false} ContinuesUnlessTerminated(fs: seq<Finalized>)
    requires fs != []
    ensures AnyContinues(fs) == !ShouldTerminate(fs)
  {
    var n := |fs| - 1;
    if n > 0 {
      ContinuesUnlessTerminated(fs[..n]);
      assert forall k :: 0 <= k < n ==> fs[..n][k] == fs[k];
    }
  }

  lemma OutcomeCall(tools: seq<Tool>, call: ToolCall, env: CallEnv)
    ensures Outcome(tools, call, env).call == call
  {
  }

  /** Behind the assistant message, about to run its tool calls. */
  ghost predicate Acts(w: Watch, calls: seq<ToolCall>) {
    && Idle(w) && w.phase.Acting?
    && !Failed(w.reply) && ToolCalls(w.reply.content) == calls
    && w.begun == 0 && w.results == [] && !w.continuing
  }

  /** The observer when the calls with outcomes `fs` have been run and shown. */
  ghost function AfterCalls(w: Watch, fs: seq<Finalized>): Watch
    requires w.Watch?
  {
    var results := ResultMessages(fs);
    w.(begun := |fs|, results := results, messages := w.messages + results, added := w.added + results,
       continuing := AnyContinues(fs))
  }

  lemma {:induction false} UpdatesAccepted(rules: Rules, w: Watch, call: ToolCall, ticks: seq<Tick>)
    requires w.Watch? && w.phase.Acting? && w.open.None? && call.id in w.running
    ensures Observe(rules, w, AcceptedUpdates(call, ticks)) == w
  {
    if ticks != [] && ticks[0].Report? {
      var update := Emit(UpdateEvent(call, ticks[0].partial));
      ObserveConcat(rules, w, [update], AcceptedUpdates(call, ticks[1..]));
      ObserveOne(rules, w, update);
      UpdatesAccepted(rules, w, call, ticks[1..]);
    }
  }

  /** A result message is accepted behind its call. */
  lemma ResultAccepted(rules: Rules, w: Watch, calls: seq<ToolCall>, f: Finalized)
    requires Idle(w) && w.phase.Acting? && ToolCalls(w.reply.content) == calls
    requires |w.results| < w.begun <= |calls| && f.call == calls[|w.results|]
    ensures Observe(rules, w, MessageLog(ResultMessage(f)))
         == w.(messages := w.messages + [ResultMessage(f)], added := w.added + [ResultMessage(f)],
               results := w.results + [ResultMessage(f)])
  {
    ObserveTwo(rules, w, Emit(MessageStart(ResultMessage(f))), Emit(MessageEnd(ResultMessage(f))));
  }

  lemma SingleId(id: string)
    ensures multiset{} + multiset{id} == multiset{id} && multiset{id} - multiset{id} == multiset{}
  {
  }

  lemma ExecutionAccepted(rules: Rules, w: Watch, context: Context, call: ToolCall, env: CallEnv)
    requires w.Watch? && w.phase.Acting? && w.open.None? && w.waiting == multiset{call.id} && w.running == multiset{}
    requires MayHandOut(rules, w, context.messages)
    ensures var w' := Observe(rules, w, ExecutionLog(context, call, env));
            w' == w || w' == w.(waiting := multiset{}, running := multiset{call.id})
  {
    hide Prepare, Protocol.Step, Observe, AfterLog;
    SingleId(call.id);
    match Prepare(context.tools, call, env) {
      case Immediate(_, _) =>
        ObserveNone(rules, w);
      case Prepared(args) =>
        var w' := w.(waiting := multiset{}, running := multiset{call.id});
        var run, updates := [Execute(call.id, args)], AcceptedUpdates(call, env.ticks);
        ExecuteAccepted(rules, w, call.id, args);
        UpdatesAccepted(rules, w', call, env.ticks);
        AfterAccepted(rules, w', context.messages, call, env);
        ObserveConcat(rules, w, run, updates);
        ObserveConcat(rules, w, run + updates, AfterLog(context.messages, call, env));
    }
  }

  lemma BeforeAccepted(rules: Rules, w: Watch, context: Context, call: ToolCall, env: CallEnv)
    requires w.Watch? && w.phase.Acting? && w.open.None? && call.id in w.waiting
    requires MayHandOut(rules, w, context.messages)
    ensures Observe(rules, w, BeforeLog(context, call, env)) == w
  {
    hide FindTool;
    ObserveNone(rules, w);
    ObserveOne(rules, w, ConsultBefore(call.id, context.messages));
  }

  lemma AfterAccepted(rules: Rules, w: Watch, given: seq<Message>, call: ToolCall, env: CallEnv)
    requires w.Watch? && w.phase.Acting? && w.open.None? && call.id in w.running
    requires MayHandOut(rules, w, given)
    ensures Observe(rules, w, AfterLog(given, call, env)) == w
  {
    ObserveNone(rules, w);
    ObserveOne(rules, w, ConsultAfter(call.id, given));
  }

  lemma ObserveNone(rules: Rules, w: Watch)
    ensures Observe(rules, w, []) == w
  {
  }

  lemma ExecuteAccepted(rules: Rules, w: Watch, id: string, args: Json)
    requires w.Watch? && w.phase.Acting? && w.open.None? && id in w.waiting
    ensures Observe(rules, w, [Execute(id, args)])
         == w.(waiting := w.waiting - multiset{id}, running := w.running + multiset{id})
  {
    ObserveOne(rules, w, Execute(id, args));
  }

  lemma StartAccepted(rules: Rules, w: Watch, call: ToolCall)
    requires w.Watch? && w.phase.Acting? && w.open.None? && !Failed(w.reply)
    requires var calls := ToolCalls(w.reply.content); w.begun < |calls| && call == calls[w.begun]
    ensures Observe(rules, w, [Emit(StartEvent(call))])
         == w.(begun := w.begun + 1, waiting := w.waiting + multiset{call.id})
  {
    ObserveOne(rules, w, Emit(StartEvent(call)));
  }

  lemma EndAccepted(rules: Rules, w: Watch, f: Finalized)
    requires w.Watch? && w.phase.Acting? && w.open.None? && (f.call.id in w.waiting || f.call.id in w.running)
    ensures var id, continuing := f.call.id, w.continuing || !Terminates(f);
            (Observe(rules, w, [Emit(EndEvent(f))])
             == if id in w.waiting then w.(continuing := continuing, waiting := w.waiting - multiset{id})
                else w.(continuing := continuing, running := w.running - multiset{id}))
  {
    ObserveOne(rules, w, Emit(EndEvent(f)));
  }

  lemma SequentialCallAccepted(
      rules: Rules, w: Watch, fs: seq<Finalized>, context: Context, calls: seq<ToolCall>, env: CallEnv)
    requires Acts(w, calls) && |fs| < |calls| && MayHandOut(rules, w, context.messages)
    ensures Observe(rules, AfterCalls(w, fs), SequentialCallLog(context, calls[|fs|], env))
         == AfterCalls(w, fs + [Outcome(context.tools, calls[|fs|], env)])
  {
    hide Outcome, BeforeLog, ExecutionLog, MessageLog, ResultMessage, Observe, Protocol.Step, StartEvent, EndEvent,
         ToolCalls, Terminates;
    var call := calls[|fs|];
    var f := Outcome(context.tools, call, env);
    OutcomeCall(context.tools, call, env);
    SingleId(call.id);
    var w1 := AfterCalls(w, fs);
    var w2 := w1.(begun := |fs| + 1, waiting := multiset{call.id});
    var w3 := w1.(begun := |fs| + 1, continuing := w1.continuing || !Terminates(f));
    var start, before := [Emit(StartEvent(call))], BeforeLog(context, call, env);
    var run, end := ExecutionLog(context, call, env), [Emit(EndEvent(f))];
    assert w.messages + [] == w.messages && context.messages + [] == context.messages;
    StartAccepted(rules, w1, call);
    BeforeAccepted(rules, w2, context, call, env);
    ExecutionAccepted(rules, w2, context, call, env);
    EndAccepted(rules, Observe(rules, w2, run), f);
    ObserveConcat(rules, w1, start, before);
    ObserveConcat(rules, w1, start + before, run);
    ObserveConcat(rules, w1, start + before + run, end);
    ObserveConcat(rules, w1, start + before + run + end, MessageLog(ResultMessage(f)));
    assert Observe(rules, w1, start + before + run + end) == w3;
    ResultAccepted(rules, w3, calls, f);
    assert (fs + [f])[..|fs|] == fs;
    Associate(w.messages, ResultMessages(fs), [ResultMessage(f)]);
    Associate(w.added, ResultMessages(fs), [ResultMessage(f)]);
  }

  lemma {:induction false} SequentialAccepted(
      rules: Rules, w: Watch, context: Context, calls: seq<ToolCall>, env: seq<CallEnv>, n: nat)
    requires Acts(w, calls) && n <= |calls| <= |env| && MayHandOut(rules, w, context.messages)
    ensures Observe(rules, w, SequentialLog(context, calls, env, n))
         == AfterCalls(w, Outcomes(context.tools, calls, env, n))
  {
    hide Outcome, SequentialCallLog, Protocol.Step;
    if n == 0 {
      NoCallsYet(w);
    } else {
      hide Observe;
      var fs := Outcomes(context.tools, calls, env, n - 1);
      SequentialAccepted(rules, w, context, calls, env, n - 1);
      SequentialCallAccepted(rules, w, fs, context, calls, env[n - 1]);
      ObserveConcat(
        rules, w, SequentialLog(context, calls, env, n - 1), SequentialCallLog(context, calls[n - 1], env[n - 1]));
    }
  }

  lemma NoCallsYet(w: Watch)
    requires w.Watch? && w.begun == 0 && w.results == [] && !w.continuing
    ensures AfterCalls(w, []) == w
  {
    assert w.messages + [] == w.messages && w.added + [] == w.added;
  }

  // ----- The concurrent executor -----

  function OneIf(yes: bool, id: string): multiset<string> {
    if yes then multiset{id} else multiset{}
  }

  function WaitingIds(entries: seq<Entry>, st: seq<Status>): multiset<string>
    requires |entries| == |st|
  {
    if st == [] then multiset{}
    else
      var n := |st| - 1;
      WaitingIds(entries[..n], st[..n]) + OneIf(st[n].Waiting?, EntryCall(entries[n]).id)
  }

  predicate InExecution(s: Status) {
    s.Running? || s.Settled? || s.InReview?
  }

  function RunningIds(entries: seq<Entry>, st: seq<Status>): multiset<string>
    requires |entries| == |st|
  {
    if st == [] then multiset{}
    else
      var n := |st| - 1;
      RunningIds(entries[..n], st[..n]) + OneIf(InExecution(st[n]), EntryCall(entries[n]).id)
  }

  /** Whether some call that is done asks the loop to go on. */
  function DoneContinues(st: seq<Status>): bool {
    st != [] && (DoneContinues(st[..|st| - 1]) || (st[|st| - 1].Done? && !Terminates(st[|st| - 1].finalized)))
  }

  lemma {:induction false} IdsAfterUpdate(entries: seq<Entry>, st: seq<Status>, i: nat, s: Status)
    requires |entries| == |st| && i < |st|
    ensures var id := EntryCall(entries[i]).id;
            && WaitingIds(entries, st[i := s]) + OneIf(st[i].Waiting?, id)
            == WaitingIds(entries, st) + OneIf(s.Waiting?, id)
            && RunningIds(entries, st[i := s]) + OneIf(InExecution(st[i]), id)
            == RunningIds(entries, st) + OneIf(InExecution(s), id)
  {
    hide EntryCall, OneIf, InExecution;
    var n := |st| - 1;
    if i == n {
      assert st[i := s][..n] == st[..n];
      Swap(WaitingIds(entries[..n], st[..n]), OneIf(s.Waiting?, EntryCall(entries[i]).id),
           OneIf(st[i].Waiting?, EntryCall(entries[i]).id));
      Swap(RunningIds(entries[..n], st[..n]), OneIf(InExecution(s), EntryCall(entries[i]).id),
           OneIf(InExecution(st[i]), EntryCall(entries[i]).id));
    } else {
      IdsAfterUpdate(entries[..n], st[..n], i, s);
      assert st[i := s][..n] == st[..n][i := s];
      assert entries[..n][i] == entries[i] && st[..n][i] == st[i];
      var id, last := EntryCall(entries[i]).id, EntryCall(entries[n]).id;
      Carry(WaitingIds(entries[..n], st[..n][i := s]), OneIf(st[i].Waiting?, id),
            WaitingIds(entries[..n], st[..n]), OneIf(s.Waiting?, id), OneIf(st[n].Waiting?, last));
      Carry(RunningIds(entries[..n], st[..n][i := s]), OneIf(InExecution(st[i]), id),
            RunningIds(entries[..n], st[..n]), OneIf(InExecution(s), id), OneIf(InExecution(st[n]), last));
    }
  }

  lemma Swap<T>(a: multiset<T>, b: multiset<T>, c: multiset<T>)
    ensures a + b + c == a + c + b
  {
  }

  lemma Carry<T>(a: multiset<T>, b: multiset<T>, c: multiset<T>, d: multiset<T>, e: multiset<T>)
    requires a + b == c + d
    ensures (a + e) + b == (c + e) + d
  {
    Swap(a, e, b);
    Swap(c, e, d);
  }

  lemma {:induction false} NobodyWaits(entries: seq<Entry>, st: seq<Status>)
    requires |entries| == |st| && AllLaunched(st)
    ensures WaitingIds(entries, st) == multiset{}
  {
    if st != [] {
      NobodyWaits(entries[..|st| - 1], st[..|st| - 1]);
    }
  }

  lemma {:induction false} NobodyRuns(entries: seq<Entry>, st: seq<Status>)
    requires |entries| == |st| && AllDone(st)
    ensures RunningIds(entries, st) == multiset{}
  {
    if st != [] {
      NobodyRuns(entries[..|st| - 1], st[..|st| - 1]);
    }
  }

  lemma {:induction false} IdIsCounted(entries: seq<Entry>, st: seq<Status>, i: nat)
    requires |entries| == |st| && i < |st|
    ensures st[i].Waiting? ==> EntryCall(entries[i]).id in WaitingIds(entries, st)
    ensures InExecution(st[i]) ==> EntryCall(entries[i]).id in RunningIds(entries, st)
  {
    var n := |st| - 1;
    if i < n {
      IdIsCounted(entries[..n], st[..n], i);
    }
  }

  lemma {:induction false} DoneContinuesAfterUpdate(st: seq<Status>, i: nat, s: Status)
    requires i < |st| && !st[i].Done?
    ensures DoneContinues(st[i := s]) == (DoneContinues(st) || (s.Done? && !Terminates(s.finalized)))
  {
    var n := |st| - 1;
    if i == n {
      assert st[i := s][..n] == st[..n];
    } else {
      DoneContinuesAfterUpdate(st[..n], i, s);
      assert st[i := s][..n] == st[..n][i := s];
    }
  }

  /** The observer during the race. */
  ghost function InRace(w: Watch, entries: seq<Entry>, st: seq<Status>): Watch
    requires w.Watch? && |entries| == |st|
  {
    w.(begun := |entries|, waiting := WaitingIds(entries, st), running := RunningIds(entries, st),
       continuing := DoneContinues(st))
  }

  lemma OnePreflightAccepted(rules: Rules, w: Watch, context: Context, call: ToolCall, env: CallEnv)
    requires w.Watch? && w.phase.Acting? && w.open.None? && !Failed(w.reply) && MayHandOut(rules, w, context.messages)
    requires var calls := ToolCalls(w.reply.content); w.begun < |calls| && call == calls[w.begun]
    ensures var e := EntryOf(context.tools, call, env);
            (Observe(rules, w, PreflightCallLog(context, call, env))
             == w.(begun := w.begun + 1, waiting := w.waiting + OneIf(e.Task?, call.id),
                   continuing := w.continuing || (e.Ready? && !Terminates(e.finalized))))
  {
    hide Observe, Protocol.Step, ToolCalls, Terminates, StartEvent, EndEvent, BeforeLog, Prepare;
    var e := EntryOf(context.tools, call, env);
    var w' := w.(begun := w.begun + 1, waiting := w.waiting + multiset{call.id});
    var start, before := [Emit(StartEvent(call))], BeforeLog(context, call, env);
    StartAccepted(rules, w, call);
    BeforeAccepted(rules, w', context, call, env);
    ObserveConcat(rules, w, start, before);
    if e.Ready? {
      EndAccepted(rules, w', e.finalized);
      ObserveConcat(rules, w, start + before, [Emit(EndEvent(e.finalized))]);
      assert w'.waiting - multiset{call.id} == w.waiting + multiset{};
    } else {
      assert PreflightCallLog(context, call, env) == start + before;
    }
  }

  lemma OneMoreInRace(w: Watch, front: seq<Entry>, e: Entry)
    requires w.Watch? && w.open.None?
    ensures |InitialStatuses(front)| == |front| && |InitialStatuses(front + [e])| == |front + [e]|
    ensures var before := InRace(w, front, InitialStatuses(front));
            (InRace(w, front + [e], InitialStatuses(front + [e]))
             == before.(begun := before.begun + 1,
                        waiting := before.waiting + OneIf(e.Task?, EntryCall(e).id),
                        continuing := before.continuing || (e.Ready? && !Terminates(e.finalized))))
  {
    hide EntryCall, Terminates;
    InitialAt(front);
    InitialAt(front + [e]);
    assert (front + [e])[..|front|] == front;
    var st := InitialStatuses(front + [e]);
    assert st[..|front|] == InitialStatuses(front);
    assert RunningIds(front, InitialStatuses(front)) + multiset{} == RunningIds(front, InitialStatuses(front));
  }

  lemma {:induction false} PreflightAccepted(
      rules: Rules, w: Watch, context: Context, calls: seq<ToolCall>, env: seq<CallEnv>, n: nat)
    requires Acts(w, calls) && n <= |calls| <= |env| && MayHandOut(rules, w, context.messages)
    ensures var entries := Entries(context.tools, calls, env, n);
            && |InitialStatuses(entries)| == |entries| == n
            && Observe(rules, w, PreflightLog(context, calls, env, n)) == InRace(w, entries, InitialStatuses(entries))
  {
    hide PreflightCallLog, Terminates, ToolCalls, Observe, InitialStatuses, Protocol.Step, EntryOf;
    var entries := Entries(context.tools, calls, env, n);
    InitialAt(entries);
    EntryAt(context.tools, calls, env, n);
    if n == 0 {
      ObserveNone(rules, w);
    } else {
      hide WaitingIds, RunningIds, DoneContinues;
      var front := Entries(context.tools, calls, env, n - 1);
      var call, callEnv := calls[n - 1], env[n - 1];
      PreflightAccepted(rules, w, context, calls, env, n - 1);
      OnePreflightAccepted(rules, InRace(w, front, InitialStatuses(front)), context, call, callEnv);
      ObserveConcat(
        rules, w, PreflightLog(context, calls, env, n - 1), PreflightCallLog(context, call, callEnv));
      EntryIsOf(context.tools, call, callEnv);
      OneMoreInRace(w, front, EntryOf(context.tools, call, callEnv));
    }
  }

  /** No promise settles before every task has been started. */
  ghost predicate InStep(st: seq<Status>, entries: seq<Entry>) {
    && Coherent(entries, st)
    && forall k :: 0 <= k < |st| ==> st[k].Settled? || st[k].InReview? ==> AllLaunched(st)
  }

  lemma StaysInStep(entries: seq<Entry>, st: seq<Status>, a: Action)
    requires InStep(st, entries) && Enabled(entries, st, a)
    ensures InStep(After(entries, st, a), entries)
  {
    hide EntryOutcome;
  }

  lemma LaunchAccepted(rules: Rules, w: Watch, entries: seq<Entry>, st: seq<Status>, i: nat)
    requires Idle(w) && w.phase.Acting?
    requires |entries| == |st| && i < |st| && entries[i].Task? && st[i].Waiting?
    ensures Observe(rules, InRace(w, entries, st), [Execute(entries[i].call.id, entries[i].args)])
         == InRace(w, entries, st[i := Running(entries[i].env.ticks)])
  {
    hide Observe, WaitingIds, RunningIds, DoneContinues;
    var id := entries[i].call.id;
    IdIsCounted(entries, st, i);
    var s := Running(entries[i].env.ticks);
    IdsAfterUpdate(entries, st, i, s);
    DoneContinuesAfterUpdate(st, i, s);
    Moved(WaitingIds(entries, st[i := s]), WaitingIds(entries, st), id);
    assert RunningIds(entries, st[i := s]) == RunningIds(entries, st[i := s]) + multiset{};
    ExecuteAccepted(rules, InRace(w, entries, st), id, entries[i].args);
  }

  /** Reporting, settling and going into review leave a call in execution. */
  lemma StillInExecution(w: Watch, entries: seq<Entry>, st: seq<Status>, i: nat, s: Status)
    requires w.Watch?
    requires |entries| == |st| && i < |st| && entries[i].Task? && InExecution(st[i]) && InExecution(s)
    ensures InRace(w, entries, st[i := s]) == InRace(w, entries, st)
  {
    hide WaitingIds, RunningIds, DoneContinues;
    var id := entries[i].call.id;
    IdsAfterUpdate(entries, st, i, s);
    DoneContinuesAfterUpdate(st, i, s);
    Cancel(RunningIds(entries, st[i := s]), RunningIds(entries, st), multiset{id});
    Cancel(WaitingIds(entries, st[i := s]), WaitingIds(entries, st), multiset{});
  }

  lemma CompletionAccepted(
      rules: Rules, w: Watch, entries: seq<Entry>, st: seq<Status>, i: nat, f: Finalized)
    requires Idle(w) && w.phase.Acting?
    requires |entries| == |st| && i < |st| && entries[i].Task? && st[i].InReview? && AllLaunched(st)
    requires f.call == entries[i].call
    ensures Observe(rules, InRace(w, entries, st), [Emit(EndEvent(f))]) == InRace(w, entries, st[i := Done(f)])
  {
    hide Observe, WaitingIds, RunningIds, DoneContinues, EndEvent, Terminates;
    var id := entries[i].call.id;
    IdIsCounted(entries, st, i);
    IdsAfterUpdate(entries, st, i, Done(f));
    DoneContinuesAfterUpdate(st, i, Done(f));
    NobodyWaits(entries, st);
    NobodyWaits(entries, st[i := Done(f)]);
    Moved(RunningIds(entries, st[i := Done(f)]), RunningIds(entries, st), id);
    EndAccepted(rules, InRace(w, entries, st), f);
  }

  lemma ActionAccepted(
      rules: Rules, w: Watch, given: seq<Message>, entries: seq<Entry>, st: seq<Status>, a: Action)
    requires Idle(w) && w.phase.Acting? && MayHandOut(rules, w, given)
    requires InStep(st, entries) && Enabled(entries, st, a)
    ensures Observe(rules, InRace(w, entries, st), ActionLog(given, entries, st, a))
         == InRace(w, entries, After(entries, st, a))
  {
    hide Observe, Protocol.Step, EntryOutcome, EndEvent, UpdateEvent, Coherent, WaitingIds, RunningIds, DoneContinues,
         AfterLog;
    var w' := InRace(w, entries, st);
    ObserveNone(rules, w');
    match a {
      case Launch(i) => LaunchAccepted(rules, w, entries, st, i);
      case Progress(i) =>
        if st[i].Running? {
          var partial := st[i].ticks[0].partial;
          IdIsCounted(entries, st, i);
          ObserveOne(rules, w', Emit(UpdateEvent(entries[i].call, partial)));
          UpdateAccepted(rules, w', entries[i].call, partial);
          StillInExecution(w, entries, st, i, Running(st[i].ticks[1..]));
        }
      case Resolve(i) =>
        StillInExecution(w, entries, st, i, Settled);
      case Review(i) =>
        IdIsCounted(entries, st, i);
        AfterAccepted(rules, w', given, entries[i].call, entries[i].env);
        StillInExecution(w, entries, st, i, InReview);
      case Complete(i) =>
        FinalizeCall(entries[i]);
        CompletionAccepted(rules, w, entries, st, i, EntryOutcome(entries[i]));
    }
  }

  lemma FinalizeCall(e: Entry)
    ensures EntryOutcome(e).call == EntryCall(e)
  {
  }

  lemma UpdateAccepted(rules: Rules, w: Watch, call: ToolCall, partial: ToolOutput)
    requires w.Watch? && w.phase.Acting? && w.open.None? && call.id in w.running
    ensures Protocol.Step(rules, w, Emit(UpdateEvent(call, partial))) == w
  {
  }

  /** Taking one id away from a multiset. */
  lemma Moved(less: multiset<string>, more: multiset<string>, id: string)
    requires less + multiset{id} == more + multiset{}
    ensures more - multiset{id} == less && id in more
  {
    assert (less + multiset{id})[id] == (more + multiset{})[id];
    forall x ensures (more - multiset{id})[x] == less[x] {
      assert (less + multiset{id})[x] == (more + multiset{})[x];
    }
  }

  lemma {:induction false} RaceAccepted(
      rules: Rules, w: Watch, given: seq<Message>, entries: seq<Entry>, st: seq<Status>, schedule: seq<Action>)
    requires Idle(w) && w.phase.Acting? && InStep(st, entries) && MayHandOut(rules, w, given)
    ensures |Race(entries, st, schedule)| == |entries|
    ensures Observe(rules, InRace(w, entries, st), RaceLog(given, entries, st, schedule))
         == InRace(w, entries, Race(entries, st, schedule))
    decreases |schedule|
  {
    hide Observe, Protocol.Step, InRace, ActionLog, Enabled, After;
    if schedule == [] || !Enabled(entries, st, schedule[0]) {
      ObserveNone(rules, InRace(w, entries, st));
    } else {
      var a := schedule[0];
      StaysInStep(entries, st, a);
      ActionAccepted(rules, w, given, entries, st, a);
      RaceAccepted(rules, w, given, entries, After(entries, st, a), schedule[1..]);
      ObserveConcat(rules, InRace(w, entries, st), ActionLog(given, entries, st, a),
                    RaceLog(given, entries, After(entries, st, a), schedule[1..]));
    }
  }

  lemma {:induction false} DoneContinuesAtEnd(st: seq<Status>)
    requires AllDone(st)
    ensures |OutcomesOf(st)| == |st| && DoneContinues(st) == AnyContinues(OutcomesOf(st))
  {
    if st != [] {
      DoneContinuesAtEnd(st[..|st| - 1]);
    }
  }

  lemma {:induction false} ResultsAccepted(rules: Rules, w: Watch, calls: seq<ToolCall>, fs: seq<Finalized>)
    requires Idle(w) && w.phase.Acting? && ToolCalls(w.reply.content) == calls && w.results == []
    requires |fs| <= w.begun <= |calls| && forall k :: 0 <= k < |fs| ==> fs[k].call == calls[k]
    ensures var results := ResultMessages(fs);
            (Observe(rules, w, MessagesLog(results))
             == w.(results := results, messages := w.messages + results, added := w.added + results))
  {
    hide MessageLog, ResultMessage, Protocol.Step, ToolCalls;
    if fs == [] {
      assert w.messages + [] == w.messages && w.added + [] == w.added;
    } else {
      hide Observe;
      var front, f := fs[..|fs| - 1], fs[|fs| - 1];
      var rs := ResultMessages(front);
      ResultsAccepted(rules, w, calls, front);
      ResultAccepted(rules, w.(results := rs, messages := w.messages + rs, added := w.added + rs), calls, f);
      assert (rs + [ResultMessage(f)])[..|rs|] == rs;
      ObserveConcat(rules, w, MessagesLog(rs), MessageLog(ResultMessage(f)));
      Associate(w.messages, rs, [ResultMessage(f)]);
      Associate(w.added, rs, [ResultMessage(f)]);
    }
  }
}
