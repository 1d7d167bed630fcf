/** What follows for whoever watches a run from its keeping the protocol. */
module Guarantees {
  import opened Types
  import opened AgentState
  import opened Protocol

  lemma {:induction false} PrefixAccepted(rules: Rules, w: Watch, log: seq<Interaction>, k: nat)
    requires Accepts(rules, w, log) && k <= |log|
    ensures Accepts(rules, w, log[..k])
    ensures k < |log| ==> Protocol.Step(rules, Observe(rules, w, log[..k]), log[k]).Watch?
    decreases |log|
  {
    hide Protocol.Step;
    if k < |log| {
      var n := |log| - 1;
      BrokenStaysBroken(rules, Observe(rules, w, log[..n]), log[n]);
      if k < n {
        PrefixAccepted(rules, w, log[..n], k);
        assert log[..n][..k] == log[..k];
      }
    } else {
      assert log[..k] == log;
    }
  }

  lemma BrokenStaysBroken(rules: Rules, w: Watch, x: Interaction)
    ensures w.Broken? ==> Protocol.Step(rules, w, x).Broken?
  {
  }

  // ----- The observer itself -----

  function Ids(calls: seq<ToolCall>): (ids: seq<string>)
    ensures |ids| == |calls|
  {
    if calls == [] then [] else Ids(calls[..|calls| - 1]) + [calls[|calls| - 1].id]
  }

  lemma {:induction false} IdAt(calls: seq<ToolCall>, k: nat)
    requires k < |calls|
    ensures Ids(calls)[k] == calls[k].id
  {
    if k < |calls| - 1 {
      IdAt(calls[..|calls| - 1], k);
    }
  }

  /** Tools are under way only while the loop acts; messages are open only within a turn, and are of the kind
      the turn is waiting for. */
  ghost predicate Sane(w: Watch) {
    && w.Watch?
    && (!w.phase.Acting? ==> w.waiting == multiset{} && w.running == multiset{})
    && (w.phase.Fresh? || w.phase.Started? || w.phase.Between? || w.phase.Closing? || w.phase.Over? ==> w.open.None?)
    && (w.phase.Calling? || w.phase.Acting? ==> w.owed == [])
    && (w.open.Some? ==>
          && w.waiting == multiset{} && w.running == multiset{}
          && (w.phase.Opening? ==> w.owed != [] && w.open.value == w.owed[0])
          && (w.phase.Calling? ==> w.open.value.Assistant?)
          && (w.phase.Acting? ==> w.open.value.ToolResult?))
  }

  predicate IsToolStep(x: Interaction) {
    || x.ConsultBefore? || x.Execute? || x.ConsultAfter?
    || (x.Emit? && (x.event.ToolStart? || x.event.ToolUpdate? || x.event.ToolEnd?))
  }

  predicate IsMessageStep(x: Interaction) {
    x.Emit? && (x.event.MessageStart? || x.event.MessageUpdate? || x.event.MessageEnd?)
  }

  /** Tool steps leave everything but the tools alone. */
  lemma ToolStep(rules: Rules, w: Watch, x: Interaction)
    requires w.Watch? && IsToolStep(x)
    ensures var w' := Protocol.Step(rules, w, x);
            w'.Watch? ==>
              && w.phase.Acting? && w.open.None?
              && w' == w.(begun := w'.begun, waiting := w'.waiting, running := w'.running, continuing := w'.continuing)
  {
    hide ToolCalls;
  }

  /** Steps that are neither about tools nor about messages move the phase along and settle what is owed. */
  lemma FrameStep(rules: Rules, w: Watch, x: Interaction)
    requires w.Watch? && !IsToolStep(x) && !IsMessageStep(x) && Protocol.Step(rules, w, x).Watch?
    ensures var w' := Protocol.Step(rules, w, x);
            && w' == w.(phase := w'.phase, owed := w'.owed, continuing := w'.continuing)
            && match x
               case Emit(AgentStart) =>
                 w.phase.Fresh? && w'.phase.Started? && w'.owed == w.owed && w'.continuing == w.continuing
               case Emit(TurnStart) =>
                 && (w.phase.Started? || (w.phase.Between? && (w.continuing || w.owed != [])))
                 && w'.phase.Opening? && w'.owed == w.owed && !w'.continuing
               case Emit(TurnEnd(m, results)) =>
                 && w.phase.Acting? && m == Assistant(w.reply) && results == w.results
                 && w'.phase == (if Failed(w.reply) then Closing else Between)
                 && w'.owed == w.owed && w'.continuing == w.continuing
               case Emit(AgentEnd(ms)) =>
                 && (w.phase.Between? || w.phase.Closing?) && w'.phase.Over?
                 && w.owed == [] && w'.owed == [] && ms == w.added && w'.continuing == w.continuing
               case LlmCall(_) =>
                 w.phase.Opening? && w'.phase.Calling? && w.owed == [] && w'.owed == [] && w'.continuing == w.continuing
               case Consult(_, _, _, newMessages) => w.phase.Between? && w' == w && newMessages == w.added
               case PollSteering(ms) =>
                 && (w.phase.Between? || w.phase.Opening?) && w'.phase == w.phase
                 && w.owed == [] && w'.owed == ms && w'.continuing == w.continuing
               case PollFollowUp(ms) =>
                 && w.phase.Between? && w'.phase.Between?
                 && w.owed == [] && w'.owed == ms && w'.continuing == w.continuing
               case _ => true
  {
    hide TurnComplete, ToolCalls, Idle;
  }

  /** Steps of a message: shown in the open slot, then noted as injected, as the reply, or as a result. */
  lemma MessageStep(rules: Rules, w: Watch, x: Interaction)
    requires w.Watch? && IsMessageStep(x) && Protocol.Step(rules, w, x).Watch?
    ensures var w' := Protocol.Step(rules, w, x);
            match x
            case Emit(MessageEnd(m)) =>
              && w'.added == w.added + [m]
              && w'.continuing == w.continuing
              && (match w.phase
                  case Opening => w.open == Some(m) && w'.phase.Opening? && w.owed != [] && w'.owed == w.owed[1..]
                  case Calling =>
                    w'.phase.Acting? && m == Assistant(w'.reply) && w'.results == [] && w'.owed == w.owed
                  case Acting =>
                    && w.open == Some(m) && w'.phase.Acting? && w'.reply == w.reply && w'.owed == w.owed
                    && w'.results == w.results + [m]
                  case _ => false)
            case _ => InTurn(w) && w' == w.(open := w'.open)
  {
    hide ToolCalls, Idle;
  }

  predicate InTurn(w: Watch) {
    w.Watch? && (w.phase.Opening? || w.phase.Calling? || w.phase.Acting?)
  }

  lemma SaneStep(rules: Rules, w: Watch, x: Interaction)
    requires Sane(w) && Protocol.Step(rules, w, x).Watch?
    ensures Sane(Protocol.Step(rules, w, x))
  {
    hide TurnComplete, ToolCalls;
    if IsToolStep(x) {
      hide StepEvent;
      ToolStep(rules, w, x);
    }
  }

  lemma {:induction false} AlwaysSane(rules: Rules, w: Watch, log: seq<Interaction>)
    requires Sane(w) && Accepts(rules, w, log)
    ensures Sane(Observe(rules, w, log))
  {
    hide Protocol.Step, Sane;
    if log != [] {
      PrefixAccepted(rules, w, log, |log| - 1);
      AlwaysSane(rules, w, log[..|log| - 1]);
      SaneStep(rules, Observe(rules, w, log[..|log| - 1]), log[|log| - 1]);
    }
  }

  // ----- The mirror -----

  /** The agent's transcript and streaming slot, rebuilt from events, are the observer's. */
  ghost predicate Mirrors(w: Watch, s: State) {
    w.Watch? && s.messages == w.messages && s.streamingMessage == w.open
  }

  lemma MirrorStep(rules: Rules, w: Watch, s: State, x: Interaction)
    requires Sane(w) && Mirrors(w, s) && Protocol.Step(rules, w, x).Watch?
    ensures Mirrors(Protocol.Step(rules, w, x), if x.Emit? then Reduce(s, x.event) else s)
  {
    if IsToolStep(x) {
      ToolMirrorStep(rules, w, s, x);
    } else if IsMessageStep(x) {
      MessageMirrorStep(rules, w, s, x);
    } else {
      hide TurnComplete, ToolCalls;
    }
  }

  lemma ToolMirrorStep(rules: Rules, w: Watch, s: State, x: Interaction)
    requires Mirrors(w, s) && Protocol.Step(rules, w, x).Watch? && IsToolStep(x)
    ensures Mirrors(Protocol.Step(rules, w, x), if x.Emit? then Reduce(s, x.event) else s)
  {
    hide StepEvent;
    ToolStep(rules, w, x);
  }

  lemma MessageMirrorStep(rules: Rules, w: Watch, s: State, x: Interaction)
    requires Mirrors(w, s) && Protocol.Step(rules, w, x).Watch? && IsMessageStep(x)
    ensures Mirrors(Protocol.Step(rules, w, x), Reduce(s, x.event))
  {
    hide MayStart, Idle;
  }

  lemma {:induction false} AlwaysMirrors(rules: Rules, w: Watch, s: State, log: seq<Interaction>)
    requires Sane(w) && Mirrors(w, s) && Accepts(rules, w, log)
    ensures Mirrors(Observe(rules, w, log), ReduceAll(s, Events(log)))
  {
    hide Protocol.Step, Sane, Reduce, Mirrors;
    if log != [] {
      var front, x := log[..|log| - 1], log[|log| - 1];
      PrefixAccepted(rules, w, log, |log| - 1);
      AlwaysSane(rules, w, front);
      AlwaysMirrors(rules, w, s, front);
      MirrorStep(rules, Observe(rules, w, front), ReduceAll(s, Events(front)), x);
      if x.Emit? {
        assert (Events(front) + [x.event])[..|Events(front)|] == Events(front);
      } else {
        assert Events(front) + [] == Events(front);
      }
    }
  }

  // ----- The hooks around a call -----

  /** The result messages completed since the provider was last called. */
  function ResultsShown(log: seq<Interaction>): seq<Message> {
    if log == [] then []
    else
      match log[|log| - 1]
      case LlmCall(_) => []
      case Emit(MessageEnd(m)) => ResultsShown(log[..|log| - 1]) + if m.ToolResult? then [m] else []
      case _ => ResultsShown(log[..|log| - 1])
  }

  ghost predicate ResultsKept(w: Watch, shown: seq<Message>) {
    w.Watch? && (w.phase.Calling? ==> shown == []) && (w.phase.Acting? ==> shown == w.results)
  }

  lemma ResultsKeptStep(rules: Rules, w: Watch, log: seq<Interaction>, x: Interaction)
    requires Sane(w) && ResultsKept(w, ResultsShown(log)) && Protocol.Step(rules, w, x).Watch?
    ensures ResultsKept(Protocol.Step(rules, w, x), ResultsShown(log + [x]))
  {
    hide Protocol.Step;
    assert (log + [x])[..|log|] == log;
    if IsToolStep(x) {
      ToolStep(rules, w, x);
    } else if IsMessageStep(x) {
      MessageStep(rules, w, x);
      assert ResultsShown(log) + [] == ResultsShown(log);
    } else {
      FrameStep(rules, w, x);
    }
  }

  lemma {:induction false} ResultsAlwaysKept(rules: Rules, w: Watch, log: seq<Interaction>)
    requires Sane(w) && w.phase.Fresh? && Accepts(rules, w, log)
    ensures ResultsKept(Observe(rules, w, log), ResultsShown(log))
  {
    hide Protocol.Step, Sane, ResultsKept;
    if log == [] {
      assert ResultsKept(w, []) by { KeptAtFirst(w); }
    } else {
      var front, x := log[..|log| - 1], log[|log| - 1];
      PrefixAccepted(rules, w, log, |log| - 1);
      AlwaysSane(rules, w, front);
      ResultsAlwaysKept(rules, w, front);
      ResultsKeptStep(rules, Observe(rules, w, front), front, x);
      assert front + [x] == log;
    }
  }

  lemma KeptAtFirst(w: Watch)
    requires w.Watch? && w.phase.Fresh?
    ensures ResultsKept(w, [])
  {
  }

  /** What a hook around a call is handed, and the results of the turn shown so far, make up the transcript. */
  lemma HooksLagByResults(rules: Rules, w: Watch, log: seq<Interaction>, k: nat)
    requires rules.mirrored && Sane(w) && w.phase.Fresh? && Accepts(rules, w, log)
    requires k < |log| && (log[k].ConsultBefore? || log[k].ConsultAfter?)
    ensures var seen := Observe(rules, w, log[..k]);
            seen.Watch? && seen.messages == log[k].context + ResultsShown(log[..k])
  {
    hide Protocol.Step, Sane, ResultsShown;
    PrefixAccepted(rules, w, log, k);
    AlwaysSane(rules, w, log[..k]);
    ResultsAlwaysKept(rules, w, log[..k]);
    ToolStep(rules, Observe(rules, w, log[..k]), log[k]);
    ToolStepIds(rules, Observe(rules, w, log[..k]), log[k]);
  }

  // ----- The tools -----

  /** The ids of the calls announced, executed and ended in the turn so far, with multiplicity. */
  datatype Tally = Tally(begun: multiset<string>, executed: multiset<string>, ended: multiset<string>)

  const NO_CALLS: Tally := Tally(multiset{}, multiset{}, multiset{})

  function TallyAfter(t: Tally, x: Interaction): Tally {
    match x
    case Emit(TurnStart) => NO_CALLS
    case Emit(ToolStart(id, _, _)) => t.(begun := t.begun + multiset{id})
    case Execute(id, _) => t.(executed := t.executed + multiset{id})
    case Emit(ToolEnd(id, _, _, _)) => t.(ended := t.ended + multiset{id})
    case _ => t
  }

  function TurnTally(log: seq<Interaction>): Tally {
    if log == [] then NO_CALLS else TallyAfter(TurnTally(log[..|log| - 1]), log[|log| - 1])
  }

  /** The calls announced and not yet executed, and those in execution. */
  datatype Calls = Calls(waiting: multiset<string>, running: multiset<string>)

  const NONE_UNDER_WAY: Calls := Calls(multiset{}, multiset{})

  function CallsAfter(u: Calls, x: Interaction): Calls {
    match x
    case Emit(ToolStart(id, _, _)) => u.(waiting := u.waiting + multiset{id})
    case Execute(id, _) => Calls(u.waiting - multiset{id}, u.running + multiset{id})
    case Emit(ToolEnd(id, _, _, _)) =>
      if id in u.waiting then u.(waiting := u.waiting - multiset{id}) else u.(running := u.running - multiset{id})
    case _ => u
  }

  function UnderWay(log: seq<Interaction>): Calls {
    if log == [] then NONE_UNDER_WAY else CallsAfter(UnderWay(log[..|log| - 1]), log[|log| - 1])
  }

  /** The books of a turn. */
  ghost predicate Balances(t: Tally, u: Calls) {
    && t.begun == t.ended + u.waiting + u.running
    && t.executed + u.waiting <= t.begun
    && u.running <= t.executed <= u.running + t.ended
  }

  ghost predicate Counted(w: Watch, t: Tally, u: Calls) {
    w.Watch? && w.waiting == u.waiting && w.running == u.running && Balances(t, u)
  }

  lemma BalancesAfterStart(t: Tally, u: Calls, id: string)
    requires Balances(t, u)
    ensures Balances(t.(begun := t.begun + multiset{id}), u.(waiting := u.waiting + multiset{id}))
  {
  }

  lemma BalancesAfterExecute(t: Tally, u: Calls, id: string)
    requires Balances(t, u) && id in u.waiting
    ensures Balances(t.(executed := t.executed + multiset{id}),
                     Calls(u.waiting - multiset{id}, u.running + multiset{id}))
  {
    TakeOne(u.waiting, u.running, id);
    assert (t.executed + multiset{id}) + (u.waiting - multiset{id}) == t.executed + u.waiting;
  }

  lemma BalancesAfterRejection(t: Tally, u: Calls, id: string)
    requires Balances(t, u) && id in u.waiting
    ensures Balances(t.(ended := t.ended + multiset{id}), u.(waiting := u.waiting - multiset{id}))
  {
    TakeOne(u.waiting, u.running, id);
    assert (t.ended + multiset{id}) + (u.waiting - multiset{id}) == t.ended + u.waiting;
  }

  lemma BalancesAfterEnd(t: Tally, u: Calls, id: string)
    requires Balances(t, u) && id in u.running
    ensures Balances(t.(ended := t.ended + multiset{id}), u.(running := u.running - multiset{id}))
  {
    assert (t.ended + multiset{id}) + (u.running - multiset{id}) == t.ended + u.running;
    assert (t.ended + multiset{id}) + u.waiting + (u.running - multiset{id}) == t.ended + u.waiting + u.running;
  }

  /** The tool steps, one by one. */
  lemma ToolStepIds(rules: Rules, w: Watch, x: Interaction)
    requires w.Watch? && IsToolStep(x) && Protocol.Step(rules, w, x).Watch?
    ensures var w' := Protocol.Step(rules, w, x);
            match x
            case ConsultBefore(id, context) => id in w.waiting && w' == w && MayHandOut(rules, w, context)
            case ConsultAfter(id, context) => id in w.running && w' == w && MayHandOut(rules, w, context)
            case Execute(id, _) =>
              id in w.waiting && w' == w.(waiting := w.waiting - multiset{id}, running := w.running + multiset{id})
            case Emit(ToolStart(id, _, _)) =>
              var calls := ToolCalls(w.reply.content);
              && w.begun < |calls| && id == calls[w.begun].id
              && w' == w.(begun := w.begun + 1, waiting := w.waiting + multiset{id})
            case Emit(ToolUpdate(id, _, _, _)) => id in w.running && w' == w
            case Emit(ToolEnd(id, _, _, _)) =>
              if id in w.waiting then
                w' == w.(waiting := w.waiting - multiset{id}, continuing := w'.continuing)
              else
                id in w.running && w' == w.(running := w.running - multiset{id}, continuing := w'.continuing)
            case _ => true
  {
    hide ToolCalls;
  }

  lemma OtherStep(rules: Rules, w: Watch, x: Interaction)
    requires w.Watch? && !IsToolStep(x) && Protocol.Step(rules, w, x).Watch?
    ensures var w' := Protocol.Step(rules, w, x); w'.waiting == w.waiting && w'.running == w.running
  {
    hide ToolCalls, TurnComplete, MayStart, Idle;
  }

  lemma CountedToolStep(rules: Rules, w: Watch, t: Tally, u: Calls, x: Interaction)
    requires Counted(w, t, u) && IsToolStep(x) && Protocol.Step(rules, w, x).Watch?
    ensures Counted(Protocol.Step(rules, w, x), TallyAfter(t, x), CallsAfter(u, x))
  {
    hide Protocol.Step, ToolCalls, MayHandOut, Balances;
    ToolStepIds(rules, w, x);
    match x {
      case Emit(ToolStart(id, _, _)) => BalancesAfterStart(t, u, id);
      case Execute(id, _) => BalancesAfterExecute(t, u, id);
      case Emit(ToolEnd(id, _, _, _)) =>
        if id in u.waiting {
          BalancesAfterRejection(t, u, id);
        } else {
          BalancesAfterEnd(t, u, id);
        }
      case _ =>
    }
  }

  lemma CountedStep(rules: Rules, w: Watch, t: Tally, u: Calls, x: Interaction)
    requires Sane(w) && Counted(w, t, u) && Protocol.Step(rules, w, x).Watch?
    ensures Counted(Protocol.Step(rules, w, x), TallyAfter(t, x), CallsAfter(u, x))
  {
    if IsToolStep(x) {
      CountedToolStep(rules, w, t, u, x);
    } else {
      hide Protocol.Step, ToolCalls;
      OtherStep(rules, w, x);
      if x == Emit(TurnStart) {
        FrameStep(rules, w, x);
      }
    }
  }

  lemma {:induction false} AlwaysCounted(rules: Rules, w: Watch, log: seq<Interaction>)
    requires Sane(w) && w.waiting == multiset{} && w.running == multiset{} && Accepts(rules, w, log)
    ensures Counted(Observe(rules, w, log), TurnTally(log), UnderWay(log))
  {
    hide Protocol.Step, Counted, Sane, TallyAfter, CallsAfter;
    if log == [] {
      CountedAtFirst(w);
    } else {
      var front := log[..|log| - 1];
      PrefixAccepted(rules, w, log, |log| - 1);
      AlwaysSane(rules, w, front);
      AlwaysCounted(rules, w, front);
      CountedStep(rules, Observe(rules, w, front), TurnTally(front), UnderWay(front), log[|log| - 1]);
    }
  }

  lemma CountedAtFirst(w: Watch)
    requires w.Watch? && w.waiting == multiset{} && w.running == multiset{}
    ensures Counted(w, NO_CALLS, NONE_UNDER_WAY)
  {
  }

  /** What may happen to a call when which calls are under way. */
  ghost predicate InOrder(u: Calls, x: Interaction) {
    match x
    case ConsultBefore(id, _) => id in u.waiting
    case Execute(id, _) => id in u.waiting
    case ConsultAfter(id, _) => id in u.running
    case Emit(ToolStart(_, _, _)) => true
    case Emit(ToolUpdate(id, _, _, _)) => id in u.running
    case Emit(ToolEnd(id, _, _, _)) => id in u.waiting || id in u.running
    case _ => u == NONE_UNDER_WAY
  }

  /** At every point of a run, for the very calls under way: only one announced and not yet executed is shown to
      `beforeToolCall` or executed, and thereby goes into execution; only one in execution reports or is shown to
      `afterToolCall`; only one of these two kinds ends, and is then no longer under way; and nothing else but the
      announcement of further calls happens while any call is under way. The calls announced in the turn are those
      ended and those under way. */
  lemma ToolLifecycle(rules: Rules, w: Watch, log: seq<Interaction>, k: nat)
    requires Sane(w) && w.waiting == multiset{} && w.running == multiset{}
    requires Accepts(rules, w, log) && k < |log|
    ensures var t, u := TurnTally(log[..k]), UnderWay(log[..k]);
            InOrder(u, log[k]) && t.begun == t.ended + u.waiting + u.running
  {
    hide Protocol.Step, Sane, Observe, TurnTally, UnderWay;
    PrefixAccepted(rules, w, log, k);
    AlwaysSane(rules, w, log[..k]);
    AlwaysCounted(rules, w, log[..k]);
    OrderlyStep(rules, Observe(rules, w, log[..k]), UnderWay(log[..k]), log[k]);
  }

  lemma OrderlyStep(rules: Rules, w: Watch, u: Calls, x: Interaction)
    requires Sane(w) && w.waiting == u.waiting && w.running == u.running && Protocol.Step(rules, w, x).Watch?
    ensures InOrder(u, x)
  {
    hide ToolCalls, TurnComplete, MayStart;
    if IsToolStep(x) {
      hide Protocol.Step;
      ToolStepIds(rules, w, x);
    }
  }

  predicate Distinct(calls: seq<ToolCall>) {
    forall i, j :: 0 <= i < j < |calls| ==> calls[i].id != calls[j].id
  }

  /** Every assistant message completed in the log gives its calls different ids. */
  ghost predicate DistinctReplies(log: seq<Interaction>) {
    forall k :: 0 <= k < |log| ==>
      log[k].Emit? && log[k].event.MessageEnd? && log[k].event.message.Assistant? ==>
        Distinct(ToolCalls(log[k].event.message.reply.content))
  }

  lemma OneMoreBegun(ids: seq<string>, n: nat)
    requires n < |ids|
    ensures multiset(ids[..n + 1]) == multiset(ids[..n]) + multiset{ids[n]}
  {
    assert ids[..n + 1] == ids[..n] + [ids[n]];
  }

  lemma {:induction false} DistinctIdsOccurOnce(calls: seq<ToolCall>, n: nat)
    requires Distinct(calls) && n < |calls|
    ensures multiset(Ids(calls)[..n + 1]) == multiset(Ids(calls)[..n]) + multiset{calls[n].id}
    ensures calls[n].id !in multiset(Ids(calls)[..n])
  {
    IdAt(calls, n);
    OneMoreBegun(Ids(calls), n);
    forall k | 0 <= k < n ensures Ids(calls)[..n][k] != calls[n].id {
      IdAt(calls, k);
    }
  }

  lemma {:induction false} OnceEach(calls: seq<ToolCall>, n: nat, id: string)
    requires Distinct(calls) && n <= |calls|
    ensures multiset(Ids(calls)[..n])[id] <= 1
  {
    if n > 0 {
      OnceEach(calls, n - 1, id);
      DistinctIdsOccurOnce(calls, n - 1);
    }
  }

  /** The calls under way are calls announced in this turn. */
  ghost predicate Within(w: Watch) {
    && w.Watch?
    && (w.phase.Acting? ==>
          var calls := ToolCalls(w.reply.content);
          w.begun <= |calls| && Distinct(calls) && w.waiting + w.running <= multiset(Ids(calls)[..w.begun]))
  }

  ghost predicate PendingIs(w: Watch, pending: set<string>) {
    w.Watch? && forall id :: id in pending <==> id in w.waiting + w.running
  }

  lemma TakeOne(a: multiset<string>, b: multiset<string>, id: string)
    ensures id in a ==> (a - multiset{id}) + b == (a + b) - multiset{id}
    ensures id in b ==> a + (b - multiset{id}) == (a + b) - multiset{id}
    ensures id in a ==> (a - multiset{id}) + (b + multiset{id}) == a + b
    ensures (a + multiset{id}) + b == (a + b) + multiset{id}
  {
  }

  /** How a tool step changes the calls under way. */
  lemma UnderWayStep(rules: Rules, w: Watch, x: Interaction)
    requires w.Watch? && IsToolStep(x) && Protocol.Step(rules, w, x).Watch?
    ensures var w' := Protocol.Step(rules, w, x);
            var before, after := w.waiting + w.running, w'.waiting + w'.running;
            match x
            case Emit(ToolStart(id, _, _)) => after == before + multiset{id} && w'.begun == w.begun + 1
            case Emit(ToolEnd(id, _, _, _)) => after == before - multiset{id} && w'.begun == w.begun
            case _ => after == before && w'.begun == w.begun
  {
    hide Protocol.Step, ToolCalls;
    ToolStepIds(rules, w, x);
    TakeOne(w.waiting, w.running, if x.Emit? then x.event.id else x.id);
  }

  lemma WithinToolStep(rules: Rules, w: Watch, x: Interaction)
    requires Within(w) && Protocol.Step(rules, w, x).Watch? && IsToolStep(x)
    ensures Within(Protocol.Step(rules, w, x))
  {
    hide Ids, Distinct, ToolCalls, Protocol.Step;
    UnderWayStep(rules, w, x);
    ToolStep(rules, w, x);
    if x.Emit? && x.event.ToolStart? {
      ToolStepIds(rules, w, x);
      DistinctIdsOccurOnce(ToolCalls(w.reply.content), w.begun);
    }
  }

  lemma WithinStep(rules: Rules, w: Watch, x: Interaction)
    requires Sane(w) && Within(w) && Protocol.Step(rules, w, x).Watch?
    requires DistinctReplies([x])
    ensures Within(Protocol.Step(rules, w, x))
  {
    hide Ids, Distinct, ToolCalls, Protocol.Step;
    if IsToolStep(x) {
      WithinToolStep(rules, w, x);
    } else {
      assert [x][0] == x;
      OtherStep(rules, w, x);
      ActingStep(rules, w, x);
    }
  }

  /** The turn's reply changes only as it is completed. */
  lemma ActingStep(rules: Rules, w: Watch, x: Interaction)
    requires w.Watch? && !IsToolStep(x) && Protocol.Step(rules, w, x).Watch?
    ensures var w' := Protocol.Step(rules, w, x);
            w'.phase.Acting? ==>
              if w.phase.Acting? then w'.reply == w.reply && w'.begun == w.begun
              else
                && w.phase.Calling? && w'.begun == 0 && w'.results == []
                && x == Emit(MessageEnd(Assistant(w'.reply)))
  {
    hide ToolCalls, TurnComplete, MayStart, Idle;
  }

  lemma PendingStep(rules: Rules, w: Watch, s: State, x: Interaction)
    requires Sane(w) && Within(w) && Protocol.Step(rules, w, x).Watch?
    requires PendingIs(w, s.pendingToolCalls)
    ensures PendingIs(Protocol.Step(rules, w, x), (if x.Emit? then Reduce(s, x.event) else s).pendingToolCalls)
  {
    hide Ids, Distinct, ToolCalls, Protocol.Step;
    if IsToolStep(x) {
      UnderWayStep(rules, w, x);
      if x.Emit? && x.event.ToolEnd? {
        ToolStep(rules, w, x);
        OnceEach(ToolCalls(w.reply.content), w.begun, x.event.id);
      }
    } else {
      OtherStep(rules, w, x);
    }
  }

  lemma {:induction false} AlwaysPending(rules: Rules, w: Watch, s: State, log: seq<Interaction>)
    requires Sane(w) && Within(w) && PendingIs(w, s.pendingToolCalls)
    requires Accepts(rules, w, log) && DistinctReplies(log)
    ensures Within(Observe(rules, w, log))
    ensures PendingIs(Observe(rules, w, log), ReduceAll(s, Events(log)).pendingToolCalls)
  {
    hide Protocol.Step, Sane, Reduce, Within, PendingIs, Distinct, ToolCalls;
    if log != [] {
      var front, x := log[..|log| - 1], log[|log| - 1];
      PrefixAccepted(rules, w, log, |log| - 1);
      AlwaysSane(rules, w, front);
      AlwaysPending(rules, w, s, front);
      WithinStep(rules, Observe(rules, w, front), x);
      PendingStep(rules, Observe(rules, w, front), ReduceAll(s, Events(front)), x);
      EventsSnoc(front, x);
      ReduceAllSnoc(s, Events(front), x);
      assert front + [x] == log;
    }
  }

  lemma EventsSnoc(log: seq<Interaction>, x: Interaction)
    ensures Events(log + [x]) == Events(log) + if x.Emit? then [x.event] else []
  {
    assert (log + [x])[..|log|] == log;
  }

  lemma ReduceAllSnoc(s: State, events: seq<AgentEvent>, x: Interaction)
    ensures ReduceAll(s, events + if x.Emit? then [x.event] else [])
         == if x.Emit? then Reduce(ReduceAll(s, events), x.event) else ReduceAll(s, events)
  {
    hide Reduce;
    if x.Emit? {
      assert (events + [x.event])[..|events|] == events;
    } else {
      assert events + [] == events;
    }
  }

  // ----- Once each -----

  /** In a turn whose calls have different ids, those announced are the first of them. */
  ghost predicate Ordinal(w: Watch, t: Tally) {
    && w.Watch?
    && (w.phase.Opening? || w.phase.Calling? ==> t.begun == multiset{})
    && (w.phase.Acting? ==>
          var calls := ToolCalls(w.reply.content);
          w.begun <= |calls| && Distinct(calls) && t.begun == multiset(Ids(calls)[..w.begun]))
  }

  lemma OrdinalToolStep(rules: Rules, w: Watch, t: Tally, x: Interaction)
    requires Ordinal(w, t) && Protocol.Step(rules, w, x).Watch? && IsToolStep(x)
    ensures Ordinal(Protocol.Step(rules, w, x), TallyAfter(t, x))
  {
    hide Ids, Distinct, ToolCalls, Protocol.Step;
    ToolStep(rules, w, x);
    ToolStepIds(rules, w, x);
    if x.Emit? && x.event.ToolStart? {
      DistinctIdsOccurOnce(ToolCalls(w.reply.content), w.begun);
    }
  }

  lemma OrdinalStep(rules: Rules, w: Watch, t: Tally, x: Interaction)
    requires Sane(w) && Ordinal(w, t) && Protocol.Step(rules, w, x).Watch? && DistinctReplies([x])
    ensures Ordinal(Protocol.Step(rules, w, x), TallyAfter(t, x))
  {
    hide Ids, Distinct, ToolCalls, Protocol.Step;
    if IsToolStep(x) {
      OrdinalToolStep(rules, w, t, x);
    } else {
      assert [x][0] == x;
      ActingStep(rules, w, x);
      if IsMessageStep(x) {
        MessageStep(rules, w, x);
      } else {
        FrameStep(rules, w, x);
      }
    }
  }

  lemma {:induction false} AlwaysOrdinal(rules: Rules, w: Watch, log: seq<Interaction>)
    requires Sane(w) && w.phase.Fresh? && Accepts(rules, w, log) && DistinctReplies(log)
    ensures Ordinal(Observe(rules, w, log), TurnTally(log))
  {
    hide Protocol.Step, Sane, Ordinal, Distinct, ToolCalls, TallyAfter;
    if log == [] {
      OrdinalAtFirst(w);
    } else {
      var front, x := log[..|log| - 1], log[|log| - 1];
      PrefixAccepted(rules, w, log, |log| - 1);
      AlwaysSane(rules, w, front);
      AlwaysOrdinal(rules, w, front);
      OrdinalStep(rules, Observe(rules, w, front), TurnTally(front), x);
    }
  }

  lemma OrdinalAtFirst(w: Watch)
    requires w.Watch? && w.phase.Fresh?
    ensures Ordinal(w, NO_CALLS)
  {
  }

  /** What may happen to a call of an id, given how often the turn has seen one begun, executed and ended. */
  ghost predicate OncePerCall(t: Tally, x: Interaction) {
    match x
    case Emit(ToolStart(id, _, _)) => t.begun[id] == 0 && t.executed[id] == 0 && t.ended[id] == 0
    case ConsultBefore(id, _) => t.begun[id] == 1 && t.executed[id] == 0 && t.ended[id] == 0
    case Execute(id, _) => t.begun[id] == 1 && t.executed[id] == 0 && t.ended[id] == 0
    case Emit(ToolUpdate(id, _, _, _)) => t.begun[id] == 1 && t.executed[id] == 1 && t.ended[id] == 0
    case ConsultAfter(id, _) => t.begun[id] == 1 && t.executed[id] == 1 && t.ended[id] == 0
    case Emit(ToolEnd(id, _, _, _)) => t.begun[id] == 1 && t.ended[id] == 0
    case Emit(TurnEnd(_, _)) => t.ended == t.begun && t.executed <= t.begun
    case _ => true
  }

  /** If every assistant message gives its calls different ids: each call of a turn begins once, is executed at most once
      and then, reports only when executed and not ended, and ends once; and a turn ends with all its calls ended. */
  lemma EachCallOnce(rules: Rules, w: Watch, log: seq<Interaction>, k: nat)
    requires Sane(w) && w.phase.Fresh? && Accepts(rules, w, log) && DistinctReplies(log) && k < |log|
    ensures OncePerCall(TurnTally(log[..k]), log[k])
  {
    hide Protocol.Step, Observe, TurnTally, UnderWay, Distinct;
    var before := log[..k];
    PrefixAccepted(rules, w, log, k);
    AlwaysSane(rules, w, before);
    AlwaysCounted(rules, w, before);
    AlwaysOrdinal(rules, w, before);
    OnceStep(rules, Observe(rules, w, before), TurnTally(before), UnderWay(before), log[k]);
  }

  lemma OnceStep(rules: Rules, w: Watch, t: Tally, u: Calls, x: Interaction)
    requires Sane(w) && Counted(w, t, u) && Ordinal(w, t) && Protocol.Step(rules, w, x).Watch?
    ensures OncePerCall(t, x)
  {
    hide Ids, Distinct, ToolCalls, Protocol.Step, OncePerCall, InOrder, Sane;
    OrderlyStep(rules, w, u, x);
    if IsToolStep(x) {
      ToolStep(rules, w, x);
      ToolStepIds(rules, w, x);
      hide Balances;
      var calls := ToolCalls(w.reply.content);
      OnceEach(calls, w.begun, IdOf(x));
      if x.Emit? && x.event.ToolStart? {
        DistinctIdsOccurOnce(calls, w.begun);
      }
      OnceByCounts(t, u, x);
    } else {
      OnceElsewhere(t, u, x);
    }
  }

  function IdOf(x: Interaction): string
    requires IsToolStep(x)
  {
    if x.Emit? then x.event.id else x.id
  }

  lemma OneOf(t: Tally, u: Calls, id: string)
    requires Balances(t, u)
    ensures t.ended[id] + u.waiting[id] + u.running[id] == t.begun[id]
    ensures t.executed[id] + u.waiting[id] <= t.begun[id]
    ensures u.running[id] <= t.executed[id] <= u.running[id] + t.ended[id]
  {
  }

  lemma OnceByCounts(t: Tally, u: Calls, x: Interaction)
    requires IsToolStep(x) && Balances(t, u) && InOrder(u, x) && t.begun[IdOf(x)] <= 1
    requires x.Emit? && x.event.ToolStart? ==> t.begun[x.event.id] == 0
    ensures OncePerCall(t, x)
  {
    hide Balances;
    OneOf(t, u, IdOf(x));
  }

  lemma OnceElsewhere(t: Tally, u: Calls, x: Interaction)
    requires !IsToolStep(x) && Balances(t, u) && InOrder(u, x)
    ensures OncePerCall(t, x)
  {
  }

  /** Even when ids repeat, nothing is pending that is not under way. */
  ghost predicate PendingAmong(w: Watch, pending: set<string>) {
    w.Watch? && forall id :: id in pending ==> id in w.waiting + w.running
  }

  lemma PendingAmongStep(rules: Rules, w: Watch, s: State, x: Interaction)
    requires PendingAmong(w, s.pendingToolCalls) && Protocol.Step(rules, w, x).Watch?
    ensures PendingAmong(Protocol.Step(rules, w, x), (if x.Emit? then Reduce(s, x.event) else s).pendingToolCalls)
  {
    hide Protocol.Step, ToolCalls;
    if IsToolStep(x) {
      UnderWayStep(rules, w, x);
    } else {
      OtherStep(rules, w, x);
    }
  }

  lemma {:induction false} AlwaysPendingAmong(rules: Rules, w: Watch, s: State, log: seq<Interaction>)
    requires PendingAmong(w, s.pendingToolCalls) && Accepts(rules, w, log)
    ensures PendingAmong(Observe(rules, w, log), ReduceAll(s, Events(log)).pendingToolCalls)
  {
    hide Protocol.Step, Reduce, PendingAmong;
    if log != [] {
      var front, x := log[..|log| - 1], log[|log| - 1];
      PrefixAccepted(rules, w, log, |log| - 1);
      AlwaysPendingAmong(rules, w, s, front);
      PendingAmongStep(rules, Observe(rules, w, front), ReduceAll(s, Events(front)), x);
      EventsSnoc(front, x);
      ReduceAllSnoc(s, Events(front), x);
      assert front + [x] == log;
    }
  }
}
