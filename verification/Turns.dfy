/** Where in a run its turns and their tool batches are, and what therefore holds of every batch of every run. */
module Turns {
  import opened Types
  import opened Tools
  import opened Parallel
  import opened Scheduling
  import opened Streaming
  import opened AgentLoop
  import opened Protocol
  import opened Guarantees
  import opened Runs

  // ----- Finding the turns -----

  /** A turn taken: where its log starts, and what it starts from. */
  datatype Taken = Taken(start: nat, first: bool, vars: Vars, te: TurnEnv)

  function TurnsTaken(start: nat, first: bool, v: Vars, mode: ToolMode, turns: seq<TurnEnv>): seq<Taken>
    requires AllAnswer(turns)
    decreases |turns|
  {
    if turns == [] then []
    else
      [Taken(start, first, v, turns[0])]
      + match RunTurn(first, v, mode, turns[0])
        case GoesOn(log, w, more) =>
          if more || w.pending != [] then TurnsTaken(start + |log|, false, w, mode, turns[1..])
          else if turns[0].followUp != [] then
            TurnsTaken(start + |log| + 1, false, w.(pending := turns[0].followUp), mode, turns[1..])
          else []
        case _ => []
  }

  /** What comes before the first turn's pending messages. */
  function Opener(request: Request, steering: seq<Message>): seq<Interaction> {
    [Emit(AgentStart), Emit(TurnStart)] + MessagesLog(Expected(request)) + [PollSteering(steering)]
  }

  function StartVars(request: Request, context: Context, steering: seq<Message>): Vars {
    Vars(context.(messages := context.messages + Expected(request)), Expected(request), steering)
  }

  /** The turns of a run. */
  function TurnsOf(request: Request, context: Context, mode: ToolMode, steering: seq<Message>, turns: seq<TurnEnv>)
    : seq<Taken>
    requires AllAnswer(turns)
  {
    TurnsTaken(|Opener(request, steering)|, true, StartVars(request, context, steering), mode, turns)
  }

  lemma RunIsOpenerAndTurns(
      request: Request, context: Context, mode: ToolMode, steering: seq<Message>, turns: seq<TurnEnv>)
    requires AllAnswer(turns)
    ensures RunOf(request, context, mode, steering, turns).log
         == Opener(request, steering) + RunTurns(true, StartVars(request, context, steering), mode, turns).log
    ensures RunOf(request, context, mode, steering, turns).ended
         == RunTurns(true, StartVars(request, context, steering), mode, turns).ended
  {
    hide RunTurns, MessagesLog;
    assert context.messages + [] == context.messages;
    var rest := RunTurns(true, StartVars(request, context, steering), mode, turns).log;
    NoMessagesLog();
    assert [Emit(AgentStart), Emit(TurnStart)] + [] == [Emit(AgentStart), Emit(TurnStart)];
    Associate([Emit(AgentStart), Emit(TurnStart)] + MessagesLog(Expected(request)), [PollSteering(steering)], rest);
  }

  lemma NoMessagesLog()
    ensures MessagesLog([]) == []
  {
  }

  ghost predicate Holds(log: seq<Interaction>, at: nat, piece: seq<Interaction>) {
    at + |piece| <= |log| && log[at..at + |piece|] == piece
  }

  lemma HoldsBehind(a: seq<Interaction>, b: seq<Interaction>, at: nat, piece: seq<Interaction>)
    requires Holds(b, at, piece)
    ensures Holds(a + b, |a| + at, piece)
  {
    assert (a + b)[|a| + at..|a| + at + |piece|] == b[at..at + |piece|];
  }

  lemma HoldsFront(a: seq<Interaction>, b: seq<Interaction>)
    ensures Holds(a + b, 0, a)
  {
  }

  lemma HoldsWithin(log: seq<Interaction>, at: nat, a: seq<Interaction>, b: seq<Interaction>, c: seq<Interaction>)
    requires Holds(log, at, a + b + c)
    ensures Holds(log, at + |a|, b)
  {
    var whole := log[at..at + |a + b + c|];
    assert whole == a + b + c;
    forall i | 0 <= i < |b| ensures log[at + |a| + i] == b[i] {
      assert whole[|a| + i] == log[at + (|a| + i)];
      assert (a + b + c)[|a| + i] == b[i];
    }
  }

  function TurnLog(mode: ToolMode, t: Taken): seq<Interaction>
    requires Answers(t.te)
  {
    RunTurn(t.first, t.vars, mode, t.te).log
  }

  /** What comes behind a turn, and where its first turn starts. */
  lemma Further(start: nat, first: bool, v: Vars, mode: ToolMode, turns: seq<TurnEnv>)
    returns (pause: seq<Interaction>, w: Vars)
    requires AllAnswer(turns) && |TurnsTaken(start, first, v, mode, turns)| > 1
    ensures var log := RunTurn(first, v, mode, turns[0]).log;
            && RunTurns(first, v, mode, turns).log == log + pause + RunTurns(false, w, mode, turns[1..]).log
            && TurnsTaken(start, first, v, mode, turns)
            == [Taken(start, first, v, turns[0])]
                 + TurnsTaken(start + |log| + |pause|, false, w, mode, turns[1..])
            && Calm(pause)
            && RunTurns(first, v, mode, turns).ended == RunTurns(false, w, mode, turns[1..]).ended
            && RunTurns(first, v, mode, turns).vars == RunTurns(false, w, mode, turns[1..]).vars
  {
    hide RunTurn;
    var turn := RunTurn(first, v, mode, turns[0]);
    if turn.hasMoreToolCalls || turn.vars.pending != [] {
      pause, w := [], turn.vars;
      assert turn.log + [] == turn.log;
    } else {
      pause, w := [PollFollowUp(turns[0].followUp)], turn.vars.(pending := turns[0].followUp);
      Associate(turn.log, pause, RunTurns(false, w, mode, turns[1..]).log);
    }
  }

  lemma FirstTurnIsThere(start: nat, first: bool, v: Vars, mode: ToolMode, turns: seq<TurnEnv>)
    returns (rest: seq<Interaction>)
    requires AllAnswer(turns) && turns != []
    ensures RunTurns(first, v, mode, turns).log == RunTurn(first, v, mode, turns[0]).log + rest
    ensures TurnsTaken(start, first, v, mode, turns) != []
    ensures TurnsTaken(start, first, v, mode, turns)[0] == Taken(start, first, v, turns[0])
    ensures !RunTurn(first, v, mode, turns[0]).GoesOn? ==>
              rest == [] && |TurnsTaken(start, first, v, mode, turns)| == 1
  {
    hide RunTurn;
    var turn := RunTurn(first, v, mode, turns[0]);
    match turn {
      case GoesOn(log, w, more) =>
        rest := if more || w.pending != [] then RunTurns(false, w, mode, turns[1..]).log
                else WindDown(w, mode, turns[0].followUp, turns[1..]).log;
      case _ =>
        rest := [];
        assert turn.log + [] == turn.log;
    }
  }

  lemma {:induction false} TurnIsThere(start: nat, first: bool, v: Vars, mode: ToolMode, turns: seq<TurnEnv>, t: nat)
    requires AllAnswer(turns) && t < |TurnsTaken(start, first, v, mode, turns)|
    ensures var taken := TurnsTaken(start, first, v, mode, turns)[t];
            && taken.te in turns && Answers(taken.te) && start <= taken.start
            && Holds(RunTurns(first, v, mode, turns).log, taken.start - start, TurnLog(mode, taken))
    decreases |turns|
  {
    hide RunTurn, RunTurns, TurnsTaken, Holds, Answers;
    NoTurns(start, first, v, mode, turns);
    assert Answers(turns[0]);
    var log := RunTurn(first, v, mode, turns[0]).log;
    var all := RunTurns(first, v, mode, turns).log;
    if t == 0 {
      var rest := FirstTurnIsThere(start, first, v, mode, turns);
      HoldsFront(log, rest);
    } else {
      var pause, w := Further(start, first, v, mode, turns);
      TurnIsThere(start + |log| + |pause|, false, w, mode, turns[1..], t - 1);
      var taken := TurnsTaken(start + |log| + |pause|, false, w, mode, turns[1..])[t - 1];
      HoldsBehind(log + pause, RunTurns(false, w, mode, turns[1..]).log, taken.start - start - |log| - |pause|,
                  TurnLog(mode, taken));
    }
  }

  lemma NoTurns(start: nat, first: bool, v: Vars, mode: ToolMode, turns: seq<TurnEnv>)
    requires AllAnswer(turns)
    ensures turns == [] <==> TurnsTaken(start, first, v, mode, turns) == []
  {
  }

  lemma TurnIsInRun(
      request: Request, context: Context, mode: ToolMode, steering: seq<Message>, turns: seq<TurnEnv>, t: nat)
    requires AllAnswer(turns) && t < |TurnsOf(request, context, mode, steering, turns)|
    ensures var taken := TurnsOf(request, context, mode, steering, turns)[t];
            && taken.te in turns && Answers(taken.te)
            && Holds(RunOf(request, context, mode, steering, turns).log, taken.start, TurnLog(mode, taken))
  {
    hide RunOf, RunTurns, TurnsTaken, RunTurn, Holds, Opener, StartVars;
    var opener, v := Opener(request, steering), StartVars(request, context, steering);
    RunIsOpenerAndTurns(request, context, mode, steering, turns);
    TurnIsThere(|opener|, true, v, mode, turns, t);
    var taken := TurnsOf(request, context, mode, steering, turns)[t];
    HoldsBehind(opener, RunTurns(true, v, mode, turns).log, taken.start - |opener|, TurnLog(mode, taken));
  }

  // ----- Finding the batches -----

  predicate HasBatch(t: Taken) {
    !Failed(t.te.final) && ToolCalls(t.te.final.content) != []
  }

  function CallsOf(t: Taken): seq<ToolCall> {
    ToolCalls(t.te.final.content)
  }

  /** The context of the loop while the batch runs. */
  function BatchContext(t: Taken): Context {
    Answered(t.vars, t.te).context
  }

  function BatchOf(mode: ToolMode, t: Taken): Batch
    requires Answers(t.te)
  {
    ExecuteBatch(mode, BatchContext(t), CallsOf(t), t.te.calls, t.te.schedule)
  }

  function BatchStart(t: Taken): nat {
    t.start + |AssistantLog(t.first, t.vars, t.te)|
  }

  /** The configuration, or a tool called in this turn, asks for the calls to be executed one after the other. */
  ghost predicate IsSequential(mode: ToolMode, t: Taken) {
    InSequence(mode, BatchContext(t).tools, CallsOf(t))
  }

  lemma BatchByMode(mode: ToolMode, t: Taken)
    requires Answers(t.te)
    ensures BatchOf(mode, t)
         == if IsSequential(mode, t) then SequentialBatch(BatchContext(t), CallsOf(t), t.te.calls)
            else ParallelBatch(BatchContext(t), CallsOf(t), t.te.calls, t.te.schedule)
  {
    hide UsesSequential, InSequence, SequentialBatch, ParallelBatch, ToolCalls, Answered;
    SequentialIfAsked(mode, BatchContext(t).tools, CallsOf(t));
  }

  /** The batch is where it is said to be, and if it is not complete, the turn ends with it. */
  lemma BatchIsInTurn(mode: ToolMode, t: Taken) returns (closing: seq<Interaction>)
    requires HasBatch(t) && Answers(t.te)
    ensures TurnLog(mode, t) == AssistantLog(t.first, t.vars, t.te) + BatchOf(mode, t).log + closing
    ensures !BatchOf(mode, t).complete ==> closing == [] && RunTurn(t.first, t.vars, mode, t.te).Suspended?
    ensures BatchOf(mode, t).complete ==> !RunTurn(t.first, t.vars, mode, t.te).Suspended?
    ensures Calm(closing)
  {
    hide AssistantLog, ExecuteBatch, ToolCalls, Answered, ResultMessages, ShouldTerminate, WithResults;
    var b := BatchOf(mode, t);
    var log := AssistantLog(t.first, t.vars, t.te);
    if b.complete {
      var results := ResultMessages(b.finalized);
      closing := ClosingLog(WithResults(Answered(t.vars, t.te), results), t.te, results);
    } else {
      closing := [];
      assert log + b.log + [] == log + b.log;
    }
  }

  lemma BatchIsInRun(
      request: Request, context: Context, mode: ToolMode, steering: seq<Message>, turns: seq<TurnEnv>, t: nat)
    requires AllAnswer(turns) && t < |TurnsOf(request, context, mode, steering, turns)|
    requires HasBatch(TurnsOf(request, context, mode, steering, turns)[t])
    ensures var taken := TurnsOf(request, context, mode, steering, turns)[t];
            var log := RunOf(request, context, mode, steering, turns).log;
            && taken.te in turns && Answers(taken.te)
            && Holds(log, taken.start, AssistantLog(taken.first, taken.vars, taken.te))
            && Holds(log, BatchStart(taken), BatchOf(mode, taken).log)
  {
    hide RunOf, RunTurn, TurnsOf, Holds, AssistantLog, ExecuteBatch, ToolCalls, Answered;
    TurnIsInRun(request, context, mode, steering, turns, t);
    var taken := TurnsOf(request, context, mode, steering, turns)[t];
    var log := RunOf(request, context, mode, steering, turns).log;
    var closing := BatchIsInTurn(mode, taken);
    var intro, batch := AssistantLog(taken.first, taken.vars, taken.te), BatchOf(mode, taken).log;
    HoldsWithin(log, taken.start, intro, batch, closing);
    assert [] + intro + (batch + closing) == intro + batch + closing;
    HoldsWithin(log, taken.start, [], intro, batch + closing);
  }

  // ----- The calls under way -----

  /** Nothing here begins, executes or ends a call. */
  ghost predicate Calm(log: seq<Interaction>) {
    forall k :: 0 <= k < |log| ==>
      !log[k].Execute? && !(log[k].Emit? && (log[k].event.ToolStart? || log[k].event.ToolEnd?))
  }

  lemma {:induction false} UnderWayUnchanged(a: seq<Interaction>, b: seq<Interaction>)
    requires Calm(b)
    ensures UnderWay(a + b) == UnderWay(a)
  {
    if b == [] {
      assert a + b == a;
    } else {
      assert (a + b)[..|a + b| - 1] == a + b[..|b| - 1];
      UnderWayUnchanged(a, b[..|b| - 1]);
      assert (a + b)[|a + b| - 1] == b[|b| - 1];
    }
  }

  lemma {:induction false} UnderWayBehind(a: seq<Interaction>, b: seq<Interaction>)
    requires UnderWay(a) == NONE_UNDER_WAY
    ensures UnderWay(a + b) == UnderWay(b)
  {
    hide CallsAfter;
    if b == [] {
      assert a + b == a;
    } else {
      assert (a + b)[..|a + b| - 1] == a + b[..|b| - 1];
      UnderWayBehind(a, b[..|b| - 1]);
    }
  }

  lemma {:induction false} RunningNeedsExecute(log: seq<Interaction>)
    requires forall k :: 0 <= k < |log| ==> !log[k].Execute?
    ensures UnderWay(log).running == multiset{}
  {
    if log != [] {
      RunningNeedsExecute(log[..|log| - 1]);
    }
  }

  lemma {:induction false} MessagesLogIsCalm(ms: seq<Message>)
    ensures Calm(MessagesLog(ms))
  {
    if ms != [] {
      MessagesLogIsCalm(ms[..|ms| - 1]);
    }
  }

  lemma {:induction false} StreamLogIsCalm(events: seq<StreamEvent>, final: AssistantMessage, open: bool)
    ensures Calm(StreamLog(events, final, open))
  {
    if events != [] && !events[0].Finish? {
      StreamLogIsCalm(events[1..], final, open || events[0].Start?);
    }
  }

  lemma OpeningLogIsCalm(first: bool, v: Vars)
    ensures Calm(OpeningLog(first, v.pending) + [LlmCall(v.context.messages + v.pending)])
  {
    MessagesLogIsCalm(v.pending);
  }

  lemma AssistantLogIsCalm(first: bool, v: Vars, te: TurnEnv)
    ensures Calm(AssistantLog(first, v, te))
  {
    hide OpeningLog, StreamLog;
    OpeningLogIsCalm(first, v);
    StreamLogIsCalm(te.stream, te.final, false);
  }

  lemma OpenerIsCalm(request: Request, steering: seq<Message>)
    ensures Calm(Opener(request, steering))
  {
    MessagesLogIsCalm(Expected(request));
  }

  lemma CalmFromRest(log: seq<Interaction>)
    requires Calm(log)
    ensures UnderWay(log) == NONE_UNDER_WAY
  {
    UnderWayUnchanged([], log);
    assert [] + log == log;
  }

  /** An observer at the top of a turn. */
  ghost function Observer(first: bool, v: Vars): Watch {
    Watch(if first then Opening else Between, v.context.messages, v.newMessages, v.pending, None, NO_REPLY, 0,
          multiset{}, multiset{}, [], !first)
  }

  /** When a turn is over, no call is under way. */
  lemma TurnLeavesNothingUnderWay(first: bool, v: Vars, mode: ToolMode, te: TurnEnv)
    requires Keeps(Rules(false, false), te)
    ensures var turn := RunTurn(first, v, mode, te); !turn.Suspended? ==> UnderWay(turn.log) == NONE_UNDER_WAY
  {
    hide RunTurn, Observe, UnderWay, TurnTally, Keeps;
    assert Answers(te) by { AnswersIfKept(te); }
    var rules, w := Rules(false, false), Observer(first, v);
    var turn := RunTurn(first, v, mode, te);
    TurnAccepted(rules, w, first, v, mode, te);
    AlwaysSane(rules, w, turn.log);
    AlwaysCounted(rules, w, turn.log);
  }

  lemma AnswersIfKept(te: TurnEnv)
    requires Keeps(Rules(false, false), te)
    ensures Answers(te)
  {
  }

  // ----- Execution discipline -----

  /** In an accepted trace, the calls in flight are those under way. */
  lemma InFlightStep(rules: Rules, w: Watch, x: Interaction)
    requires w.Watch? && Protocol.Step(rules, w, x).Watch?
    ensures var w' := Protocol.Step(rules, w, x);
            (|w'.waiting| + |w'.running|
             == |w.waiting| + |w.running|
                  + if x.Emit? && x.event.ToolStart? then 1 else if x.Emit? && x.event.ToolEnd? then -1 else 0)
  {
    hide Protocol.Step, ToolCalls, MayHandOut;
    if IsToolStep(x) {
      ToolStepIds(rules, w, x);
    } else {
      OtherStep(rules, w, x);
    }
  }

  lemma {:induction false} InFlightIsUnderWay(rules: Rules, w: Watch, log: seq<Interaction>)
    requires Sane(w) && w.waiting == multiset{} && w.running == multiset{} && Accepts(rules, w, log)
    ensures var u := UnderWay(log); InFlight(log) == |u.waiting| + |u.running|
  {
    hide Protocol.Step, Sane, CallsAfter, TallyAfter;
    AlwaysCounted(rules, w, log);
    if log != [] {
      var front := log[..|log| - 1];
      PrefixAccepted(rules, w, log, |log| - 1);
      InFlightIsUnderWay(rules, w, front);
      AlwaysCounted(rules, w, front);
      InFlightStep(rules, Observe(rules, w, front), log[|log| - 1]);
    }
  }

  lemma RunFlight(
      request: Request, context: Context, mode: ToolMode, steering: seq<Message>, turns: seq<TurnEnv>, k: nat)
    requires AllAnswer(turns) && AllKeep(Rules(false, false), turns)
    requires k <= |RunOf(request, context, mode, steering, turns).log|
    ensures var before := RunOf(request, context, mode, steering, turns).log[..k];
            InFlight(before) == |UnderWay(before).waiting| + |UnderWay(before).running|
  {
    hide RunOf, Observe, AllKeep, InFlight, UnderWay;
    var rules, w := Rules(false, false), Initial(context.messages, Expected(request));
    RunKeepsProtocol(rules, request, context, mode, steering, turns);
    PrefixAccepted(rules, w, RunOf(request, context, mode, steering, turns).log, k);
    InFlightIsUnderWay(rules, w, RunOf(request, context, mode, steering, turns).log[..k]);
  }

  /** Where a batch starts, no call is under way. */
  lemma {:induction false} NothingUnderWayBefore(
      start: nat, first: bool, v: Vars, mode: ToolMode, turns: seq<TurnEnv>, t: nat)
    requires AllAnswer(turns) && AllKeep(Rules(false, false), turns)
    requires t < |TurnsTaken(start, first, v, mode, turns)|
    ensures var at := TurnsTaken(start, first, v, mode, turns)[t].start - start;
            && 0 <= at <= |RunTurns(first, v, mode, turns).log|
            && UnderWay(RunTurns(first, v, mode, turns).log[..at]) == NONE_UNDER_WAY
    decreases |turns|
  {
    hide RunTurn, RunTurns, TurnsTaken, UnderWay, Keeps;
    NoTurns(start, first, v, mode, turns);
    TurnIsThere(start, first, v, mode, turns, t);
    var log := RunTurn(first, v, mode, turns[0]).log;
    var all := RunTurns(first, v, mode, turns).log;
    if t == 0 {
      var rest := FirstTurnIsThere(start, first, v, mode, turns);
      CalmFromRest([]);
      assert all[..0] == [];
    } else {
      var pause, w := Further(start, first, v, mode, turns);
      NothingUnderWayBefore(start + |log| + |pause|, false, w, mode, turns[1..], t - 1);
      var rest := RunTurns(false, w, mode, turns[1..]).log;
      var at := TurnsTaken(start + |log| + |pause|, false, w, mode, turns[1..])[t - 1].start
                  - (start + |log| + |pause|);
      assert Keeps(Rules(false, false), turns[0]);
      GoesOnIfFurther(start, first, v, mode, turns);
      TurnLeavesNothingUnderWay(first, v, mode, turns[0]);
      UnderWayUnchanged(log, pause);
      UnderWayBehind(log + pause, rest[..at]);
      assert all[..|log| + |pause| + at] == (log + pause) + rest[..at];
    }
  }

  lemma GoesOnIfFurther(start: nat, first: bool, v: Vars, mode: ToolMode, turns: seq<TurnEnv>)
    requires AllAnswer(turns) && |TurnsTaken(start, first, v, mode, turns)| > 1
    ensures RunTurn(first, v, mode, turns[0]).GoesOn?
  {
    hide RunTurn;
  }

  /** The calls under way at some point of a batch are those the batch itself has under way. */
  lemma UnderWayInBatch(
      request: Request, context: Context, mode: ToolMode, steering: seq<Message>, turns: seq<TurnEnv>, t: nat, m: nat)
    requires AllAnswer(turns) && AllKeep(Rules(false, false), turns)
    requires t < |TurnsOf(request, context, mode, steering, turns)|
    requires var taken := TurnsOf(request, context, mode, steering, turns)[t];
             HasBatch(taken) && Answers(taken.te) && m <= |BatchOf(mode, taken).log|
    ensures var taken := TurnsOf(request, context, mode, steering, turns)[t];
            var log := RunOf(request, context, mode, steering, turns).log;
            && BatchStart(taken) + m <= |log|
            && log[..BatchStart(taken) + m] == log[..BatchStart(taken)] + BatchOf(mode, taken).log[..m]
            && UnderWay(log[..BatchStart(taken)]) == NONE_UNDER_WAY
            && UnderWay(log[..BatchStart(taken) + m]) == UnderWay(BatchOf(mode, taken).log[..m])
  {
    hide RunOf, RunTurns, TurnsTaken, RunTurn, Opener, StartVars, UnderWay, AssistantLog, ExecuteBatch, ToolCalls,
         Answered;
    var opener, v := Opener(request, steering), StartVars(request, context, steering);
    var taken := TurnsOf(request, context, mode, steering, turns)[t];
    var log, rest := RunOf(request, context, mode, steering, turns).log, RunTurns(true, v, mode, turns).log;
    var intro, batch := AssistantLog(taken.first, taken.vars, taken.te), BatchOf(mode, taken).log;
    RunIsOpenerAndTurns(request, context, mode, steering, turns);
    BatchIsInRun(request, context, mode, steering, turns, t);
    NothingUnderWayBefore(|opener|, true, v, mode, turns, t);
    var at := taken.start - |opener|;
    OpenerIsCalm(request, steering);
    CalmFromRest(opener);
    UnderWayBehind(opener, rest[..at]);
    assert log[..taken.start] == opener + rest[..at];
    AssistantLogIsCalm(taken.first, taken.vars, taken.te);
    UnderWayUnchanged(log[..taken.start], intro);
    assert log[..BatchStart(taken)] == log[..taken.start] + intro;
    UnderWayBehind(log[..BatchStart(taken)], batch[..m]);
    PiecePrefix(log, BatchStart(taken), batch, m);
  }

  lemma PiecePrefix(log: seq<Interaction>, at: nat, piece: seq<Interaction>, m: nat)
    requires Holds(log, at, piece) && m <= |piece|
    ensures at + m <= |log| && log[..at + m] == log[..at] + piece[..m]
    ensures m < |piece| ==> log[at + m] == piece[m]
  {
    forall i | 0 <= i < m ensures log[at + i] == piece[i] {
      assert log[at..at + |piece|][i] == log[at + i];
    }
    if m < |piece| {
      assert log[at..at + |piece|][m] == log[at + m];
    }
  }

  /** If the configuration or a tool called in the turn asks for it, at most one call is in flight at every point of the
      turn's batch, in every run. */
  lemma SequentialTurnsDoNotOverlap(
      request: Request, context: Context, mode: ToolMode, steering: seq<Message>, turns: seq<TurnEnv>, t: nat, m: nat)
    requires AllAnswer(turns) && AllKeep(Rules(false, false), turns)
    requires t < |TurnsOf(request, context, mode, steering, turns)|
    requires var taken := TurnsOf(request, context, mode, steering, turns)[t];
             && HasBatch(taken) && IsSequential(mode, taken) && Answers(taken.te)
             && m <= |BatchOf(mode, taken).log|
    ensures var taken := TurnsOf(request, context, mode, steering, turns)[t];
            var log := RunOf(request, context, mode, steering, turns).log;
            BatchStart(taken) + m <= |log| && 0 <= InFlight(log[..BatchStart(taken) + m]) <= 1
  {
    hide RunOf, TurnsOf, UnderWay, AssistantLog, ToolCalls, Answered, InFlight, ExecuteBatch, AllKeep;
    var taken := TurnsOf(request, context, mode, steering, turns)[t];
    var log := RunOf(request, context, mode, steering, turns).log;
    UnderWayInBatch(request, context, mode, steering, turns, t, m);
    RunFlight(request, context, mode, steering, turns, BatchStart(taken));
    InFlightOfConcat(log[..BatchStart(taken)], BatchOf(mode, taken).log[..m]);
    SequentialBatchesDoNotOverlap(mode, BatchContext(taken), CallsOf(taken), taken.te.calls, taken.te.schedule);
  }

  /** Otherwise the turn's batch begins with the whole preflight, and from there on only tasks are started, report and
      end, in every run and every schedule. */
  lemma ConcurrentTurnsPreflightFirst(
      request: Request, context: Context, mode: ToolMode, steering: seq<Message>, turns: seq<TurnEnv>, t: nat)
    requires AllAnswer(turns) && t < |TurnsOf(request, context, mode, steering, turns)|
    requires var taken := TurnsOf(request, context, mode, steering, turns)[t];
             HasBatch(taken) && !IsSequential(mode, taken)
    ensures var taken := TurnsOf(request, context, mode, steering, turns)[t];
            var log := RunOf(request, context, mode, steering, turns).log;
            && Answers(taken.te)
            && var n := Reached(CallsOf(taken), taken.te.calls, 0);
               var preflight := PreflightLog(BatchContext(taken), CallsOf(taken), taken.te.calls, n);
               var batch := BatchOf(mode, taken).log;
               && Holds(log, BatchStart(taken), preflight)
               && Holds(log, BatchStart(taken), batch)
               && |preflight| <= |batch|
               && OnlyTasks(Entries(BatchContext(taken).tools, CallsOf(taken), taken.te.calls, n),
                            batch[|preflight|..])
  {
    hide RunOf, TurnsOf, UnderWay, AssistantLog, ToolCalls, Answered, InFlight, ExecuteBatch, OnlyTasks, PreflightLog,
         Entries;
    var taken := TurnsOf(request, context, mode, steering, turns)[t];
    var log := RunOf(request, context, mode, steering, turns).log;
    BatchIsInRun(request, context, mode, steering, turns, t);
    PreflightComesFirst(mode, BatchContext(taken), CallsOf(taken), taken.te.calls, taken.te.schedule);
    var n := Reached(CallsOf(taken), taken.te.calls, 0);
    var preflight := PreflightLog(BatchContext(taken), CallsOf(taken), taken.te.calls, n);
    var batch := BatchOf(mode, taken).log;
    assert log[BatchStart(taken)..BatchStart(taken) + |batch|][..|preflight|]
        == log[BatchStart(taken)..BatchStart(taken) + |preflight|];
  }

  // ----- A small turn -----

  const READ: Tool := Tool("read", None)

  function ReadCall(id: string): ToolCall {
    ToolCall(id, "read", EMPTY_OBJECT, None)
  }

  /** An assistant message with two calls of a tool that does not report. */
  function TwoCalls(before: Option<Attempt<Option<BeforeResult>>>, schedule: seq<Action>): TurnEnv {
    var output := ToolOutput("", EMPTY_OBJECT, None);
    var call := CallEnv(Returned(EMPTY_OBJECT), before, false, [], Returned(output), None, false);
    var calls := [Block.Call(ReadCall("a")), Block.Call(ReadCall("b"))];
    TurnEnv([], PlainReply(calls, NO_ORIGIN, NO_USAGE, ToolUse, None), [call, call], schedule, None, true, [], [])
  }

  lemma TwoCallsKeep(before: Option<Attempt<Option<BeforeResult>>>, schedule: seq<Action>)
    ensures var te := TwoCalls(before, schedule);
            && ToolCalls(te.final.content) == [ReadCall("a"), ReadCall("b")]
            && !Failed(te.final) && Answers(te)
            && AllAnswer([te]) && AllKeep(Rules(false, true), [te]) && AllKeep(Rules(false, false), [te])
  {
    var content := TwoCalls(before, schedule).final.content;
    assert content[1..] == [Block.Call(ReadCall("b"))] && content[1..][1..] == [];
  }

  lemma OneTurn(request: Request, context: Context, mode: ToolMode, steering: seq<Message>, te: TurnEnv)
    requires AllAnswer([te])
    ensures TurnsOf(request, context, mode, steering, [te]) != []
    ensures TurnsOf(request, context, mode, steering, [te])[0]
         == Taken(|Opener(request, steering)|, true, StartVars(request, context, steering), te)
  {
    hide RunTurn, Opener, StartVars;
  }

  lemma ToolsStay(t: Taken)
    ensures BatchContext(t).tools == t.vars.context.tools
  {
    hide StreamContext;
  }
}
