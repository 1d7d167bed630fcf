/** How the turns of a run follow one another: what the provider and the hooks of each are handed, and what becomes of
    the answers they give, with contexts replaced by `prepareNextTurn` or not. */
module Succession {
  import opened Types
  import opened Tools
  import opened Parallel
  import opened Scheduling
  import opened Streaming
  import opened AgentLoop
  import opened Turns

  // ----- The beginning of a turn -----

  /** Messages are shown one after the other from `at` on. */
  ghost predicate ShowsEach(log: seq<Interaction>, at: nat, ms: seq<Message>) {
    && at + 2 * |ms| <= |log|
    && forall i :: 0 <= i < |ms| ==>
         log[at + 2 * i] == Emit(MessageStart(ms[i])) && log[at + 2 * i + 1] == Emit(MessageEnd(ms[i]))
  }

  /** A turn opens at `at`: it is announced, unless it is the first; the pending messages are shown; and the provider is
      handed the transcript of the context followed by them. */
  ghost predicate Opens(log: seq<Interaction>, at: nat, first: bool, context: Context, pending: seq<Message>) {
    var shown := if first then at else at + 1;
    && shown + 2 * |pending| < |log|
    && (!first ==> log[at] == Emit(TurnStart))
    && ShowsEach(log, shown, pending)
    && log[shown + 2 * |pending|] == LlmCall(context.messages + pending)
  }

  lemma {:induction false} MessagesAreShown(ms: seq<Message>)
    ensures |MessagesLog(ms)| == 2 * |ms| && ShowsEach(MessagesLog(ms), 0, ms)
  {
    if ms != [] {
      var n := |ms| - 1;
      MessagesAreShown(ms[..n]);
      assert MessagesLog(ms) == MessagesLog(ms[..n]) + MessageLog(ms[n]);
      assert forall i :: 0 <= i < n ==> ms[..n][i] == ms[i];
    }
  }

  lemma ShownWithin(before: seq<Interaction>, ms: seq<Message>, after: seq<Interaction>)
    ensures ShowsEach(before + MessagesLog(ms) + after, |before|, ms)
  {
    MessagesAreShown(ms);
    var log, shown := before + MessagesLog(ms) + after, MessagesLog(ms);
    forall i | 0 <= i < |ms|
      ensures log[|before| + 2 * i] == Emit(MessageStart(ms[i])) && log[|before| + 2 * i + 1] == Emit(MessageEnd(ms[i]))
    {
      assert log[|before| + 2 * i] == shown[0 + 2 * i] && log[|before| + 2 * i + 1] == shown[0 + 2 * i + 1];
    }
  }

  lemma OpeningOpens(before: seq<Interaction>, first: bool, v: Vars, after: seq<Interaction>)
    ensures Opens(before + (OpeningLog(first, v.pending) + [LlmCall(v.context.messages + v.pending)] + after),
                  |before|, first, v.context, v.pending)
  {
    var call := [LlmCall(v.context.messages + v.pending)];
    var log := before + (OpeningLog(first, v.pending) + call + after);
    var head := before + if first then [] else [Emit(TurnStart)];
    MessagesAreShown(v.pending);
    assert log == head + MessagesLog(v.pending) + (call + after);
    ShownWithin(head, v.pending, call + after);
  }

  /** Behind any log, the run from the top of a turn opens that turn. */
  lemma TurnsOpen(before: seq<Interaction>, first: bool, v: Vars, mode: ToolMode, turns: seq<TurnEnv>)
    requires AllAnswer(turns)
    ensures Opens(before + RunTurns(first, v, mode, turns).log, |before|, first, v.context, v.pending)
  {
    hide RunTurn, OpeningLog, WindDown, Opens;
    var call := [LlmCall(v.context.messages + v.pending)];
    if turns == [] {
      OpeningOpens(before, first, v, []);
      assert OpeningLog(first, v.pending) + call + [] == OpeningLog(first, v.pending) + call;
    } else {
      hide RunTurns;
      var rest := FirstTurnIsThere(0, first, v, mode, turns);
      assert Answers(turns[0]);
      var after := BeginsWithAssistant(first, v, mode, turns[0]);
      var intro := OpeningLog(first, v.pending) + call;
      var stream := StreamLog(turns[0].stream, turns[0].final, false);
      assert AssistantLog(first, v, turns[0]) == intro + stream;
      assert RunTurns(first, v, mode, turns).log == intro + (stream + after + rest) by {
        hide AssistantLog, StreamLog;
        assert ((intro + stream) + after) + rest == intro + (stream + after + rest);
      }
      OpeningOpens(before, first, v, stream + after + rest);
    }
  }

  lemma BeginsWithAssistant(first: bool, v: Vars, mode: ToolMode, te: TurnEnv) returns (after: seq<Interaction>)
    requires Answers(te)
    ensures RunTurn(first, v, mode, te).log == AssistantLog(first, v, te) + after
  {
    hide AssistantLog, ExecuteBatch, ToolCalls, ClosingLog, ResultMessages, Answered, ShouldTerminate, Replaced;
    var log, w, calls := AssistantLog(first, v, te), Answered(v, te), ToolCalls(te.final.content);
    if Failed(te.final) {
      after := [Emit(TurnEnd(Assistant(te.final), [])), Emit(AgentEnd(w.newMessages))];
    } else if calls == [] {
      after := ClosingLog(w, te, []);
    } else {
      var b := ExecuteBatch(mode, w.context, calls, te.calls, te.schedule);
      if b.complete {
        after := b.log + ClosingLog(WithResults(w, ResultMessages(b.finalized)), te, ResultMessages(b.finalized));
        Associate(log, b.log, ClosingLog(WithResults(w, ResultMessages(b.finalized)), te, ResultMessages(b.finalized)));
      } else {
        after := b.log;
      }
    }
  }

  // ----- The end of a turn -----

  /** The provider has answered with an error, or was aborted. */
  predicate Breaks(t: Taken) {
    t.te.final.stopReason == StopReason.Error || t.te.final.stopReason == Aborted
  }

  /** The turn has come to its end, with the results of all calls taken up. */
  predicate Finishes(mode: ToolMode, t: Taken)
    requires Answers(t.te)
  {
    !Breaks(t) && (CallsOf(t) != [] ==> BatchOf(mode, t).complete)
  }

  /** The results of the turn. */
  function ResultsOf(mode: ToolMode, t: Taken): seq<Message>
    requires Answers(t.te)
  {
    if HasBatch(t) then ResultMessages(BatchOf(mode, t).finalized) else []
  }

  /** The messages that the run has added by the end of the turn. */
  function AddedBy(mode: ToolMode, t: Taken): seq<Message>
    requires Answers(t.te)
  {
    t.vars.newMessages + t.vars.pending + [Assistant(t.te.final)] + ResultsOf(mode, t)
  }

  /** The context with the results in place; a stream that keeps the provider contract has added one message. */
  ghost predicate IsContextAtEnd(mode: ToolMode, t: Taken, context: Context)
    requires Answers(t.te)
  {
    && context.tools == t.vars.context.tools
    && (LegalStream(t.te.stream) ==>
          context.messages
          == t.vars.context.messages + t.vars.pending + [Assistant(t.te.final)] + ResultsOf(mode, t))
  }

  /** `turn_end`; then `prepareNextTurn`, which gets the context as it is; then `shouldStopAfterTurn`, which gets the
      one handed back, if one is; and then the end of the run, or the steering poll. */
  ghost predicate Closes(
      closing: seq<Interaction>, te: TurnEnv, results: seq<Message>, added: seq<Message>, context: Context,
      next: Context)
  {
    var m := Assistant(te.final);
    && (te.replacement.Some? ==> next == te.replacement.value)
    && (te.replacement.None? ==> next == context)
    && closing
    == [Emit(TurnEnd(m, results)),
        Consult(m, results, context.messages, added),
        Consult(m, results, next.messages, added)]
         + [if te.stop then Emit(AgentEnd(added)) else PollSteering(te.steering)]
  }

  /** Some result does not ask to terminate. */
  predicate Presses(fs: seq<Finalized>) {
    exists k :: 0 <= k < |fs| && fs[k].result.terminate != Some(true)
  }

  predicate WantsMore(mode: ToolMode, t: Taken)
    requires Answers(t.te)
  {
    HasBatch(t) && Presses(BatchOf(mode, t).finalized)
  }

  lemma ToolsAreKept(t: Taken)
    ensures BatchContext(t).tools == t.vars.context.tools
    ensures LegalStream(t.te.stream) ==>
              BatchContext(t).messages == t.vars.context.messages + t.vars.pending + [Assistant(t.te.final)]
  {
    hide StreamContext;
    StreamingIsOneAppend(t.te.stream, t.vars.context.messages + t.vars.pending, t.te.final);
  }

  /** A turn that finishes: its log up to the closing, the closing, and how it comes out. */
  lemma TurnCloses(mode: ToolMode, t: Taken)
    returns (closing: seq<Interaction>, context: Context, next: Context)
    requires Answers(t.te) && Finishes(mode, t)
    ensures TurnLog(mode, t)
         == AssistantLog(t.first, t.vars, t.te) + (if HasBatch(t) then BatchOf(mode, t).log else []) + closing
    ensures IsContextAtEnd(mode, t, context)
    ensures Closes(closing, t.te, ResultsOf(mode, t), AddedBy(mode, t), context, next)
    ensures var turn := RunTurn(t.first, t.vars, mode, t.te);
            if t.te.stop then turn.Ended? && turn.vars.context == next && turn.vars.newMessages == AddedBy(mode, t)
            else
              && turn.GoesOn? && turn.hasMoreToolCalls == WantsMore(mode, t)
              && turn.vars == Vars(next, AddedBy(mode, t), t.te.steering)
  {
    hide AssistantLog, ExecuteBatch, ToolCalls, ResultMessages, StreamContext, LegalStream, AddedBy, ResultsOf;
    var te := t.te;
    var results := ResultsOf(mode, t);
    ToolsAreKept(t);
    AddedIsAll(mode, t);
    var w := WithResults(Answered(t.vars, te), results);
    context, next := w.context, Replaced(w, te).context;
    closing := ClosingLog(w, te, results);
    var b := BatchOf(mode, t);
    if HasBatch(t) {
      FinishedBatch(mode, t);
      TerminatesIfAll(b.finalized);
    } else {
      NoResultsWithoutBatch(mode, t);
      assert WithResults(Answered(t.vars, te), []) == Answered(t.vars, te);
      assert AssistantLog(t.first, t.vars, te) + [] == AssistantLog(t.first, t.vars, te);
    }
  }

  lemma FinishedBatch(mode: ToolMode, t: Taken)
    requires Answers(t.te) && HasBatch(t) && BatchOf(mode, t).complete
    ensures ResultsOf(mode, t) == ResultMessages(BatchOf(mode, t).finalized)
    ensures BatchOf(mode, t).finalized != []
  {
    hide ToolCalls, Answered, ParallelBatch, SequentialBatch;
    OutcomesOfBatch(mode, BatchContext(t), CallsOf(t), t.te.calls, t.te.schedule);
  }

  lemma OutcomesOfBatch(
      mode: ToolMode, context: Context, calls: seq<ToolCall>, env: seq<CallEnv>, schedule: seq<Action>)
    requires 0 < |calls| <= |env| && ExecuteBatch(mode, context, calls, env, schedule).complete
    ensures ExecuteBatch(mode, context, calls, env, schedule).finalized != []
  {
    hide ParallelBatch, Outcomes, SequentialLog, MessageEvents, UsesSequential;
    if !UsesSequential(mode, context.tools, calls) {
      ParallelRefinesSequential(context, calls, env, schedule);
    }
  }

  lemma NoResultsWithoutBatch(mode: ToolMode, t: Taken)
    requires Answers(t.te) && !HasBatch(t)
    ensures ResultsOf(mode, t) == []
  {
  }

  lemma AddedIsAll(mode: ToolMode, t: Taken)
    requires Answers(t.te)
    ensures AddedBy(mode, t) == WithResults(Answered(t.vars, t.te), ResultsOf(mode, t)).newMessages
  {
    hide StreamContext, ResultsOf;
  }

  lemma TerminatesIfAll(fs: seq<Finalized>)
    requires fs != []
    ensures !ShouldTerminate(fs) <==> Presses(fs)
  {
  }

  // ----- What follows a turn -----

  /** What follows at `at` behind a turn that ends there with the context `next`, with `others` for the turns taken from
      there on: if more is wanted or the poll has found something, the next turn, with what it has found; otherwise the
      follow-up poll, and with what it finds the next turn, or else the end of the run. */
  ghost predicate Follows(
      log: seq<Interaction>, at: nat, run: Run, te: TurnEnv, more: bool, added: seq<Message>, next: Context,
      others: seq<Taken>, turns: seq<TurnEnv>)
  {
    if te.stop then at == |log| && run.ended && run.vars.context == next && others == []
    else if more || te.steering != [] then
      && Opens(log, at, false, next, te.steering)
      && (others == [] <==> turns == [])
      && (others != [] ==> others[0] == Taken(at, false, Vars(next, added, te.steering), turns[0]))
    else
      && at < |log| && log[at] == PollFollowUp(te.followUp)
      && if te.followUp == [] then
           && at + 2 == |log| && log[at + 1] == Emit(AgentEnd(added))
           && run.ended && run.vars.context == next && others == []
         else
           && Opens(log, at + 1, false, next, te.followUp)
           && (others == [] <==> turns == [])
           && (others != [] ==> others[0] == Taken(at + 1, false, Vars(next, added, te.followUp), turns[0]))
  }

  lemma FirstOfTaken(start: nat, first: bool, v: Vars, mode: ToolMode, turns: seq<TurnEnv>)
    requires AllAnswer(turns)
    ensures TurnsTaken(start, first, v, mode, turns) == [] <==> turns == []
    ensures turns != [] ==> TurnsTaken(start, first, v, mode, turns)[0] == Taken(start, first, v, turns[0])
  {
    hide RunTurn;
  }

  /** Behind a turn that goes on at once. */
  lemma NextTurnFollows(before: seq<Interaction>, w: Vars, mode: ToolMode, run: Run, te: TurnEnv, more: bool,
                        turns: seq<TurnEnv>)
    requires AllAnswer(turns) && !te.stop && w.pending == te.steering && (more || te.steering != [])
    ensures Follows(before + RunTurns(false, w, mode, turns).log, |before|, run, te, more, w.newMessages, w.context,
                    TurnsTaken(|before|, false, w, mode, turns), turns)
  {
    hide RunTurn, RunTurns, TurnsTaken, Opens;
    TurnsOpen(before, false, w, mode, turns);
    FirstOfTaken(|before|, false, w, mode, turns);
  }

  /** Behind a turn that would stop. */
  lemma FollowUpFollows(before: seq<Interaction>, w: Vars, mode: ToolMode, te: TurnEnv, turns: seq<TurnEnv>)
    requires AllAnswer(turns) && !te.stop && te.steering == []
    ensures var run, next := WindDown(w, mode, te.followUp, turns), w.(pending := te.followUp);
            Follows(before + run.log, |before|, run, te, false, w.newMessages, w.context,
                    if te.followUp == [] then [] else TurnsTaken(|before| + 1, false, next, mode, turns), turns)
  {
    hide RunTurn, RunTurns, TurnsTaken, Opens;
    var poll, next := [PollFollowUp(te.followUp)], w.(pending := te.followUp);
    if te.followUp != [] {
      TurnsOpen(before + poll, false, next, mode, turns);
      FirstOfTaken(|before| + 1, false, next, mode, turns);
      Associate(before, poll, RunTurns(false, next, mode, turns).log);
    }
  }

  /** Only how a run ends matters to what follows a turn. */
  lemma SameEndFollows(
      log: seq<Interaction>, at: nat, a: Run, b: Run, te: TurnEnv, more: bool, added: seq<Message>, next: Context,
      others: seq<Taken>, turns: seq<TurnEnv>)
    requires a.ended == b.ended && a.vars == b.vars
    ensures Follows(log, at, a, te, more, added, next, others, turns)
         == Follows(log, at, b, te, more, added, next, others, turns)
  {
    hide Opens;
  }

  lemma Unroll(start: nat, first: bool, v: Vars, mode: ToolMode, turns: seq<TurnEnv>)
    requires AllAnswer(turns) && turns != [] && RunTurn(first, v, mode, turns[0]).GoesOn?
    ensures var run, turn := RunTurns(first, v, mode, turns), RunTurn(first, v, mode, turns[0]);
            var w, at := turn.vars, start + |turn.log|;
            var others := TurnsTaken(start, first, v, mode, turns)[1..];
            if turn.hasMoreToolCalls || w.pending != [] then
              && run == Then(turn.log, RunTurns(false, w, mode, turns[1..]))
              && others == TurnsTaken(at, false, w, mode, turns[1..])
            else
              && run == Then(turn.log, WindDown(w, mode, turns[0].followUp, turns[1..]))
              && others == (if turns[0].followUp == [] then []
                            else TurnsTaken(at + 1, false, w.(pending := turns[0].followUp), mode, turns[1..]))
  {
    hide RunTurn, WindDown;
  }

  /** Behind a turn that goes on. */
  lemma GoingOnFollows(before: seq<Interaction>, start: nat, first: bool, v: Vars, mode: ToolMode, turns: seq<TurnEnv>)
    requires AllAnswer(turns) && turns != [] && RunTurn(first, v, mode, turns[0]).GoesOn?
    requires |before| == start && !turns[0].stop
    requires RunTurn(first, v, mode, turns[0]).vars.pending == turns[0].steering
    ensures var run, turn := RunTurns(first, v, mode, turns), RunTurn(first, v, mode, turns[0]);
            Follows(before + run.log, start + |turn.log|, run, turns[0], turn.hasMoreToolCalls, turn.vars.newMessages,
                    turn.vars.context, TurnsTaken(start, first, v, mode, turns)[1..], turns[1..])
  {
    hide RunTurn, RunTurns, TurnsTaken, WindDown, Follows;
    FirstOfTaken(start, first, v, mode, turns);
    Unroll(start, first, v, mode, turns);
    var run, turn := RunTurns(first, v, mode, turns), RunTurn(first, v, mode, turns[0]);
    var w, at, others := turn.vars, start + |turn.log|, TurnsTaken(start, first, v, mode, turns)[1..];
    if turn.hasMoreToolCalls || w.pending != [] {
      NextTurnFollows(before + turn.log, w, mode, run, turns[0], turn.hasMoreToolCalls, turns[1..]);
      Associate(before, turn.log, RunTurns(false, w, mode, turns[1..]).log);
    } else {
      var rest := WindDown(w, mode, turns[0].followUp, turns[1..]);
      FollowUpFollows(before + turn.log, w, mode, turns[0], turns[1..]);
      Associate(before, turn.log, rest.log);
      SameEndFollows(before + run.log, at, run, rest, turns[0], false, w.newMessages, w.context, others, turns[1..]);
    }
  }

  /** Everything about a turn that finishes, in the log it is part of. */
  ghost predicate Finished(
      log: seq<Interaction>, run: Run, mode: ToolMode, t: Taken, end: nat, context: Context, next: Context,
      others: seq<Taken>, turns: seq<TurnEnv>)
    requires Answers(t.te)
  {
    && 4 <= end <= |log|
    && IsContextAtEnd(mode, t, context)
    && Closes(log[end - 4..end], t.te, ResultsOf(mode, t), AddedBy(mode, t), context, next)
    && Follows(log, end, run, t.te, WantsMore(mode, t), AddedBy(mode, t), next, others, turns)
  }

  lemma FirstTurnFinishes(
      before: seq<Interaction>, start: nat, first: bool, v: Vars, mode: ToolMode, turns: seq<TurnEnv>)
    returns (context: Context, next: Context)
    requires AllAnswer(turns) && turns != [] && |before| == start
    requires Finishes(mode, Taken(start, first, v, turns[0]))
    ensures var run := RunTurns(first, v, mode, turns);
            var t, taken := Taken(start, first, v, turns[0]), TurnsTaken(start, first, v, mode, turns);
            Finished(before + run.log, run, mode, t, start + |TurnLog(mode, t)|, context, next, taken[1..], turns[1..])
  {
    hide RunTurn, RunTurns, AssistantLog, AddedBy, ResultsOf, WantsMore, Finishes, IsContextAtEnd, BatchOf, TurnsTaken,
         Follows, Closes, HasBatch;
    var t := Taken(start, first, v, turns[0]);
    var closing;
    closing, context, next := TurnCloses(mode, t);
    var run, turn := RunTurns(first, v, mode, turns), RunTurn(first, v, mode, turns[0]);
    var log, end := before + run.log, start + |turn.log|;
    var rest := FirstTurnIsThere(start, first, v, mode, turns);
    assert log == before + turn.log + rest;
    FourAtTheEnd(closing, turns[0], ResultsOf(mode, t), AddedBy(mode, t), context, next);
    ClosingAtEnd(before, AssistantLog(first, v, turns[0]) + (if HasBatch(t) then BatchOf(mode, t).log else []), closing,
                 rest);
    if turns[0].stop {
      StopFollows(before, start, first, v, mode, turns, WantsMore(mode, t));
    } else {
      GoingOnFollows(before, start, first, v, mode, turns);
    }
  }

  lemma FourAtTheEnd(
      closing: seq<Interaction>, te: TurnEnv, results: seq<Message>, added: seq<Message>, context: Context,
      next: Context)
    requires Closes(closing, te, results, added, context, next)
    ensures |closing| == 4
  {
  }

  lemma StopFollows(
      before: seq<Interaction>, start: nat, first: bool, v: Vars, mode: ToolMode, turns: seq<TurnEnv>, more: bool)
    requires AllAnswer(turns) && turns != [] && RunTurn(first, v, mode, turns[0]).Ended? && turns[0].stop
    requires |before| == start
    ensures var run, turn := RunTurns(first, v, mode, turns), RunTurn(first, v, mode, turns[0]);
            Follows(before + run.log, start + |turn.log|, run, turns[0], more, turn.vars.newMessages,
                    turn.vars.context, TurnsTaken(start, first, v, mode, turns)[1..], turns[1..])
  {
    hide RunTurn, Opens;
  }

  lemma ClosingAtEnd(
      before: seq<Interaction>, front: seq<Interaction>, closing: seq<Interaction>, rest: seq<Interaction>)
    requires |closing| == 4
    ensures var log, end := before + (front + closing) + rest, |before| + |front + closing|;
            4 <= end <= |log| && log[end - 4..end] == closing
  {
  }

  /** The turns from number `i` on are a run of their own behind what came before. */
  lemma {:induction false} RestOfTurns(
      start: nat, first: bool, v: Vars, mode: ToolMode, turns: seq<TurnEnv>, i: nat)
    requires AllAnswer(turns) && i < |TurnsTaken(start, first, v, mode, turns)|
    ensures i < |turns| && AllAnswer(turns[i..])
    ensures var taken := TurnsTaken(start, first, v, mode, turns);
            var t, run := taken[i], RunTurns(first, v, mode, turns);
            var rest := RunTurns(t.first, t.vars, mode, turns[i..]);
            && t.te == turns[i] && start <= t.start <= start + |run.log|
            && run.log[t.start - start..] == rest.log && run.ended == rest.ended && run.vars == rest.vars
            && taken[i..] == TurnsTaken(t.start, t.first, t.vars, mode, turns[i..])
    decreases |turns|
  {
    hide RunTurn, RunTurns, TurnsTaken, Answers;
    NoTurns(start, first, v, mode, turns);
    if i == 0 {
      var _ := FirstTurnIsThere(start, first, v, mode, turns);
      assert turns[0..] == turns;
    } else {
      var pause, w := Further(start, first, v, mode, turns);
      var log := RunTurn(first, v, mode, turns[0]).log;
      var at, rest := start + |log| + |pause|, RunTurns(false, w, mode, turns[1..]).log;
      RestOfTurns(at, false, w, mode, turns[1..], i - 1);
      assert turns[1..][i - 1..] == turns[i..];
      var t := TurnsTaken(at, false, w, mode, turns[1..])[i - 1];
      assert ((log + pause) + rest)[t.start - start..] == rest[t.start - at..];
    }
  }

  /** In every run, for every turn that has not failed and is not cut off: both contexts that the hooks at its end are
      handed, the one handed back by `prepareNextTurn` included; what the next provider call is handed, which is the
      latter and what the poll in between has found; the tools of the next turn; whether there is a next turn at all, and
      the context the run ends with otherwise. */
  lemma TurnsFollow(
      request: Request, context: Context, mode: ToolMode, steering: seq<Message>, turns: seq<TurnEnv>, i: nat)
    returns (now: Context, next: Context)
    requires AllAnswer(turns) && i < |TurnsOf(request, context, mode, steering, turns)|
    requires var t := TurnsOf(request, context, mode, steering, turns)[i]; Answers(t.te) && Finishes(mode, t)
    ensures i < |turns|
    ensures var run := RunOf(request, context, mode, steering, turns);
            var taken := TurnsOf(request, context, mode, steering, turns);
            && taken[i].te == turns[i]
            && Finished(run.log, run, mode, taken[i], taken[i].start + |TurnLog(mode, taken[i])|, now, next,
                        taken[i + 1..], turns[i + 1..])
  {
    hide RunOf, RunTurn, RunTurns, TurnsTaken, Opener, StartVars, Finishes, Finished, Answers;
    var opener, v := Opener(request, steering), StartVars(request, context, steering);
    var run, inner := RunOf(request, context, mode, steering, turns), RunTurns(true, v, mode, turns);
    RunIsOpenerAndTurns(request, context, mode, steering, turns);
    RunEndsAsTurns(request, context, mode, steering, turns);
    RestOfTurns(|opener|, true, v, mode, turns, i);
    var taken := TurnsOf(request, context, mode, steering, turns);
    var t := taken[i];
    now, next := FirstTurnFinishes(run.log[..t.start], t.start, t.first, t.vars, mode, turns[i..]);
    assert (opener + inner.log)[t.start..] == inner.log[t.start - |opener|..];
    assert run.log == run.log[..t.start] + run.log[t.start..];
    assert taken[i..][1..] == taken[i + 1..] && turns[i..][1..] == turns[i + 1..] && turns[i..][0] == turns[i];
    OnlyTheEndCounts(run.log, run, RunTurns(t.first, t.vars, mode, turns[i..]), mode, t, t.start + |TurnLog(mode, t)|,
                     now, next, taken[i + 1..], turns[i + 1..]);
  }

  lemma OnlyTheEndCounts(
      log: seq<Interaction>, a: Run, b: Run, mode: ToolMode, t: Taken, end: nat, context: Context, next: Context,
      others: seq<Taken>, turns: seq<TurnEnv>)
    requires Answers(t.te) && a.ended == b.ended && a.vars == b.vars
    ensures Finished(log, a, mode, t, end, context, next, others, turns)
         == Finished(log, b, mode, t, end, context, next, others, turns)
  {
    hide Opens, Closes, IsContextAtEnd, AddedBy, ResultsOf, WantsMore;
  }

  lemma RunEndsAsTurns(
      request: Request, context: Context, mode: ToolMode, steering: seq<Message>, turns: seq<TurnEnv>)
    requires AllAnswer(turns)
    ensures RunOf(request, context, mode, steering, turns).vars
         == RunTurns(true, StartVars(request, context, steering), mode, turns).vars
  {
    hide RunTurns, MessagesLog;
    assert context.messages + [] == context.messages;
  }

  /** A turn whose assistant message has failed executes nothing, and the run is over with it: `turn_end` without
      results, and `agent_end`. A turn whose batch is cut off is the last one seen. */
  lemma OtherTurnsAreLast(
      request: Request, context: Context, mode: ToolMode, steering: seq<Message>, turns: seq<TurnEnv>, i: nat)
    requires AllAnswer(turns) && i < |TurnsOf(request, context, mode, steering, turns)|
    requires var t := TurnsOf(request, context, mode, steering, turns)[i]; Answers(t.te) && !Finishes(mode, t)
    ensures var run := RunOf(request, context, mode, steering, turns);
            var taken := TurnsOf(request, context, mode, steering, turns);
            var t := taken[i];
            && i == |taken| - 1 && |run.log| == t.start + |TurnLog(mode, t)|
            && run.ended == Breaks(t)
            && (Breaks(t) ==>
                  && TurnLog(mode, t)
                  == AssistantLog(t.first, t.vars, t.te)
                       + [Emit(TurnEnd(Assistant(t.te.final), [])),
                          Emit(AgentEnd(t.vars.newMessages + t.vars.pending + [Assistant(t.te.final)]))]
                  && run.vars.context.tools == t.vars.context.tools)
  {
    hide RunOf, RunTurn, RunTurns, TurnsTaken, Opener, StartVars, Finishes, Answers, AssistantLog;
    var opener, v := Opener(request, steering), StartVars(request, context, steering);
    var run, inner := RunOf(request, context, mode, steering, turns), RunTurns(true, v, mode, turns);
    RunIsOpenerAndTurns(request, context, mode, steering, turns);
    RunEndsAsTurns(request, context, mode, steering, turns);
    RestOfTurns(|opener|, true, v, mode, turns, i);
    var taken := TurnsOf(request, context, mode, steering, turns);
    var t := taken[i];
    assert turns[i..][0] == t.te;
    assert (opener + inner.log)[t.start..] == inner.log[t.start - |opener|..];
    TurnBreaksOff(mode, t);
    LastTurn(t.start, t.first, t.vars, mode, turns[i..]);
  }

  lemma TurnBreaksOff(mode: ToolMode, t: Taken)
    requires Answers(t.te) && !Finishes(mode, t)
    ensures var turn := RunTurn(t.first, t.vars, mode, t.te);
            if Breaks(t) then
              && turn.Ended? && turn.vars.context.tools == t.vars.context.tools
              && turn.log
              == AssistantLog(t.first, t.vars, t.te)
                   + [Emit(TurnEnd(Assistant(t.te.final), [])),
                      Emit(AgentEnd(t.vars.newMessages + t.vars.pending + [Assistant(t.te.final)]))]
            else turn.Suspended?
  {
    hide AssistantLog, ExecuteBatch, ToolCalls, ResultMessages, StreamContext, ClosingLog, Replaced;
  }

  lemma LastTurn(start: nat, first: bool, v: Vars, mode: ToolMode, turns: seq<TurnEnv>)
    requires AllAnswer(turns) && turns != [] && !RunTurn(first, v, mode, turns[0]).GoesOn?
    ensures var run, turn := RunTurns(first, v, mode, turns), RunTurn(first, v, mode, turns[0]);
            && run == Run(turn.log, turn.Ended?, turn.vars)
            && |TurnsTaken(start, first, v, mode, turns)| == 1
  {
    hide RunTurn;
  }

  /** A run begins with its prompts, the first steering poll, and the first turn: with the transcript it is given, its
      tools, and what the poll has found. */
  lemma RunsBegin(
      request: Request, context: Context, mode: ToolMode, steering: seq<Message>, turns: seq<TurnEnv>)
    requires AllAnswer(turns)
    ensures var log, taken := RunOf(request, context, mode, steering, turns).log,
                              TurnsOf(request, context, mode, steering, turns);
            var prompts := Expected(request);
            var at, given := 3 + 2 * |prompts|, Context(context.messages + prompts, context.tools);
            && at <= |log| && log[0] == Emit(AgentStart) && log[1] == Emit(TurnStart) && ShowsEach(log, 2, prompts)
            && log[at - 1] == PollSteering(steering)
            && Opens(log, at, true, given, steering)
            && (taken == [] <==> turns == [])
            && (taken != [] ==> taken[0] == Taken(at, true, Vars(given, prompts, steering), turns[0]))
  {
    hide RunOf, RunTurns, TurnsTaken, MessagesLog, Opens;
    var prompts, v := Expected(request), StartVars(request, context, steering);
    var opener, rest := Opener(request, steering), RunTurns(true, v, mode, turns).log;
    var start := [Emit(AgentStart), Emit(TurnStart)];
    RunIsOpenerAndTurns(request, context, mode, steering, turns);
    MessagesAreShown(prompts);
    ShownWithin(start, prompts, [PollSteering(steering)] + rest);
    assert opener + rest == start + MessagesLog(prompts) + ([PollSteering(steering)] + rest);
    TurnsOpen(opener, true, v, mode, turns);
    FirstOfTaken(|opener|, true, v, mode, turns);
  }

  /** Where the provider is called in a turn. */
  function CallAt(t: Taken): nat {
    t.start + (if t.first then 0 else 1) + 2 * |t.vars.pending|
  }

  /** In every run, what is shown behind a provider call is its stream, one message event for each provider event from
      the first `start` on. */
  lemma StreamsAreShown(
      request: Request, context: Context, mode: ToolMode, steering: seq<Message>, turns: seq<TurnEnv>, i: nat,
      s: nat, n: nat)
    requires AllAnswer(turns) && i < |TurnsOf(request, context, mode, steering, turns)|
    requires Spans(TurnsOf(request, context, mode, steering, turns)[i].te.stream, s, n)
    ensures var log, t := RunOf(request, context, mode, steering, turns).log,
                          TurnsOf(request, context, mode, steering, turns)[i];
            var at, length := CallAt(t), if s == n then 2 else n - s + 1;
            && at + 1 + length <= |log|
            && log[at] == LlmCall(t.vars.context.messages + t.vars.pending)
            && ShowsStream(log[at + 1..at + 1 + length], t.te.stream, t.te.final, s, n)
  {
    hide RunOf, RunTurn, TurnsOf, ShowsStream, StreamLog;
    TurnIsInRun(request, context, mode, steering, turns, i);
    var log, t := RunOf(request, context, mode, steering, turns).log,
                  TurnsOf(request, context, mode, steering, turns)[i];
    StreamIsShown(t.te.stream, t.te.final, s, n);
    ShownStreamLength(StreamLog(t.te.stream, t.te.final, false), t.te.stream, t.te.final, s, n);
    var after := BeginsWithAssistant(t.first, t.vars, mode, t.te);
    StreamInTurn(log, t, mode, after);
  }

  lemma ShownStreamLength(log: seq<Interaction>, events: seq<StreamEvent>, final: AssistantMessage, s: nat, n: nat)
    requires s <= n <= |events| && ShowsStream(log, events, final, s, n)
    ensures |log| == if s == n then 2 else n - s + 1
  {
  }

  lemma StreamInTurn(log: seq<Interaction>, t: Taken, mode: ToolMode, after: seq<Interaction>)
    requires Answers(t.te) && Holds(log, t.start, TurnLog(mode, t))
    requires TurnLog(mode, t) == AssistantLog(t.first, t.vars, t.te) + after
    ensures var stream, at := StreamLog(t.te.stream, t.te.final, false), CallAt(t);
            && at + 1 + |stream| <= |log| && log[at] == LlmCall(t.vars.context.messages + t.vars.pending)
            && log[at + 1..at + 1 + |stream|] == stream
  {
    hide RunTurn, StreamLog;
    MessagesAreShown(t.vars.pending);
    var call, stream := [LlmCall(t.vars.context.messages + t.vars.pending)], StreamLog(t.te.stream, t.te.final, false);
    var opening := OpeningLog(t.first, t.vars.pending);
    assert opening + call + (stream + after) == (opening + call) + stream + after == TurnLog(mode, t);
    HoldsWithin(log, t.start, opening, call, stream + after);
    HoldsWithin(log, t.start, opening + call, stream, after);
  }
}
